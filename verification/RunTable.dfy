/**
  The table automation_runs: one row per (rule, trigger key), changed only by the
  conditional updates below. Each update is given as a guard and an effect on the row;
  the class executes them on the stored rows.
 */
module RunTable {
  import opened DeliveryProof

  datatype ActionType = ConfirmShipment | AdjustPrice | SendCard | SendTemplate | SendText

  datatype Status = Running | Success | Failed | NeedsReview | Canceled

  /** The marker an error message starts with. */
  datatype Marker = Plain | SafeRetry | NoRetry

  /** The parts of an error message the statements look at. */
  datatype Note = Note(marker: Marker, ruleUnavailable: bool)

  const NO_NOTE := Note(Plain, false)

  datatype Run = Run(
    status: Status, attempt: nat, cursor: nat, started: bool, sent: nat, proof: Proof,
    note: Note, lease: int, nextRetry: int)

  /** How one statement ends for its caller: it runs, it fails without effect, or it takes
      effect and the caller still gets an error. */
  datatype Fault = NoFault | FailedBefore | FailedAfter

  datatype DbError = Ok | LeaseLost | DbFailure

  const RETRY_DELAY := 60
  const MAX_ATTEMPTS := 3
  const LEASE_SECONDS := 300

  // ---- guards and effects -------------------------------------------------------------

  function Inserted(lease: int): Run {
    Run(Running, 1, 0, false, 0, EMPTY_PROOF, NO_NOTE, lease, 0)
  }

  /** A failed run that may be tried again from its cursor. */
  predicate Retryable(sent: nat, note: Note) {
    (sent == 0 && !note.marker.NoRetry?) || note.marker.SafeRetry?
  }

  /** The common condition of reclaimRun and ClaimRecoveryRun. */
  predicate Claimable(r: Run, now: int) {
    && !r.started
    && (|| (r.status.Running? && (r.lease == 0 || r.lease < now))
        || (r.status.Failed? && r.attempt < MAX_ATTEMPTS && r.nextRetry <= now && Retryable(r.sent, r.note)))
  }

  function Claimed(r: Run, lease: int): Run {
    r.(status := Running, note := NO_NOTE, lease := lease, nextRetry := 0, attempt := r.attempt + 1)
  }

  predicate Owned(r: Run, attempt: nat) {
    r.attempt == attempt && r.status.Running?
  }

  predicate CanStart(r: Run, attempt: nat, cursor: nat) {
    Owned(r, attempt) && r.cursor == cursor && !r.started
  }

  function Started(r: Run, lease: int): Run {
    r.(started := true, lease := lease)
  }

  predicate CanAbort(r: Run, attempt: nat, cursor: nat) {
    Owned(r, attempt) && r.cursor == cursor
  }

  function Aborted(r: Run): Run {
    r.(started := false)
  }

  predicate CanAdvance(r: Run, attempt: nat, cursor: nat) {
    Owned(r, attempt) && r.cursor == cursor && r.started
  }

  /** What an advance does to the stored proof. */
  datatype ProofUpdate = Keep | Store(proof: Proof) | Clear

  function Updated(p: Proof, u: ProofUpdate): Proof {
    match u
    case Keep => p
    case Store(q) => q
    case Clear => EMPTY_PROOF
  }

  function Advanced(r: Run, delta: nat, u: ProofUpdate): Run {
    r.(cursor := r.cursor + 1, started := false, sent := r.sent + delta, proof := Updated(r.proof, u))
  }

  predicate CanQuarantine(r: Run, attempt: nat) {
    r.attempt == attempt && (r.status.Running? || r.status.Failed?)
  }

  function Quarantined(r: Run, note: Note): Run {
    r.(status := NeedsReview, note := note, lease := 0, nextRetry := 0)
  }

  function QuarantinedResult(r: Run, sent: nat, note: Note, proof: ProofUpdate): Run {
    Quarantined(r, note).(sent := sent, proof := Updated(r.proof, proof))
  }

  /** FinishRun: a run that will not be retried by itself loses its proof. */
  function Finished(r: Run, status: Status, sent: nat, note: Note, now: int): Run {
    var retry := status.Failed? && Retryable(sent, note);
    r.(status := status, sent := sent, note := note, lease := 0,
       nextRetry := if retry then now + RETRY_DELAY else 0,
       proof := if retry then r.proof else EMPTY_PROOF)
  }

  predicate CanPostpone(r: Run, attempt: nat) {
    r.attempt == attempt && !r.started && (r.status.Running? || r.status.Failed?)
  }

  function Postponed(r: Run, retryAt: int): Run {
    if r.status.Running? then r.(lease := retryAt) else r.(nextRetry := retryAt)
  }

  // ---- what an operator may do with a run under review ----------------------------------

  datatype Resolution = Continue | Retry | Cancel

  /** automationUnknownActionCanContinue: an unknown delivery is not skipped before a later
      confirmation of the shipment. */
  predicate UnknownActionCanContinue(plan: seq<ActionType>, snapshotOk: bool, cursor: nat) {
    && snapshotOk
    && cursor < |plan|
    && (plan[cursor].SendCard? || plan[cursor].SendTemplate? ==>
          forall k :: cursor < k < |plan| ==> !plan[k].ConfirmShipment?)
  }

  /** automationIssuePolicy. */
  predicate Allowed(plan: seq<ActionType>, snapshotOk: bool, ruleEnabled: bool, r: Run, resolution: Resolution) {
    if r.started then
      resolution.Cancel? || (resolution.Continue? && UnknownActionCanContinue(plan, snapshotOk, r.cursor))
    else if !snapshotOk then resolution.Cancel?
    else if r.note.ruleUnavailable then resolution.Cancel? || (resolution.Retry? && ruleEnabled)
    else if r.sent > 0 then true
    else !resolution.Continue?
  }

  /** ResolveRunIssue. */
  function Resolved(r: Run, resolution: Resolution): Run {
    match resolution
    case Continue => r.(status := Running, cursor := r.cursor + 1, started := false, lease := 0, nextRetry := 0,
        note := NO_NOTE)
    case Retry => r.(status := Running, started := false, lease := 0, nextRetry := 0, note := NO_NOTE)
    case Cancel => r.(status := Canceled, started := false, lease := 0, nextRetry := 0, proof := EMPTY_PROOF)
  }

  // ---- the stored table -------------------------------------------------------------------

  datatype RunKey = RunKey(rule: nat, trigger: string)

  /** The row under `key` after a conditional update that met `fault` and `guard`. */
  function After(rows: map<RunKey, Run>, key: RunKey, guard: bool, row: Run, fault: Fault): map<RunKey, Run> {
    if guard && !fault.FailedBefore? then rows[key := row] else rows
  }

  function Answer(guard: bool, fault: Fault): DbError {
    if !fault.NoFault? then DbFailure else if guard then Ok else LeaseLost
  }

  class Table {
    var rows: map<RunKey, Run>

    constructor ()
      ensures rows == map[]
    {
      rows := map[];
    }

    /** Unique per rule and trigger key: a second call can only reclaim the one row. */
    method TryStartRun(key: RunKey, now: int, lease: int, fault: Fault) returns (started: bool, err: DbError)
      modifies this
      ensures key !in old(rows) ==> rows == After(old(rows), key, true, Inserted(lease), fault)
      ensures key in old(rows) ==>
                rows == After(old(rows), key, Claimable(old(rows)[key], now), Claimed(old(rows)[key], lease), fault)
      ensures started <==> fault.NoFault? && (key in old(rows) ==> Claimable(old(rows)[key], now))
      ensures err.Ok? <==> fault.NoFault?
    {
      if key !in rows {
        rows := After(rows, key, true, Inserted(lease), fault);
        started := fault.NoFault?;
        err := if fault.NoFault? then Ok else DbFailure;
      } else {
        started, err := ClaimRecoveryRun(key, now, lease, fault);
      }
    }

    method ClaimRecoveryRun(key: RunKey, now: int, lease: int, fault: Fault) returns (claimed: bool, err: DbError)
      requires key in rows
      modifies this
      ensures rows == After(old(rows), key, Claimable(old(rows)[key], now), Claimed(old(rows)[key], lease), fault)
      ensures claimed <==> fault.NoFault? && Claimable(old(rows)[key], now)
      ensures err.Ok? <==> fault.NoFault?
    {
      var guard := Claimable(rows[key], now);
      rows := After(rows, key, guard, Claimed(rows[key], lease), fault);
      claimed := fault.NoFault? && guard;
      err := if fault.NoFault? then Ok else DbFailure;
    }

    method StartRunAction(key: RunKey, attempt: nat, cursor: nat, lease: int, fault: Fault)
      returns (started: bool, err: DbError)
      requires key in rows
      modifies this
      ensures rows == After(old(rows), key, CanStart(old(rows)[key], attempt, cursor), Started(old(rows)[key], lease),
          fault)
      ensures started <==> fault.NoFault? && CanStart(old(rows)[key], attempt, cursor)
      ensures err.Ok? <==> fault.NoFault?
    {
      var guard := CanStart(rows[key], attempt, cursor);
      rows := After(rows, key, guard, Started(rows[key], lease), fault);
      started := fault.NoFault? && guard;
      err := if fault.NoFault? then Ok else DbFailure;
    }

    method AbortRunAction(key: RunKey, attempt: nat, cursor: nat, fault: Fault) returns (err: DbError)
      requires key in rows
      modifies this
      ensures rows == After(old(rows), key, CanAbort(old(rows)[key], attempt, cursor), Aborted(old(rows)[key]), fault)
      ensures err == Answer(CanAbort(old(rows)[key], attempt, cursor), fault)
    {
      var guard := CanAbort(rows[key], attempt, cursor);
      rows := After(rows, key, guard, Aborted(rows[key]), fault);
      err := Answer(guard, fault);
    }

    method AdvanceRunAction(key: RunKey, attempt: nat, cursor: nat, delta: nat, proof: ProofUpdate, fault: Fault)
      returns (err: DbError)
      requires key in rows
      modifies this
      ensures rows == After(old(rows), key, CanAdvance(old(rows)[key], attempt, cursor),
          Advanced(old(rows)[key], delta, proof), fault)
      ensures err == Answer(CanAdvance(old(rows)[key], attempt, cursor), fault)
    {
      var guard := CanAdvance(rows[key], attempt, cursor);
      rows := After(rows, key, guard, Advanced(rows[key], delta, proof), fault);
      err := Answer(guard, fault);
    }

    method RenewRunLease(key: RunKey, attempt: nat, lease: int, fault: Fault) returns (err: DbError)
      requires key in rows
      modifies this
      ensures rows == After(old(rows), key, Owned(old(rows)[key], attempt), old(rows)[key].(lease := lease), fault)
      ensures err == Answer(Owned(old(rows)[key], attempt), fault)
    {
      var guard := Owned(rows[key], attempt);
      rows := After(rows, key, guard, rows[key].(lease := lease), fault);
      err := Answer(guard, fault);
    }

    method QuarantineRun(key: RunKey, attempt: nat, note: Note, fault: Fault) returns (err: DbError)
      requires key in rows
      modifies this
      ensures rows == After(old(rows), key, CanQuarantine(old(rows)[key], attempt), Quarantined(old(rows)[key], note),
          fault)
      ensures err == Answer(CanQuarantine(old(rows)[key], attempt), fault)
    {
      var guard := CanQuarantine(rows[key], attempt);
      rows := After(rows, key, guard, Quarantined(rows[key], note), fault);
      err := Answer(guard, fault);
    }

    method QuarantineRunResultWithProof(key: RunKey, attempt: nat, sent: nat, note: Note, proof: ProofUpdate,
          fault: Fault) returns (err: DbError)
      requires key in rows
      modifies this
      ensures rows == After(old(rows), key, CanQuarantine(old(rows)[key], attempt),
          QuarantinedResult(old(rows)[key], sent, note, proof), fault)
      ensures err == Answer(CanQuarantine(old(rows)[key], attempt), fault)
    {
      var guard := CanQuarantine(rows[key], attempt);
      rows := After(rows, key, guard, QuarantinedResult(rows[key], sent, note, proof), fault);
      err := Answer(guard, fault);
    }

    method PostponeRecoveryRun(key: RunKey, attempt: nat, retryAt: int, fault: Fault) returns (err: DbError)
      requires key in rows
      modifies this
      ensures rows == After(old(rows), key, CanPostpone(old(rows)[key], attempt), Postponed(old(rows)[key], retryAt),
          fault)
      ensures err == Answer(CanPostpone(old(rows)[key], attempt), fault)
    {
      var guard := CanPostpone(rows[key], attempt);
      rows := After(rows, key, guard, Postponed(rows[key], retryAt), fault);
      err := Answer(guard, fault);
    }

    method FinishRun(key: RunKey, attempt: nat, status: Status, sent: nat, note: Note, now: int, fault: Fault)
      returns (err: DbError)
      requires key in rows
      modifies this
      ensures rows == After(old(rows), key, Owned(old(rows)[key], attempt),
          Finished(old(rows)[key], status, sent, note, now), fault)
      ensures err == Answer(Owned(old(rows)[key], attempt), fault)
    {
      var guard := Owned(rows[key], attempt);
      rows := After(rows, key, guard, Finished(rows[key], status, sent, note, now), fault);
      err := Answer(guard, fault);
    }
  }

  // ---- facts about the statements ---------------------------------------------------------

  /** Raising the attempt shuts out every statement that carries an older one; the claimed row has lost its note
      and retry time and kept where it stood, what was sent and the proof. */
  lemma ClaimFencesOldAttempts(r: Run, now: int, lease: int, attempt: nat, cursor: nat)
    requires Claimable(r, now) && attempt <= r.attempt
    ensures var c := Claimed(r, lease);
            && !Owned(c, attempt) && !CanStart(c, attempt, cursor) && !CanAbort(c, attempt, cursor)
            && !CanAdvance(c, attempt, cursor) && !CanQuarantine(c, attempt)
            && c.attempt == r.attempt + 1 && c.note.marker.Plain? && !c.note.ruleUnavailable && c.nextRetry == 0
            && c.cursor == r.cursor && c.sent == r.sent && c.proof == r.proof && CanStart(c, r.attempt + 1, r.cursor)
  {
  }

  /** The row may be claimed at some later time. */
  ghost predicate ClaimableLater(r: Run) {
    exists later :: Claimable(r, later)
  }

  /** A row that was claimed, renewed or started with a lease is not claimed while the lease lasts, also after
      its action was aborted, and a row without an open action can be claimed once it is over. */
  lemma LeaseProtects(r: Run, lease: int, now: int)
    requires r.status.Running? && lease > 0
    ensures now <= lease ==>
              && !Claimable(Claimed(r, lease), now) && !Claimable(r.(lease := lease), now)
              && !Claimable(Started(r, lease), now) && !Claimable(Aborted(Started(r, lease)), now)
    ensures now > lease ==>
              (r.started || Claimable(r.(lease := lease), now)) && Claimable(Aborted(Started(r, lease)), now)
    ensures !Claimable(Started(r, lease), now)
  {
  }

  /** The statements of one action follow each other: an opened checkpoint is advanced or aborted by its owner
      alone, and then the next position or the same one can be opened. */
  lemma StatementsChain(r: Run, attempt: nat, cursor: nat, lease: int, delta: nat, u: ProofUpdate)
    requires CanStart(r, attempt, cursor)
    ensures var s := Started(r, lease);
            && CanAdvance(s, attempt, cursor) && CanAbort(s, attempt, cursor) && !CanStart(s, attempt, cursor)
            && CanStart(Aborted(s), attempt, cursor) && !CanAdvance(Aborted(s), attempt, cursor)
            && CanStart(Advanced(s, delta, u), attempt, cursor + 1) && !CanStart(Advanced(s, delta, u), attempt, cursor)
            && Advanced(s, delta, u).sent == r.sent + delta
  {
  }

  /** A row under review is left to the operator: nothing claims, starts or closes it, and after a decision to
      go on or to try again it can be claimed at any time, with the cursor behind the position or at it. */
  lemma ReviewWaitsForOperator(r: Run, sent: nat, note: Note, proof: ProofUpdate, attempt: nat, cursor: nat, now: int)
    ensures var q := QuarantinedResult(r, sent, note, proof);
            && !Claimable(q, now) && !Owned(q, attempt) && !CanStart(q, attempt, cursor)
            && !CanQuarantine(q, attempt) && !CanPostpone(q, attempt)
            && q.sent == sent && q.cursor == r.cursor && q.started == r.started
            && Claimable(Resolved(q, Continue), now) && Resolved(q, Continue).cursor == r.cursor + 1
            && Claimable(Resolved(q, Retry), now) && Resolved(q, Retry).cursor == r.cursor
            && Resolved(q, Continue).proof == q.proof == Resolved(q, Retry).proof
            && !Claimable(Resolved(q, Cancel), now) && Resolved(q, Cancel).proof == EMPTY_PROOF
  {
  }

  /** Postponing holds a row back until the given time, whichever of its two times that moves, and no longer. */
  lemma PostponeHoldsBack(r: Run, attempt: nat, retryAt: int, now: int)
    requires CanPostpone(r, attempt) && retryAt > 0
    ensures Claimable(Postponed(r, retryAt), now) ==> now >= retryAt
    ensures ClaimableLater(r) && now > retryAt ==> Claimable(Postponed(r, retryAt), now)
    ensures Postponed(r, retryAt).status == r.status && Postponed(r, retryAt).note == r.note
  {
  }

  /** A failed run that may be tried again waits a minute. */
  lemma RetryWaitsAMinute(r: Run, sent: nat, note: Note, now: int, later: int)
    requires !r.started && r.attempt < MAX_ATTEMPTS
    ensures Claimable(Finished(r, Failed, sent, note, now), later)
            <==> later >= now + 60 && (note.marker.SafeRetry? || (sent == 0 && note.marker.Plain?))
  {
  }

  /** When the operator may decide what: a run can always be canceled; it is tried again only without an open
      action, with a readable snapshot and, if its rule was not available, once the rule is enabled; and it
      goes on behind an open action that may be skipped, or without one when something was sent. */
  lemma PolicyByResolution(plan: seq<ActionType>, snapshotOk: bool, ruleEnabled: bool, r: Run)
    ensures Allowed(plan, snapshotOk, ruleEnabled, r, Cancel)
    ensures Allowed(plan, snapshotOk, ruleEnabled, r, Retry)
            <==> !r.started && snapshotOk && (r.note.ruleUnavailable ==> ruleEnabled)
    ensures Allowed(plan, snapshotOk, ruleEnabled, r, Continue)
            <==> && snapshotOk
                 && if r.started
                    then && r.cursor < |plan|
                         && (plan[r.cursor].SendCard? || plan[r.cursor].SendTemplate? ==>
                               forall k :: r.cursor < k < |plan| ==> !plan[k].ConfirmShipment?)
                    else r.sent > 0 && !r.note.ruleUnavailable
  {
  }

  /** FinishRun keeps the proof of a failed run exactly when its result may be tried again. */
  lemma FinishKeepsProofExactlyForRetry(r: Run, sent: nat, note: Note, now: int)
    requires r.proof != EMPTY_PROOF
    ensures Finished(r, Failed, sent, note, now).proof == r.proof <==> Retryable(sent, note)
  {
  }

  /** A failed run is claimed again exactly when its result may be tried again and fewer than three attempts
      were made, so a proof stays behind for good exactly after the last attempt. */
  lemma FinishLeavesProofBehindExactly(r: Run, sent: nat, note: Note, now: int)
    requires !r.started && r.proof != EMPTY_PROOF
    ensures ClaimableLater(Finished(r, Failed, sent, note, now)) <==> Retryable(sent, note) && r.attempt < 3
    ensures && Finished(r, Failed, sent, note, now).proof == r.proof
            && !ClaimableLater(Finished(r, Failed, sent, note, now))
            <==> Retryable(sent, note) && r.attempt >= 3
  {
    var f := Finished(r, Failed, sent, note, now);
    if Retryable(sent, note) && r.attempt < MAX_ATTEMPTS {
      assert Claimable(f, now + RETRY_DELAY);
    }
  }

  /** The third attempt of a run whose first card went out is closed with an error that is safe to
      retry: its proof stays in the table although nothing claims the run any more. */
  lemma LastAttemptKeepsProof(now: int) returns (r: Run)
    ensures r.attempt == MAX_ATTEMPTS && !r.started && r.status.Running?
    ensures Finished(r, Failed, 1, Note(SafeRetry, false), now).proof == Proof("card", [])
    ensures !ClaimableLater(Finished(r, Failed, 1, Note(SafeRetry, false), now))
  {
    r := Run(Running, MAX_ATTEMPTS, 1, false, 1, Proof("card", []), NO_NOTE, now, 0);
    FinishLeavesProofBehindExactly(r, 1, Note(SafeRetry, false), now);
  }
}
