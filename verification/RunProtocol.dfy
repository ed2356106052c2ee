/**
  One automation run under any number of workers, the recovery scheduler and an operator.
  Every step is one statement on the row or one external call; workers may stop anywhere.
 */
module RunProtocol {
  import opened DeliveryProof
  import opened RunTable

  // ---- external actions --------------------------------------------------------------------

  /** How an action executor ends: an Uncertain error may have acted, the others say it did not. */
  datatype ActionError = NoError | OtherError | NotSent | NotPerformed | DoNotRetry | Uncertain

  datatype ActionResult = ActionResult(sent: nat, proof: Proof, review: Proof, err: ActionError)

  /** An action that has sent one text. */
  const TEXT_SENT := ActionResult(1, EMPTY_PROOF, EMPTY_PROOF, NoError)

  /** The branch of executeRunActions that quarantines the run. */
  predicate Unsure(r: ActionResult) {
    !r.err.NoError? && (r.sent > 0 || r.err.Uncertain?)
  }

  /** The branch that releases the checkpoint. */
  predicate NotDone(r: ActionResult) {
    !r.err.NoError? && !Unsure(r)
  }

  predicate SafeToRetry(e: ActionError) {
    e.NotSent? || e.NotPerformed?
  }

  /** The marker in front of the stored error text: executeRule adds one to an error that is safe
      to retry, ManualFullDelivery stores the text as it is. */
  function MarkerOf(e: ActionError, manual: bool): Marker {
    if SafeToRetry(e) && !manual then SafeRetry else if e.DoNotRetry? then NoRetry else Plain
  }

  /** The proof after an action succeeded. */
  function NextProof(action: ActionType, current: Proof, produced: Proof): Proof {
    if action.ConfirmShipment? then EMPTY_PROOF
    else if produced != EMPTY_PROOF then Merge(current, produced)
    else current
  }

  /** The proof part of the advance statement. */
  function AdvanceProof(action: ActionType, current: Proof, produced: Proof): ProofUpdate {
    if action.ConfirmShipment? then Clear
    else if produced != EMPTY_PROOF then Store(Merge(current, produced))
    else Keep
  }

  /** The proof a quarantined action leaves for review. */
  function ReviewProof(current: Proof, r: ActionResult): ProofUpdate {
    var p := Merge(Merge(current, r.proof), r.review);
    if p != EMPTY_PROOF then Store(p) else Keep
  }

  lemma StoredIsNext(action: ActionType, current: Proof, produced: Proof)
    ensures Updated(current, AdvanceProof(action, current, produced)) == NextProof(action, current, produced)
  {
  }

  /** The proof left for review holds what the worker had, what the action had sent, and what it may have sent,
      in this order. */
  lemma ReviewKeepsEvidence(stored: Proof, current: Proof, r: ActionResult)
    ensures var left := Updated(stored, ReviewProof(current, r));
            var pics := current.pics + r.proof.pics + r.review.pics;
            var text := AppendTradeText(AppendTradeText(current.text, r.proof.text), r.review.text);
            left == if pics == [] && text == "" then stored else Proof(text, pics)
  {
  }

  /** Which failures are tried again, from the error of the action to the stored row: errors that are safe to
      retry always, but in a manual delivery; an error that forbids it never; any other one while nothing was
      sent. */
  lemma RetriedExactly(e: ActionError, manual: bool, sent: nat, ruleUnavailable: bool)
    ensures Retryable(sent, Note(MarkerOf(e, manual), ruleUnavailable))
            <==> if (e.NotSent? || e.NotPerformed?) && !manual then true
                 else sent == 0 && !e.DoNotRetry?
  {
  }

  // ---- state -----------------------------------------------------------------------------------

  /** Where a worker stands between two of its steps. */
  datatype Pc =
    | AtLoop                         // head of the action loop
    | Opened(slot: nat)            // its checkpoint is stored, the action not yet called
    | Returned(slot: nat, result: ActionResult) // the action returned
    | Stuck                          // abort or advance failed; QuarantineRun comes next
    | Failing(err: ActionError)      // executeRule has to close the run
    | Rejected                       // no card action matches the paid order
    | CloseFailed                    // FinishRun failed; QuarantineRunResult comes next
    | Gone

  datatype Worker = Worker(attempt: nat, cursor: nat, sent: nat, proof: Proof, pc: Pc)

  /** A try of one plan position: opened, then called, then released or advanced. */
  datatype Stage = Open | Called(result: ActionResult) | Released(result: ActionResult) | Done(result: ActionResult)

  datatype Try = Try(owner: nat, pos: nat, proof: Proof, stage: Stage)

  /** How the cursor got past a position: advanced by the given try, or skipped by the operator, with
      what the review had added to the stored count by then and the proof it left. */
  datatype Passed = Did(slot: nat, result: ActionResult) | Skipped(counted: nat, left: Proof)

  function SentOf(p: Passed): nat {
    match p
    case Did(_, r) => r.sent
    case Skipped(n, _) => n
  }

  /** The number of results of the positions in `passed`. */
  function SentSum(passed: seq<Passed>): nat {
    if passed == [] then 0 else SentSum(passed[..|passed| - 1]) + SentOf(passed[|passed| - 1])
  }

  datatype Sys = Sys(run: Run, workers: map<nat, Worker>, tries: seq<Try>, passed: seq<Passed>)

  function Initial(lease: int): Sys {
    Sys(Inserted(lease), map[], [], [])
  }

  datatype Step =
    | Claim(now: int, lease: int, fault: Fault)             // TryStartRun or ClaimRecoveryRun
    | Attach(w: nat)                                        // GetRun by a new worker
    | Defer(w: nat, lease: int, fault: Fault, stored: bool) // RenewRunLease, then DeferTask
    | DelayFails(w: nat)                                    // actionDelaySeconds errs
    | Reject(w: nat)                                        // hasMatchingSendCard is false
    | Start(w: nat, lease: int, fault: Fault)
    | Act(w: nat, answer: ActionResult)
    | Abort(w: nat, fault: Fault)
    | Advance(w: nat, fault: Fault)
    | ReviewAction(w: nat, note: Note, fault: Fault)        // QuarantineRunResultWithProof
    | QuarantineStuck(w: nat, note: Note, fault: Fault)     // QuarantineRun
    | FinishSuccess(w: nat, now: int, fault: Fault)
    | FinishFailed(w: nat, manual: bool, ruleUnavailable: bool, now: int, fault: Fault) // manual: by ManualFullDelivery
    | QuarantineSent(w: nat, note: Note, fault: Fault)      // QuarantineRunResult
    | Scheduler(attempt: nat, note: Note, fault: Fault)     // quarantineRunForReview
    | Postpone(attempt: nat, retryAt: int, fault: Fault)
    | Resolve(resolution: Resolution, snapshotOk: bool, ruleEnabled: bool)
    | Crash(w: nat)

  /** The worker a step belongs to, if it belongs to one. */
  predicate IsStepOf(step: Step, w: nat) {
    match step
    case Claim(_, _, _) => false
    case Scheduler(_, _, _) => false
    case Postpone(_, _, _) => false
    case Resolve(_, _, _) => false
    case _ => step.w == w
  }

  /** What the stored count holds beyond the results of the positions passed. */
  function Excess(s: Sys): nat {
    if s.run.sent >= SentSum(s.passed) then s.run.sent - SentSum(s.passed) else 0
  }

  function PcOf(s: Sys, w: nat): Pc {
    if w in s.workers then s.workers[w].pc else Gone
  }

  predicate Enabled(plan: seq<ActionType>, s: Sys, step: Step) {
    match step
    case Claim(_, _, _) => true
    case Attach(w) => w !in s.workers
    case Defer(w, _, _, _) => PcOf(s, w).AtLoop? && s.workers[w].cursor < |plan|
    case DelayFails(w) => PcOf(s, w).AtLoop? && s.workers[w].cursor < |plan|
    case Reject(w) => PcOf(s, w).AtLoop?
    case Start(w, _, _) => PcOf(s, w).AtLoop? && s.workers[w].cursor < |plan|
    case Act(w, _) => PcOf(s, w).Opened? && PcOf(s, w).slot < |s.tries|
    case Abort(w, _) => PcOf(s, w).Returned? && NotDone(PcOf(s, w).result) && PcOf(s, w).slot < |s.tries|
    case Advance(w, _) => PcOf(s, w).Returned? && PcOf(s, w).result.err.NoError? && PcOf(s, w).slot < |s.tries|
                          && s.workers[w].cursor < |plan|
    case ReviewAction(w, _, _) => PcOf(s, w).Returned? && Unsure(PcOf(s, w).result)
    case QuarantineStuck(w, _, _) => PcOf(s, w).Stuck?
    case FinishSuccess(w, _, _) => PcOf(s, w).AtLoop? && s.workers[w].cursor >= |plan|
    case FinishFailed(w, manual, _, _, _) =>
      PcOf(s, w).Rejected? || (PcOf(s, w).Failing? && (manual || s.workers[w].sent == 0 || SafeToRetry(PcOf(s, w).err)))
    case QuarantineSent(w, _, _) =>
      || PcOf(s, w).CloseFailed?
      || (PcOf(s, w).Failing? && s.workers[w].sent > 0 && !SafeToRetry(PcOf(s, w).err))
      || (PcOf(s, w).AtLoop? && s.workers[w].cursor >= |plan|)
    case Scheduler(_, _, _) => true
    case Postpone(_, _, _) => true
    case Resolve(resolution, snapshotOk, ruleEnabled) =>
      s.run.status.NeedsReview? && Allowed(plan, snapshotOk, ruleEnabled, s.run, resolution)
    case Crash(w) => w in s.workers
  }

  function At(s: Sys, w: nat, pc: Pc): Sys {
    if w in s.workers then s.(workers := s.workers[w := s.workers[w].(pc := pc)]) else s
  }

  /** The row after a conditional update. */
  function Row(r: Run, guard: bool, effect: Run, fault: Fault): Run {
    if guard && !fault.FailedBefore? then effect else r
  }

  function ApplyStart(s: Sys, w: nat, lease: int, fault: Fault): Sys
    requires w in s.workers
  {
    var me := s.workers[w];
    if !CanStart(s.run, me.attempt, me.cursor) || fault.FailedBefore? then At(s, w, Failing(OtherError))
    else
      var marked := s.(run := Started(s.run, lease), tries := s.tries + [Try(w, me.cursor, EMPTY_PROOF, Open)]);
      At(marked, w, if fault.NoFault? then Opened(|s.tries|) else Failing(OtherError))
  }

  function ApplyAct(s: Sys, w: nat, answer: ActionResult): Sys
    requires PcOf(s, w).Opened? && PcOf(s, w).slot < |s.tries|
  {
    var k := s.workers[w].pc.slot;
    At(s.(tries := s.tries[k := s.tries[k].(proof := s.workers[w].proof, stage := Called(answer))]), w,
        Returned(k, answer))
  }

  function ApplyAbort(s: Sys, w: nat, fault: Fault): Sys
    requires PcOf(s, w).Returned? && PcOf(s, w).slot < |s.tries|
  {
    var me := s.workers[w];
    var k := me.pc.slot;
    var next := if fault.NoFault? && CanAbort(s.run, me.attempt, me.cursor) then Failing(me.pc.result.err) else Stuck;
    if !CanAbort(s.run, me.attempt, me.cursor) || fault.FailedBefore? then At(s, w, next)
    else At(s.(run := Aborted(s.run), tries := s.tries[k := s.tries[k].(stage := Released(me.pc.result))]), w, next)
  }

  function ApplyAdvance(plan: seq<ActionType>, s: Sys, w: nat, fault: Fault): Sys
    requires PcOf(s, w).Returned? && PcOf(s, w).slot < |s.tries| && s.workers[w].cursor < |plan|
  {
    var me := s.workers[w];
    var k, r, action := me.pc.slot, me.pc.result, plan[me.cursor];
    if !CanAdvance(s.run, me.attempt, me.cursor) || fault.FailedBefore? then At(s, w, Stuck)
    else
      var moved := s.(run := Advanced(s.run, r.sent, AdvanceProof(action, me.proof, r.proof)),
                      tries := s.tries[k := s.tries[k].(stage := Done(r))],
                      passed := s.passed + [Did(k, r)]);
      if !fault.NoFault? then At(moved, w, Stuck)
      else moved.(workers := s.workers[w := Worker(me.attempt, me.cursor + 1, me.sent + r.sent,
                                                   NextProof(action, me.proof, r.proof), AtLoop)])
  }

  function Apply(plan: seq<ActionType>, s: Sys, step: Step): Sys
    requires Enabled(plan, s, step)
  {
    match step
    case Claim(now, lease, fault) => s.(run := Row(s.run, Claimable(s.run, now), Claimed(s.run, lease), fault))
    case Attach(w) => s.(workers := s.workers[w := Worker(s.run.attempt, s.run.cursor, s.run.sent, s.run.proof,
        AtLoop)])
    case Defer(w, lease, fault, stored) =>
      var owned := Owned(s.run, s.workers[w].attempt);
      At(s.(run := Row(s.run, owned, s.run.(lease := lease), fault)), w,
         if owned && fault.NoFault? && stored then Gone else Failing(OtherError))
    case DelayFails(w) => At(s, w, Failing(OtherError))
    case Reject(w) => At(s, w, Rejected)
    case Start(w, lease, fault) => ApplyStart(s, w, lease, fault)
    case Act(w, answer) => ApplyAct(s, w, answer)
    case Abort(w, fault) => ApplyAbort(s, w, fault)
    case Advance(w, fault) => ApplyAdvance(plan, s, w, fault)
    case ReviewAction(w, note, fault) =>
      var me := s.workers[w];
      At(s.(run := Row(s.run, CanQuarantine(s.run, me.attempt),
                       QuarantinedResult(s.run, me.sent + me.pc.result.sent, note,
                           ReviewProof(me.proof, me.pc.result)), fault)), w, Gone)
    case QuarantineStuck(w, note, fault) =>
      At(s.(run := Row(s.run, CanQuarantine(s.run, s.workers[w].attempt), Quarantined(s.run, note), fault)), w, Gone)
    case FinishSuccess(w, now, fault) =>
      var me := s.workers[w];
      At(s.(run := Row(s.run, Owned(s.run, me.attempt), Finished(s.run, Success, me.sent, NO_NOTE, now), fault)), w,
         if fault.NoFault? && Owned(s.run, me.attempt) then Gone else CloseFailed)
    case FinishFailed(w, manual, ruleUnavailable, now, fault) =>
      var me := s.workers[w];
      At(s.(run := Row(s.run, Owned(s.run, me.attempt),
                       Finished(s.run, Failed, me.sent,
                           Note(if me.pc.Failing? then MarkerOf(me.pc.err, manual) else Plain, ruleUnavailable), now),
                           fault)), w,
         if fault.NoFault? && Owned(s.run, me.attempt) then Gone else CloseFailed)
    case QuarantineSent(w, note, fault) =>
      var me := s.workers[w];
      At(s.(run := Row(s.run, CanQuarantine(s.run, me.attempt), QuarantinedResult(s.run, me.sent, note, Keep), fault)),
          w, Gone)
    case Scheduler(attempt, note, fault) => s.(run := Row(s.run, CanQuarantine(s.run, attempt),
        Quarantined(s.run, note), fault))
    case Postpone(attempt, retryAt, fault) => s.(run :=
        Row(s.run, CanPostpone(s.run, attempt), Postponed(s.run, retryAt), fault))
    case Resolve(resolution, _, _) =>
      s.(run := Resolved(s.run, resolution),
         passed := if resolution.Continue? then s.passed + [Skipped(Excess(s), s.run.proof)] else s.passed)
    case Crash(w) => At(s, w, Gone)
  }

  /** A sequence of enabled steps from s to t. */
  ghost predicate Leads(plan: seq<ActionType>, s: Sys, steps: seq<Step>, t: Sys)
    decreases |steps|
  {
    if steps == [] then s == t
    else Enabled(plan, s, steps[0]) && Leads(plan, Apply(plan, s, steps[0]), steps[1..], t)
  }

  predicate NoOperator(steps: seq<Step>) {
    forall k :: 0 <= k < |steps| ==> !steps[k].Resolve?
  }

  lemma {:induction false} LeadsOn(plan: seq<ActionType>, s: Sys, a: seq<Step>, m: Sys, b: seq<Step>, t: Sys)
    requires Leads(plan, s, a, m) && Leads(plan, m, b, t)
    ensures Leads(plan, s, a + b, t)
    decreases |a|
  {
    if a == [] {
      assert a + b == b;
    } else {
      assert (a + b)[1..] == a[1..] + b;
      LeadsOn(plan, Apply(plan, s, a[0]), a[1..], m, b, t);
    }
  }

  lemma Prepend(plan: seq<ActionType>, s: Sys, step: Step, steps: seq<Step>, t: Sys) returns (longer: seq<Step>)
    requires Enabled(plan, s, step) && Leads(plan, Apply(plan, s, step), steps, t)
    ensures Leads(plan, s, longer, t)
    ensures NoOperator(longer) <==> NoOperator(steps) && !step.Resolve?
  {
    longer := [step] + steps;
    assert longer[1..] == steps;
    assert forall k :: 0 <= k < |steps| ==> longer[k + 1] == steps[k];
  }

  // ---- at most one try per position may have acted ------------------------------------------------

  predicate MayHaveActed(t: Try) {
    (t.stage.Called? && !NotDone(t.stage.result)) || t.stage.Done?
  }

  predicate WorkerOk(s: Sys, w: nat)
    requires w in s.workers
  {
    var me := s.workers[w];
    && me.attempt <= s.run.attempt
    && me.cursor <= s.run.cursor
    && (me.pc.Opened? ==>
          me.pc.slot < |s.tries| && s.tries[me.pc.slot].owner == w && s.tries[me.pc.slot].pos == me.cursor
          && s.tries[me.pc.slot].stage == Open)
    && (me.pc.Returned? ==>
          me.pc.slot < |s.tries| && s.tries[me.pc.slot] == Try(w, me.cursor, me.proof, Called(me.pc.result)))
  }

  /** The position under the cursor has no unreleased try unless the row is marked started. */
  predicate CursorGuarded(s: Sys) {
    s.run.status.Canceled? || s.run.started
    || forall i :: 0 <= i < |s.tries| && s.tries[i].pos == s.run.cursor ==> s.tries[i].stage.Released?
  }

  /** Before a position is tried again, its earlier try reported that nothing was done and its
      abort was stored. */
  predicate OneTryStands(s: Sys) {
    forall i, j :: 0 <= i < j < |s.tries| && s.tries[i].pos == s.tries[j].pos ==> s.tries[i].stage.Released?
  }

  predicate PassedOk(s: Sys) {
    && |s.passed| == s.run.cursor
    && (forall i :: 0 <= i < |s.tries| ==> s.tries[i].pos <= s.run.cursor)
    && (forall i :: 0 <= i < |s.tries| && s.tries[i].stage.Done? ==> s.tries[i].pos < s.run.cursor)
    && (forall p :: 0 <= p < |s.passed| && s.passed[p].Did? ==>
          s.passed[p].slot < |s.tries| && s.tries[s.passed[p].slot].pos == p
          && s.tries[s.passed[p].slot].stage == Done(s.passed[p].result) && s.passed[p].result.err.NoError?)
  }

  predicate ReleasedOk(s: Sys) {
    forall i :: 0 <= i < |s.tries| && s.tries[i].stage.Released? ==> NotDone(s.tries[i].stage.result)
  }

  predicate Inv(s: Sys) {
    && PassedOk(s)
    && CursorGuarded(s)
    && OneTryStands(s)
    && ReleasedOk(s)
    && (forall w :: w in s.workers ==> WorkerOk(s, w))
  }

  lemma StartKeepsInv(s: Sys, w: nat, lease: int, fault: Fault)
    requires Inv(s) && w in s.workers
    ensures Inv(ApplyStart(s, w, lease, fault))
  {
  }

  lemma ActKeepsInv(s: Sys, w: nat, answer: ActionResult)
    requires Inv(s) && PcOf(s, w).Opened? && PcOf(s, w).slot < |s.tries|
    ensures Inv(ApplyAct(s, w, answer))
  {
    var t := ApplyAct(s, w, answer);
    forall v | v in t.workers
      ensures WorkerOk(t, v)
    {
      assert WorkerOk(s, v);
    }
  }

  lemma AbortKeepsInv(s: Sys, w: nat, fault: Fault)
    requires Inv(s) && PcOf(s, w).Returned? && PcOf(s, w).slot < |s.tries| && NotDone(PcOf(s, w).result)
    ensures Inv(ApplyAbort(s, w, fault))
  {
    var t := ApplyAbort(s, w, fault);
    assert WorkerOk(s, w);
    forall v | v in t.workers
      ensures WorkerOk(t, v)
    {
      assert WorkerOk(s, v);
    }
  }

  lemma AdvanceKeepsTries(plan: seq<ActionType>, s: Sys, w: nat, fault: Fault)
    requires Enabled(plan, s, Advance(w, fault)) && WorkerOk(s, w) && PassedOk(s) && OneTryStands(s) && ReleasedOk(s)
    ensures PassedOk(ApplyAdvance(plan, s, w, fault))
    ensures OneTryStands(ApplyAdvance(plan, s, w, fault)) && ReleasedOk(ApplyAdvance(plan, s, w, fault))
  {
  }

  lemma AdvanceKeepsInv(plan: seq<ActionType>, s: Sys, w: nat, fault: Fault)
    requires Inv(s) && Enabled(plan, s, Advance(w, fault))
    ensures Inv(ApplyAdvance(plan, s, w, fault))
  {
    var t := ApplyAdvance(plan, s, w, fault);
    assert WorkerOk(s, w);
    AdvanceKeepsTries(plan, s, w, fault);
    forall v | v in t.workers
      ensures WorkerOk(t, v)
    {
      assert WorkerOk(s, v);
    }
  }

  predicate Quiet(pc: Pc) {
    !pc.Opened? && !pc.Returned?
  }

  /** A row change that leaves cursor and started flag alone, or cancels the run. */
  predicate Tame(r: Run, q: Run) {
    && q.cursor == r.cursor && q.attempt >= r.attempt
    && (q.status.Canceled? || (q.started == r.started && !r.status.Canceled?))
  }

  lemma TameRowKeepsInv(s: Sys, q: Run)
    requires Inv(s) && (q == s.run || Tame(s.run, q))
    ensures Inv(s.(run := q))
  {
    forall v | v in s.workers
      ensures WorkerOk(s.(run := q), v)
    {
      assert WorkerOk(s, v);
    }
  }

  lemma QuietWorkerKeepsInv(s: Sys, w: nat, pc: Pc)
    requires Inv(s) && Quiet(pc)
    ensures Inv(At(s, w, pc))
  {
    forall v | v in s.workers
      ensures WorkerOk(At(s, w, pc), v)
    {
      assert WorkerOk(s, v);
    }
  }

  lemma AttachKeepsInv(s: Sys, w: nat)
    requires Inv(s)
    ensures Inv(s.(workers := s.workers[w := Worker(s.run.attempt, s.run.cursor, s.run.sent, s.run.proof, AtLoop)]))
  {
    var t := s.(workers := s.workers[w := Worker(s.run.attempt, s.run.cursor, s.run.sent, s.run.proof, AtLoop)]);
    forall v | v in t.workers
      ensures WorkerOk(t, v)
    {
      if v != w {
        assert WorkerOk(s, v);
      }
    }
  }

  lemma ContinueKeepsInv(s: Sys, counted: nat, left: Proof)
    requires Inv(s)
    ensures Inv(s.(run := Resolved(s.run, Continue), passed := s.passed + [Skipped(counted, left)]))
  {
    var t := s.(run := Resolved(s.run, Continue), passed := s.passed + [Skipped(counted, left)]);
    forall v | v in t.workers
      ensures WorkerOk(t, v)
    {
      assert WorkerOk(s, v);
    }
  }

  /** The steps that only change the row and send their worker to a quiet place. */
  predicate IsClosing(step: Step) {
    step.Defer? || step.ReviewAction? || step.QuarantineStuck? || step.QuarantineSent? || step.FinishSuccess?
        || step.FinishFailed?
  }

  lemma ClosingStepIsTame(plan: seq<ActionType>, s: Sys, step: Step)
    requires Enabled(plan, s, step) && IsClosing(step)
    ensures var t := Apply(plan, s, step);
            && step.w in t.workers && Quiet(t.workers[step.w].pc)
            && t == At(s.(run := t.run), step.w, t.workers[step.w].pc)
            && (t.run == s.run || Tame(s.run, t.run))
  {
  }

  lemma StepKeepsInv(plan: seq<ActionType>, s: Sys, step: Step)
    requires Inv(s) && Enabled(plan, s, step)
    ensures Inv(Apply(plan, s, step))
  {
    match step
    case Attach(w) => AttachKeepsInv(s, w);
    case Start(w, lease, fault) => StartKeepsInv(s, w, lease, fault);
    case Act(w, answer) => ActKeepsInv(s, w, answer);
    case Abort(w, fault) => AbortKeepsInv(s, w, fault);
    case Advance(w, fault) => AdvanceKeepsInv(plan, s, w, fault);
    case Claim(_, _, _) => TameRowKeepsInv(s, Apply(plan, s, step).run);
    case Scheduler(_, _, _) => TameRowKeepsInv(s, Apply(plan, s, step).run);
    case Postpone(_, _, _) => TameRowKeepsInv(s, Apply(plan, s, step).run);
    case Resolve(resolution, _, _) =>
      if resolution.Continue? {
        ContinueKeepsInv(s, Excess(s), s.run.proof);
      } else {
        TameRowKeepsInv(s, Apply(plan, s, step).run);
      }
    case DelayFails(w) => QuietWorkerKeepsInv(s, w, Failing(OtherError));
    case Crash(w) => QuietWorkerKeepsInv(s, w, Gone);
    case Reject(w) => QuietWorkerKeepsInv(s, w, Rejected);
    case _ =>
      var t := Apply(plan, s, step);
      ClosingStepIsTame(plan, s, step);
      TameRowKeepsInv(s, t.run);
      QuietWorkerKeepsInv(s.(run := t.run), step.w, t.workers[step.w].pc);
  }

  lemma {:induction false} ReachableInv(plan: seq<ActionType>, s: Sys, steps: seq<Step>, t: Sys)
    requires Inv(s) && Leads(plan, s, steps, t)
    ensures Inv(t)
    decreases |steps|
  {
    if steps != [] {
      StepKeepsInv(plan, s, steps[0]);
      ReachableInv(plan, Apply(plan, s, steps[0]), steps[1..], t);
    }
  }

  /** In every reachable state, of the tries of one plan position all but the last reported that
      nothing was done and had their abort stored. So if executors report truthfully, no external
      effect of a position happens twice. */
  lemma AtMostOnce(plan: seq<ActionType>, lease: int, steps: seq<Step>, t: Sys, i: nat, j: nat)
    requires Leads(plan, Initial(lease), steps, t)
    requires i < j < |t.tries| && t.tries[i].pos == t.tries[j].pos
    ensures t.tries[i].stage.Released? && NotDone(t.tries[i].stage.result)
    ensures !MayHaveActed(t.tries[i])
  {
    ReachableInv(plan, Initial(lease), steps, t);
  }

  /** Whatever `did` says which tries had an external effect: if a report that nothing was done is
      true, no position has its effect twice, across crashes, lost replies, stale workers, deferrals
      and the operator. */
  lemma NoEffectTwice(plan: seq<ActionType>, lease: int, steps: seq<Step>, t: Sys, did: set<nat>, i: nat, j: nat)
    requires Leads(plan, Initial(lease), steps, t)
    requires forall k :: 0 <= k < |t.tries| && t.tries[k].stage.Released? && NotDone(t.tries[k].stage.result) ==>
        k !in did
    requires i < |t.tries| && j < |t.tries| && t.tries[i].pos == t.tries[j].pos && i in did && j in did
    ensures i == j
  {
    if i < j {
      AtMostOnce(plan, lease, steps, t, i, j);
    } else if j < i {
      AtMostOnce(plan, lease, steps, t, j, i);
    }
  }

  // ---- the operator and unknown deliveries -----------------------------------------------------------

  predicate DeliversCards(action: ActionType) {
    action.SendCard? || action.SendTemplate?
  }

  /** A position that hands out cards before a confirmation of the shipment. */
  predicate CardBeforeConfirm(plan: seq<ActionType>, p: nat) {
    p < |plan| && DeliversCards(plan[p]) && exists k :: p < k < |plan| && plan[k].ConfirmShipment?
  }

  /** Every try of the position reported that nothing was done. */
  predicate SurelyNotDone(s: Sys, p: nat) {
    forall i :: 0 <= i < |s.tries| && s.tries[i].pos == p ==>
        s.tries[i].stage.Released? && NotDone(s.tries[i].stage.result)
  }

  predicate SkipsOk(plan: seq<ActionType>, s: Sys) {
    forall p :: 0 <= p < |s.passed| && s.passed[p].Skipped? && CardBeforeConfirm(plan, p) ==> SurelyNotDone(s, p)
  }

  lemma ResolveKeepsSkips(plan: seq<ActionType>, s: Sys, step: Step)
    requires Inv(s) && SkipsOk(plan, s) && Enabled(plan, s, step) && step.Resolve?
    ensures SkipsOk(plan, Apply(plan, s, step))
  {
    var t := Apply(plan, s, step);
    forall p | 0 <= p < |t.passed| && t.passed[p].Skipped? && CardBeforeConfirm(plan, p)
      ensures SurelyNotDone(t, p)
    {
      if p < |s.passed| {
        assert SurelyNotDone(s, p);
      } else {
        assert !s.run.started;
      }
    }
  }

  lemma TryStepKeepsSkips(plan: seq<ActionType>, s: Sys, step: Step)
    requires Inv(s) && SkipsOk(plan, s) && Enabled(plan, s, step)
    requires step.Start? || step.Act? || step.Abort? || step.Advance?
    ensures SkipsOk(plan, Apply(plan, s, step))
  {
    var t := Apply(plan, s, step);
    assert WorkerOk(s, step.w);
    forall p | 0 <= p < |t.passed| && t.passed[p].Skipped? && CardBeforeConfirm(plan, p)
      ensures SurelyNotDone(t, p)
    {
      assert p < |s.passed| && s.passed[p] == t.passed[p];
      assert SurelyNotDone(s, p);
    }
  }

  lemma RowStepLeavesTries(plan: seq<ActionType>, s: Sys, step: Step)
    requires Enabled(plan, s, step) && !step.Resolve? && !step.Start? && !step.Act? && !step.Abort? && !step.Advance?
    ensures Apply(plan, s, step).tries == s.tries && Apply(plan, s, step).passed == s.passed
  {
  }

  lemma PassedOnlyAdvances(plan: seq<ActionType>, s: Sys, step: Step)
    requires Enabled(plan, s, step) && !step.Resolve?
    ensures var t := Apply(plan, s, step);
            && |t.passed| >= |s.passed| && (forall p :: 0 <= p < |s.passed| ==> t.passed[p] == s.passed[p])
            && (forall p :: |s.passed| <= p < |t.passed| ==> t.passed[p].Did?)
  {
  }

  lemma {:induction false} ReachableSkips(plan: seq<ActionType>, s: Sys, steps: seq<Step>, t: Sys)
    requires Inv(s) && SkipsOk(plan, s) && Leads(plan, s, steps, t)
    ensures Inv(t) && SkipsOk(plan, t)
    decreases |steps|
  {
    hide Inv, SurelyNotDone, CardBeforeConfirm;
    if steps != [] {
      var n := Apply(plan, s, steps[0]);
      StepKeepsInv(plan, s, steps[0]);
      if steps[0].Resolve? {
        ResolveKeepsSkips(plan, s, steps[0]);
      } else if steps[0].Start? || steps[0].Act? || steps[0].Abort? || steps[0].Advance? {
        TryStepKeepsSkips(plan, s, steps[0]);
      } else {
        RowStepLeavesTries(plan, s, steps[0]);
        SameTriesSameSkips(plan, s, n);
      }
      ReachableSkips(plan, n, steps[1..], t);
    }
  }

  lemma SameTriesSameSkips(plan: seq<ActionType>, s: Sys, n: Sys)
    requires SkipsOk(plan, s) && n.tries == s.tries && n.passed == s.passed
    ensures SkipsOk(plan, n)
  {
    forall p | 0 <= p < |n.passed| && n.passed[p].Skipped? && CardBeforeConfirm(plan, p)
      ensures SurelyNotDone(n, p)
    {
      assert SurelyNotDone(s, p);
    }
  }

  /** Whatever the operator does: when the platform is asked to confirm the shipment, every action
      before it that hands out cards has been done, or the operator has skipped it after all its
      tries reported that nothing was done. A card whose delivery is unknown is never skipped. */
  lemma ConfirmFollowsNoUnknownCard(plan: seq<ActionType>, lease: int, steps: seq<Step>, t: Sys, i: nat, k: nat)
    requires Leads(plan, Initial(lease), steps, t)
    requires i < |t.tries| && t.tries[i].pos < |plan| && plan[t.tries[i].pos].ConfirmShipment?
    requires k < t.tries[i].pos && DeliversCards(plan[k])
    ensures k < |t.passed|
    ensures if t.passed[k].Did? then t.passed[k].result.err.NoError? else SurelyNotDone(t, k)
  {
    ReachableSkips(plan, Initial(lease), steps, t);
    if t.passed[k].Skipped? {
      assert CardBeforeConfirm(plan, k);
    }
  }

  // ---- success ---------------------------------------------------------------------------------

  predicate EndsOk(plan: seq<ActionType>, s: Sys) {
    && (s.run.started ==> s.run.cursor < |plan|)
    && (s.run.status.Success? ==> s.run.cursor >= |plan| && !s.run.started)
  }

  lemma StepKeepsEnds(plan: seq<ActionType>, s: Sys, step: Step)
    requires Inv(s) && EndsOk(plan, s) && Enabled(plan, s, step)
    ensures EndsOk(plan, Apply(plan, s, step))
  {
    match step
    case Start(w, _, _) =>
    case Act(w, _) =>
    case Abort(w, _) =>
    case Advance(w, _) =>
    case FinishSuccess(w, now, fault) => assert WorkerOk(s, w);
    case _ =>
  }

  lemma {:induction false} ReachableEnds(plan: seq<ActionType>, s: Sys, steps: seq<Step>, t: Sys)
    requires Inv(s) && EndsOk(plan, s) && Leads(plan, s, steps, t)
    ensures EndsOk(plan, t)
    decreases |steps|
  {
    if steps != [] {
      StepKeepsInv(plan, s, steps[0]);
      StepKeepsEnds(plan, s, steps[0]);
      ReachableEnds(plan, Apply(plan, s, steps[0]), steps[1..], t);
    }
  }

  /** A run is stored as successful only when its cursor is past the whole plan and no action is
      open, whatever other workers and the operator did. */
  lemma SuccessOnlyAtEnd(plan: seq<ActionType>, lease: int, steps: seq<Step>, t: Sys)
    requires Leads(plan, Initial(lease), steps, t) && t.run.status.Success?
    ensures t.run.cursor >= |plan| && !t.run.started
  {
    ReachableEnds(plan, Initial(lease), steps, t);
  }
}
