/**
  The action loop and the closing of a run, executed by one worker while other workers, the
  scheduler and the operator change the same row between any two of its statements.
 */
module RunCoordinator {
  import opened DeliveryProof
  import opened RunTable
  import opened RunProtocol
  import opened RunCalls
  import opened RunEnds
  import opened Wrappers

  /** What the delay of a position decides. */
  datatype Gate = Open | Deferred | Blocked

  /** How one round of the loop ends. */
  datatype Round = NotOpened | Aborted | Quarantined | Done

  /** How the loop reports to executeRule. */
  datatype LoopError = Nothing | Failure(err: ActionError) | UnderReview

  /** How the work on one position ends. */
  datatype PositionEnd = Moved | Waits | Stops(err: LoopError)

  /** How executeRule leaves the run. */
  datatype Outcome = Closed(status: Status) | Postponed | InReview | Skipped

  /** How executeRule ends, from what it met: a run that is no longer running is skipped, a paid order without
      a card is closed as failed before any action, and otherwise the plan ends with a deferral, an open
      outcome, a close as failed for a recorded reason, or a close as successful behind its last position.
      `uncounted` says that the review counter could not be stored. */
  predicate EndsAs(outcome: Outcome, plan: seq<ActionType>, run: Run, calls: seq<Call>, note: EndNote,
                   cardMissing: bool, uncounted: bool) {
    if !run.status.Running? then outcome.Skipped? && calls == [] && note == EndNote(Unspoiled, None)
    else if cardMissing then
      calls == [] && note == EndNote(NoCard, Some(Failed)) && (outcome == Closed(Failed) || outcome.InReview?)
    else match note.cause
      case NoCard => false
      case Unspoiled =>
        if run.cursor + |calls| < |plan| then outcome.Postponed? && note.close.None?
        else if uncounted then outcome.InReview? && note.close.None?
        else note.close == Some(Success) && (outcome == Closed(Success) || outcome.InReview?)
      case Doubtful(_) => LeftOpen(note.cause) && outcome.InReview? && note.close.None?
      case StuckThere => outcome.InReview? && note.close.None?
      case _ =>
        && run.cursor + |calls| < |plan| && Explained(note.cause, ErrorOf(note.cause))
        && if SentAfter(run.sent, calls) > 0 && !SafeToRetry(ErrorOf(note.cause))
           then outcome.InReview? && note.close.None?
           else note.close == Some(Failed) && (outcome == Closed(Failed) || outcome.InReview?)
  }

  /** How a manual delivery ends: it closes the run whatever happened, but for an open outcome. */
  predicate EndsManually(outcome: Outcome, plan: seq<ActionType>, run: Run, calls: seq<Call>, note: EndNote) {
    match note.cause
    case NoCard => false
    case Unspoiled =>
      && run.cursor + |calls| >= |plan| && note.close == Some(Success)
      && (outcome == Closed(Success) || outcome.InReview?)
    case Doubtful(_) => LeftOpen(note.cause) && outcome.InReview? && note.close.None?
    case StuckThere => outcome.InReview? && note.close.None?
    case _ =>
      && run.cursor + |calls| < |plan| && Explained(note.cause, ErrorOf(note.cause))
      && note.close == Some(Failed) && (outcome == Closed(Failed) || outcome.InReview?)
  }

  /** What the scheduler finds out about the rule of a run. */
  datatype RuleState = Usable | Withdrawn | Unknown

  /** What the scheduler does with one run that is due. */
  datatype Recovery = ToReview | Later | Executed(outcome: Outcome)

  /** recoveryNeedsSender: a template does not wait for the connection. */
  predicate RecoveryNeedsSender(plan: seq<ActionType>, cursor: nat) {
    cursor < |plan| && (plan[cursor].SendText? || plan[cursor].SendCard?)
  }

  /** What is to be done with a run that is due. */
  datatype Decision = Review | PutOff | LeaveAlone | TryClaim

  /** An open action and unreadable data go to review whatever else holds; a paused account and a connection
      that is not ready put the run off; a withdrawn rule ends it. */
  predicate Decides(d: Decision, plan: seq<ActionType>, due: Run, readable: bool, allowed: bool, rule: RuleState,
                    senderReady: bool) {
    match d
    case Review => due.started || !readable || (allowed && rule.Withdrawn?)
    case PutOff =>
      && !due.started && readable
      && (!allowed || (rule.Usable? && !senderReady && due.cursor < |plan|
                       && (plan[due.cursor].SendText? || plan[due.cursor].SendCard?)))
    case LeaveAlone => !due.started && readable && allowed && rule.Unknown?
    case TryClaim =>
      && !due.started && readable && allowed && rule.Usable?
      && (senderReady || due.cursor >= |plan|
          || plan[due.cursor].ConfirmShipment? || plan[due.cursor].AdjustPrice? || plan[due.cursor].SendTemplate?)
  }

  // ---- what the history of the run holds of a worker's calls ----------------------------------------------

  /** What a worker has read, and the calls whose advance it has seen stored since. */
  datatype Log = Log(run: Run, calls: seq<Call>)

  /** The logs after a step: a worker reads the row, or sees an advance stored. */
  function Logged(plan: seq<ActionType>, s: Sys, step: Step, logs: map<nat, Log>): map<nat, Log>
    requires Enabled(plan, s, step)
  {
    match step
    case Attach(w) => logs[w := Log(s.run, [])]
    case Advance(w, fault) =>
      var me := s.workers[w];
      if w in logs && fault.NoFault? && CanAdvance(s.run, me.attempt, me.cursor)
      then logs[w := Log(logs[w].run, logs[w].calls + [Call(me.cursor, plan[me.cursor], me.proof, me.pc.result)])]
      else logs
    case _ => logs
  }

  /** The position of the call was passed by a try of worker `me` that was given the call's proof and
      ended with its result. */
  predicate CallRecorded(s: Sys, me: nat, call: Call) {
    && call.pos < |s.passed| && s.passed[call.pos].Did? && s.passed[call.pos].result == call.result
    && var k := s.passed[call.pos].slot;
       k < |s.tries| && s.tries[k] == Try(me, call.pos, call.proof, Stage.Done(call.result))
  }

  predicate Recorded(s: Sys, me: nat, calls: seq<Call>) {
    forall i :: 0 <= i < |calls| ==> CallRecorded(s, me, calls[i])
  }

  /** Every log tells what the history of the run holds. */
  predicate LogsOk(s: Sys, logs: map<nat, Log>) {
    forall w :: w in logs ==> Recorded(s, w, logs[w].calls)
  }

  /** The history of a run only grows: positions passed stay passed, tries that were advanced stay. */
  predicate Extends(s: Sys, t: Sys) {
    && |s.passed| <= |t.passed| && (forall p :: 0 <= p < |s.passed| ==> t.passed[p] == s.passed[p])
    && |s.tries| <= |t.tries| && (forall k :: 0 <= k < |s.tries| && s.tries[k].stage.Done? ==> t.tries[k] == s.tries[k])
  }

  lemma RecordedStays(s: Sys, t: Sys, me: nat, calls: seq<Call>)
    requires Recorded(s, me, calls) && Extends(s, t)
    ensures Recorded(t, me, calls)
  {
    forall i | 0 <= i < |calls|
      ensures CallRecorded(t, me, calls[i])
    {
      assert CallRecorded(s, me, calls[i]);
    }
  }

  lemma StepExtends(plan: seq<ActionType>, s: Sys, step: Step)
    requires Inv(s) && Enabled(plan, s, step)
    ensures Extends(s, Apply(plan, s, step))
  {
    hide OneTryStands, CursorGuarded, PassedOk, ReleasedOk;
    if step.Start? || step.Act? || step.Abort? || step.Advance? {
      assert WorkerOk(s, step.w);
    } else if !step.Resolve? {
      RowStepLeavesTries(plan, s, step);
    }
  }

  lemma AdvanceIsRecorded(plan: seq<ActionType>, s: Sys, w: nat)
    requires Inv(s) && Enabled(plan, s, Advance(w, NoFault))
        && CanAdvance(s.run, s.workers[w].attempt, s.workers[w].cursor)
    ensures var me := s.workers[w];
            CallRecorded(ApplyAdvance(plan, s, w, NoFault), w, Call(me.cursor, plan[me.cursor], me.proof, me.pc.result))
  {
    assert WorkerOk(s, w);
  }

  /** Every step keeps the logs true: what any worker has seen stored is in the history for good. */
  lemma StepKeepsLogs(plan: seq<ActionType>, s: Sys, step: Step, logs: map<nat, Log>)
    requires Inv(s) && LogsOk(s, logs) && Enabled(plan, s, step)
    ensures LogsOk(Apply(plan, s, step), Logged(plan, s, step, logs))
  {
    hide Inv, CallRecorded;
    var t, next := Apply(plan, s, step), Logged(plan, s, step, logs);
    StepExtends(plan, s, step);
    forall w | w in next
      ensures Recorded(t, w, next[w].calls)
    {
      if w in logs {
        RecordedStays(s, t, w, logs[w].calls);
      }
      if step.Advance? && step.w == w && next != logs {
        AdvanceIsRecorded(plan, s, w);
      }
    }
  }

  ghost function AllLogged(plan: seq<ActionType>, s: Sys, steps: seq<Step>, t: Sys, logs: map<nat, Log>): map<nat, Log>
    requires Leads(plan, s, steps, t)
    decreases |steps|
  {
    if steps == [] then logs
    else AllLogged(plan, Apply(plan, s, steps[0]), steps[1..], t, Logged(plan, s, steps[0], logs))
  }

  /** The history leads from the new row to this state, and the logs are those of the history. */
  ghost predicate Explains(plan: seq<ActionType>, lease: int, history: seq<Step>, s: Sys, logs: map<nat, Log>) {
    Leads(plan, Initial(lease), history, s) && logs == AllLogged(plan, Initial(lease), history, s, map[])
  }

  lemma {:induction false} OneMoreStep(plan: seq<ActionType>, s: Sys, steps: seq<Step>, t: Sys, step: Step,
        logs: map<nat, Log>)
    requires Leads(plan, s, steps, t) && Enabled(plan, t, step)
    ensures Leads(plan, s, steps + [step], Apply(plan, t, step))
    ensures AllLogged(plan, s, steps + [step], Apply(plan, t, step), logs)
            == Logged(plan, t, step, AllLogged(plan, s, steps, t, logs))
    decreases |steps|
  {
    hide Apply, Enabled, Logged;
    if steps == [] {
      assert [step][1..] == [];
    } else {
      assert (steps + [step])[1..] == steps[1..] + [step];
      OneMoreStep(plan, Apply(plan, s, steps[0]), steps[1..], t, step, Logged(plan, s, steps[0], logs));
    }
  }

  // ---- steps under interference --------------------------------------------------------------------

  predicate ByOthers(steps: seq<Step>, me: nat) {
    forall k :: 0 <= k < |steps| ==> !IsStepOf(steps[k], me)
  }

  /** Steps of others do not move worker `me`. */
  lemma OtherStepLeavesMe(plan: seq<ActionType>, s: Sys, step: Step, me: nat)
    requires Enabled(plan, s, step) && !IsStepOf(step, me)
    ensures me in Apply(plan, s, step).workers <==> me in s.workers
    ensures me in s.workers ==> Apply(plan, s, step).workers[me] == s.workers[me]
  {
  }

  /** Whatever any number of other participants do, it stays within the contract of
      `World.Others`. */
  lemma {:induction false} OthersStayWithinContract(plan: seq<ActionType>, s: Sys, steps: seq<Step>, t: Sys, me: nat,
        logs: map<nat, Log>)
    requires Leads(plan, s, steps, t) && ByOthers(steps, me) && Inv(s) && EndsOk(plan, s) && LogsOk(s, logs)
    ensures Inv(t) && EndsOk(plan, t) && LogsOk(t, AllLogged(plan, s, steps, t, logs))
    ensures me in t.workers <==> me in s.workers
    ensures me in s.workers ==> t.workers[me] == s.workers[me]
    ensures me in logs ==>
              me in AllLogged(plan, s, steps, t, logs) && AllLogged(plan, s, steps, t, logs)[me] == logs[me]
    decreases |steps|
  {
    hide Inv, EndsOk, LogsOk;
    if steps != [] {
      OtherStepLeavesMe(plan, s, steps[0], me);
      StepKeepsInv(plan, s, steps[0]);
      StepKeepsEnds(plan, s, steps[0]);
      StepKeepsLogs(plan, s, steps[0], logs);
      OthersStayWithinContract(plan, Apply(plan, s, steps[0]), steps[1..], t, me, Logged(plan, s, steps[0], logs));
    }
  }

  /** The table together with the history of one of its runs. */
  class World {
    const plan: seq<ActionType>
    const key: RunKey
    const table: Table
    ghost const lease: int
    ghost var sys: Sys
    ghost var logs: map<nat, Log>
    ghost var ends: map<nat, EndNote>
    /** All steps since the row was created. */
    ghost var history: seq<Step>

    constructor (plan: seq<ActionType>, key: RunKey, table: Table, lease: int)
      requires key in table.rows && table.rows[key] == Inserted(lease)
      ensures Valid() && sys == Initial(lease)
      ensures this.plan == plan && this.key == key && this.table == table
    {
      this.plan := plan;
      this.key := key;
      this.table := table;
      this.lease := lease;
      this.sys := Initial(lease);
      this.logs := map[];
      this.ends := map[];
      this.history := [];
    }

    ghost predicate Valid()
      reads this, table
    {
      && key in table.rows && table.rows[key] == sys.run
      && Explains(plan, lease, history, sys, logs)
      && Inv(sys) && EndsOk(plan, sys) && LogsOk(sys, logs)
      && EndsKnown(plan, lease, history, sys, ends) && ends.Keys == sys.workers.Keys
    }

    ghost predicate EndIs(me: nat, cause: Cause, close: Option<Status>)
      reads this
    {
      me in ends && ends[me] == EndNote(cause, close)
    }

    ghost predicate SameEnd(before: map<nat, EndNote>, me: nat)
      reads this
    {
      me in before ==> me in ends && ends[me] == before[me]
    }

    ghost predicate Stands(me: nat, pc: Pc)
      reads this
    {
      me in sys.workers && sys.workers[me].pc == pc
    }

    /** More steps have followed `past`, and the log of worker `me` is that of `before`. */
    ghost predicate SameLog(past: seq<Step>, before: map<nat, Log>, me: nat)
      reads this
    {
      past <= history && (me in before ==> me in logs && logs[me] == before[me])
    }

    /** More steps have followed `past`, and the log of worker `me` has got one more call. */
    ghost predicate Grows(past: seq<Step>, before: map<nat, Log>, me: nat, call: Call)
      reads this
    {
      past <= history && (me in before ==> me in logs && logs[me] == Log(before[me].run, before[me].calls + [call]))
    }

    /** The last step was the stored deferral of worker `me`. */
    ghost predicate JustDeferred(me: nat)
      reads this
    {
      && history != [] && history[|history| - 1].Defer? && history[|history| - 1].w == me
      && history[|history| - 1].stored && history[|history| - 1].fault.NoFault?
    }

    /** The last step was the successful close by worker `me`. */
    ghost predicate JustSucceeded(me: nat)
      reads this
    {
      history != [] && history[|history| - 1].FinishSuccess? && history[|history| - 1].w == me
    }

    /** Worker `me` has read `run` and has seen the advances of `calls` stored. */
    ghost predicate HasLog(me: nat, run: Run, calls: seq<Call>)
      reads this
    {
      me in logs && logs[me] == Log(run, calls)
    }

    /** Anything the others may do between two statements of worker `me`: callers rely on this
        contract alone, and OthersStayWithinContract shows that every run of others meets it. */
    method Others(ghost me: nat)
      requires Valid()
      modifies this, table
      ensures Valid()
      ensures me in old(sys).workers ==> me in sys.workers && sys.workers[me] == old(sys).workers[me]
      ensures me !in old(sys).workers ==> me !in sys.workers
      ensures SameLog(old(history), old(logs), me) && ByOthers(history[|old(history)|..], me)
      ensures SameEnd(old(ends), me)
    {
    }

    /** Record a step whose row change the table has just made. */
    ghost method Record(step: Step)
      requires Explains(plan, lease, history, sys, logs)
      requires Inv(sys) && EndsOk(plan, sys) && LogsOk(sys, logs) && Enabled(plan, sys, step)
      requires EndsKnown(plan, lease, history, sys, ends) && ends.Keys == sys.workers.Keys
      requires key in table.rows && table.rows[key] == Apply(plan, sys, step).run
      modifies this
      ensures Valid() && sys == Apply(plan, old(sys), step) && logs == Logged(plan, old(sys), step, old(logs))
      ensures history == old(history) + [step] && ends == Noted(plan, old(sys), step, old(ends))
    {
      OneMoreStep(plan, Initial(lease), history, sys, step, map[]);
      StepKeepsInv(plan, sys, step);
      StepKeepsEnds(plan, sys, step);
      StepKeepsLogs(plan, sys, step, logs);
      OneMoreKnown(plan, lease, history, sys, ends, step);
      NotedWorkers(plan, sys, step, ends);
      ends := Noted(plan, sys, step, ends);
      logs, history := Logged(plan, sys, step, logs), history + [step];
      sys := Apply(plan, sys, step);
    }

    /** GetRun: the worker takes its own copy of the row. */
    method GetRun(ghost me: nat) returns (run: Run)
      requires Valid() && me !in sys.workers
      modifies this, table
      ensures Valid()
      ensures me in sys.workers && sys.workers[me] == Worker(run.attempt, run.cursor, run.sent, run.proof, AtLoop)
      ensures old(history) <= history && HasLog(me, run, []) && EndIs(me, Unspoiled, None)
    {
      Others(me);
      run := table.rows[key];
      Record(Attach(me));
    }

    /** RenewRunLease and then DeferTask. */
    method DeferAction(ghost me: nat, attempt: nat, lease: int) returns (deferred: bool)
      requires Valid() && Stands(me, AtLoop) && sys.workers[me].cursor < |plan| && sys.workers[me].attempt == attempt
      modifies this, table
      ensures Valid() && SameLog(old(history), old(logs), me)
      ensures me in sys.workers
      ensures sys.workers[me] == old(sys).workers[me].(pc := if deferred then Gone else Failing(OtherError))
      ensures deferred ==> JustDeferred(me) && EndIs(me, Unspoiled, None)
    {
      Others(me);
      var fault: Fault := *;
      var stored: bool := *;
      var err := table.RenewRunLease(key, attempt, lease, fault);
      deferred := err.Ok? && stored;
      KnownNote(plan, this.lease, history, sys, ends, me);
      Record(Defer(me, lease, fault, stored));
    }

    method StartAction(ghost me: nat, attempt: nat, cursor: nat) returns (started: bool)
      requires Valid() && Stands(me, AtLoop) && cursor < |plan|
      requires sys.workers[me].attempt == attempt && sys.workers[me].cursor == cursor
      modifies this, table
      ensures Valid() && SameLog(old(history), old(logs), me)
      ensures me in sys.workers && sys.workers[me] == old(sys).workers[me].(pc := sys.workers[me].pc)
      ensures if started then sys.workers[me].pc.Opened? else sys.workers[me].pc == Failing(OtherError)
    {
      Others(me);
      var fault: Fault := *;
      var lease: int := *;
      var err;
      started, err := table.StartRunAction(key, attempt, cursor, lease, fault);
      Record(Start(me, lease, fault));
    }

    /** The external call; the environment decides how it ends. */
    method CallAction(ghost me: nat) returns (answer: ActionResult)
      requires Valid() && me in sys.workers && sys.workers[me].pc.Opened?
      modifies this, table
      ensures Valid() && SameLog(old(history), old(logs), me)
      ensures me in sys.workers && sys.workers[me].pc.Returned? && sys.workers[me].pc.result == answer
      ensures sys.workers[me] == old(sys).workers[me].(pc := sys.workers[me].pc)
    {
      Others(me);
      answer := *;
      assert WorkerOk(sys, me);
      Record(Act(me, answer));
    }

    method AbortAction(ghost me: nat, attempt: nat, cursor: nat, answer: ActionResult) returns (ok: bool)
      requires Valid() && me in sys.workers && sys.workers[me].pc.Returned? && sys.workers[me].pc.result == answer
          && NotDone(answer)
      requires sys.workers[me].attempt == attempt && sys.workers[me].cursor == cursor
      modifies this, table
      ensures Valid() && SameLog(old(history), old(logs), me)
      ensures me in sys.workers
      ensures sys.workers[me] == old(sys).workers[me].(pc := if ok then Failing(answer.err) else Stuck)
    {
      Others(me);
      var fault: Fault := *;
      var err := table.AbortRunAction(key, attempt, cursor, fault);
      ok := err.Ok?;
      assert WorkerOk(sys, me);
      Record(Abort(me, fault));
    }

    method AdvanceAction(ghost me: nat, attempt: nat, cursor: nat, proof: Proof, answer: ActionResult)
      returns (ok: bool)
      requires Valid() && me in sys.workers && sys.workers[me].pc.Returned? && sys.workers[me].pc.result == answer
          && answer.err.NoError?
      requires sys.workers[me].attempt == attempt && sys.workers[me].cursor == cursor < |plan|
          && sys.workers[me].proof == proof
      modifies this, table
      ensures Valid()
      ensures me in sys.workers
      ensures sys.workers[me] == if ok
                then Worker(attempt, cursor + 1, old(sys).workers[me].sent + answer.sent,
                    NextProof(plan[cursor], proof, answer.proof), AtLoop)
                else old(sys).workers[me].(pc := Stuck)
      ensures if ok then Grows(old(history), old(logs), me, Call(cursor, plan[cursor], proof, answer))
          else SameLog(old(history), old(logs), me)
    {
      Others(me);
      var fault: Fault := *;
      var err := table.AdvanceRunAction(key, attempt, cursor, answer.sent,
          AdvanceProof(plan[cursor], proof, answer.proof), fault);
      ok := err.Ok?;
      assert WorkerOk(sys, me);
      Record(Advance(me, fault));
    }

    /** QuarantineRunResultWithProof after an unsure action. */
    method ReviewActionResult(ghost me: nat, attempt: nat, sent: nat, proof: Proof, answer: ActionResult)
      returns (ok: bool)
      requires Valid() && me in sys.workers && sys.workers[me].pc.Returned? && sys.workers[me].pc.result == answer
          && Unsure(answer)
      requires sys.workers[me].attempt == attempt && sys.workers[me].sent == sent && sys.workers[me].proof == proof
      modifies this, table
      ensures Valid() && SameLog(old(history), old(logs), me)
      ensures Stands(me, Gone) && EndIs(me, Doubtful(answer), None)
    {
      Others(me);
      var fault: Fault := *;
      var note: Note := *;
      var err := table.QuarantineRunResultWithProof(key, attempt, sent + answer.sent, note, ReviewProof(proof, answer),
          fault);
      ok := err.Ok?;
      KnownNote(plan, lease, history, sys, ends, me);
      Record(ReviewAction(me, note, fault));
    }

    /** QuarantineRun after a checkpoint could not be released or advanced. */
    method QuarantineCheckpoint(ghost me: nat, attempt: nat) returns (ok: bool)
      requires Valid() && Stands(me, Stuck) && sys.workers[me].attempt == attempt
      modifies this, table
      ensures Valid() && SameLog(old(history), old(logs), me)
      ensures Stands(me, Gone) && EndIs(me, StuckThere, None)
    {
      Others(me);
      var fault: Fault := *;
      var note: Note := *;
      var err := table.QuarantineRun(key, attempt, note, fault);
      ok := err.Ok?;
      KnownNote(plan, lease, history, sys, ends, me);
      Record(QuarantineStuck(me, note, fault));
    }

    /** One round of the loop after its delay: open the checkpoint, act, and store the outcome. */
    method PerformAction(ghost me: nat, attempt: nat, cursor: nat, sent: nat, proof: Proof)
      returns (round: Round, answer: ActionResult)
      requires Valid() && cursor < |plan|
      requires me in sys.workers && sys.workers[me] == Worker(attempt, cursor, sent, proof, AtLoop)
      modifies this, table
      ensures Valid() && me in sys.workers && old(history) <= history
      ensures round.Done? ==>
                && answer.err.NoError?
                && sys.workers[me] == Worker(attempt, cursor + 1, sent + answer.sent,
                    NextProof(plan[cursor], proof, answer.proof), AtLoop)
                && Grows(old(history), old(logs), me, Call(cursor, plan[cursor], proof, answer))
      ensures !round.Done? ==> SameLog(old(history), old(logs), me)
      ensures round.NotOpened? ==> sys.workers[me] == Worker(attempt, cursor, sent, proof, Failing(OtherError))
      ensures round.Aborted? ==>
                NotDone(answer) && sys.workers[me] == Worker(attempt, cursor, sent, proof, Failing(answer.err))
      ensures round.Quarantined? ==> sys.workers[me].pc.Gone? && HasLeftOpen(me)
    {
      hide Inv, EndsOk, Explains, EndsKnown, LogsOk;
      var started := StartAction(me, attempt, cursor);
      if !started {
        round, answer := NotOpened, ActionResult(0, EMPTY_PROOF, EMPTY_PROOF, OtherError);
        return;
      }
      answer := CallAction(me);
      if Unsure(answer) {
        var _ := ReviewActionResult(me, attempt, sent, proof, answer);
        round := Quarantined;
        return;
      }
      var ok: bool;
      if NotDone(answer) {
        ok := AbortAction(me, attempt, cursor, answer);
        round := Aborted;
      } else {
        ok := AdvanceAction(me, attempt, cursor, proof, answer);
        round := Round.Done;
      }
      if !ok {
        var _ := QuarantineCheckpoint(me, attempt);
        round := Quarantined;
      }
    }

    /** Worker `me` has stopped at an action whose outcome is open, and has not tried to close the run. */
    ghost predicate HasLeftOpen(me: nat)
      reads this
    {
      me in ends && LeftOpen(ends[me].cause) && ends[me].close.None?
    }

    /** Worker `me`, which read `run`, has made `calls` since, which are in the history of the run, and
        stands at `pc`. */
    ghost predicate Made(me: nat, run: Run, calls: seq<Call>, sent: nat, proof: Proof, pc: Pc)
      reads this
    {
      && me in sys.workers && sys.workers[me] == Worker(run.attempt, run.cursor + |calls|, sent, proof, pc)
      && Trace(plan, run, calls, sent, proof)
      && HasLog(me, run, calls)
    }

    /** The delay of the position under the cursor. */
    method PassDelay(ghost me: nat, attempt: nat, cursor: nat, sent: nat, proof: Proof, delay: nat, skipDelays: bool,
          waited: int)
      returns (gate: Gate)
      requires Valid() && cursor < |plan|
      requires me in sys.workers && sys.workers[me] == Worker(attempt, cursor, sent, proof, AtLoop)
      modifies this, table
      ensures Valid() && SameLog(old(history), old(logs), me)
      ensures me in sys.workers
      ensures sys.workers[me] == Worker(attempt, cursor, sent, proof,
                match gate case Open => AtLoop case Deferred => Gone case Blocked => Failing(OtherError))
      ensures gate.Open? ==> skipDelays || delay == 0 || waited == cursor
      ensures gate.Deferred? ==>
                !skipDelays && delay > 0 && waited != cursor && JustDeferred(me) && EndIs(me, Unspoiled, None)
    {
      gate := Gate.Open;
      if !skipDelays {
        var unreadable: bool := *;
        if unreadable {
          Record(DelayFails(me));
          gate := Blocked;
        } else if delay > 0 && waited != cursor {
          var now: int := *;
          var deferred := DeferAction(me, attempt, now + delay + LEASE_SECONDS);
          gate := if deferred then Deferred else Blocked;
        }
      }
    }

    /** The loop of worker `me` stands after `calls`. */
    ghost predicate Progress(me: nat, run: Run, delays: seq<nat>, skipDelays: bool, delayCursor: int, calls: seq<Call>,
          sent: nat, proof: Proof)
      reads this, table
    {
      Valid() && Made(me, run, calls, sent, proof, AtLoop) && DelaysRespected(delays, skipDelays, delayCursor, calls)
    }

    /** One position of the plan. */
    method PerformPosition(ghost me: nat, run: Run, delays: seq<nat>, skipDelays: bool, ghost delayCursor: int,
          waited: int,
                           cursor: nat, sent: nat, proof: Proof, ghost calls: seq<Call>)
      returns (end: PositionEnd, answer: ActionResult, ghost call: Call)
      requires |delays| == |plan| && cursor == run.cursor + |calls| < |plan|
      requires Progress(me, run, delays, skipDelays, delayCursor, calls, sent, proof)
      requires waited == if calls == [] then delayCursor else -1
      modifies this, table
      ensures Valid() && old(history) <= history
      ensures end.Moved? ==>
                Progress(me, run, delays, skipDelays, delayCursor, calls + [call], sent + answer.sent,
                    NextProof(plan[cursor], proof, answer.proof))
      ensures end.Waits? ==>
                && Made(me, run, calls, sent, proof, Gone) && JustDeferred(me) && EndIs(me, Unspoiled, None)
                && StopsForDelay(delays, skipDelays, run.cursor, delayCursor, calls)
      ensures end.Stops? && end.err.Failure? ==> Made(me, run, calls, sent, proof, Failing(end.err.err))
      ensures end.Stops? && end.err.UnderReview? ==> Stands(me, Gone) && HasLog(me, run, calls) && HasLeftOpen(me)
      ensures end.Stops? ==> !end.err.Nothing?
    {
      hide Trace, DelaysRespected, Inv, EndsOk, Explains, EndsKnown, LogsOk;
      answer := ActionResult(0, EMPTY_PROOF, EMPTY_PROOF, OtherError);
      call := Call(cursor, plan[cursor], proof, answer);
      var gate := PassDelay(me, run.attempt, cursor, sent, proof, delays[cursor], skipDelays, waited);
      if !gate.Open? {
        end := if gate.Deferred? then Waits else Stops(Failure(OtherError));
        return;
      }
      var round;
      round, answer := PerformAction(me, run.attempt, cursor, sent, proof);
      if !round.Done? {
        end := Stops(if round.NotOpened? then Failure(OtherError) else if round.Aborted? then Failure(answer.err)
            else UnderReview);
        return;
      }
      call := Call(cursor, plan[cursor], proof, answer);
      TraceGrows(plan, run, calls, sent, proof, answer);
      DelaysStayRespected(delays, skipDelays, delayCursor, calls, call);
      end := Moved;
    }

    /** executeRunActions; `calls` are the actions whose advance this worker has seen stored. */
    method ExecuteRunActions(ghost me: nat, run: Run, delays: seq<nat>, skipDelays: bool, delayCursor: int)
      returns (sent: nat, deferred: bool, err: LoopError, ghost calls: seq<Call>, ghost proof: Proof)
      requires Valid() && |delays| == |plan|
      requires me in sys.workers && sys.workers[me] == Worker(run.attempt, run.cursor, run.sent, run.proof, AtLoop)
      requires HasLog(me, run, [])
      modifies this, table
      // the calls are in the history of the run, each as the try that passed its position
      ensures Valid() && old(history) <= history && HasLog(me, run, calls) && Recorded(sys, me, calls)
      ensures DelaysRespected(delays, skipDelays, delayCursor, calls)
      // the whole rest of the plan was done
      ensures err.Nothing? && !deferred ==> Made(me, run, calls, sent, proof, AtLoop) && run.cursor + |calls| >= |plan|
      // stopped for a delay that has not been waited for
      ensures deferred ==>
                && Made(me, run, calls, sent, proof, Gone) && err.Nothing? && JustDeferred(me)
                && StopsForDelay(delays, skipDelays, run.cursor, delayCursor, calls) && EndIs(me, Unspoiled, None)
      // stopped by an error at a position that did not act
      ensures err.Failure? ==> !deferred && Made(me, run, calls, sent, proof, Failing(err.err))
      ensures err.UnderReview? ==> !deferred && Stands(me, Gone) && HasLeftOpen(me)
      ensures !err.Nothing? ==> run.cursor + |calls| < |plan|
    {
      hide Inv, EndsOk, Explains, EndsKnown, CallRecorded;
      sent, deferred, err, calls, proof := run.sent, false, Nothing, [], run.proof;
      var deliveryProof, cursor, waited := run.proof, run.cursor, delayCursor;
      while cursor < |plan|
        invariant Progress(me, run, delays, skipDelays, delayCursor, calls, sent, deliveryProof)
        invariant cursor == run.cursor + |calls| && proof == deliveryProof && old(history) <= history
        invariant waited == if calls == [] then delayCursor else -1
      {
        var end, answer;
        ghost var call;
        end, answer, call := PerformPosition(me, run, delays, skipDelays, delayCursor, waited, cursor, sent,
            deliveryProof, calls);
        if !end.Moved? {
          deferred := end.Waits?;
          err := if deferred then Nothing else end.err;
          sent := if err.UnderReview? then sent + answer.sent else sent;
          return;
        }
        sent := sent + answer.sent;
        deliveryProof := NextProof(plan[cursor], deliveryProof, answer.proof);
        proof, calls := deliveryProof, calls + [call];
        waited, cursor := -1, cursor + 1;
      }
    }

    /** The worker may close the run with this status. */
    ghost predicate MayClose(me: nat, attempt: nat, status: Status, sent: nat, err: ActionError, manual: bool)
      reads this
    {
      && me in sys.workers && sys.workers[me].attempt == attempt && sys.workers[me].sent == sent
      && if status.Success? then sys.workers[me].pc.AtLoop? && sys.workers[me].cursor >= |plan|
         else
           && status.Failed?
           && (|| (sys.workers[me].pc.Rejected? && err.OtherError?)
               || (sys.workers[me].pc == Failing(err) && (manual || sent == 0 || SafeToRetry(err))))
    }

    /** FinishRun. */
    method TryClose(ghost me: nat, attempt: nat, status: Status, sent: nat, err: ActionError, manual: bool)
      returns (closed: bool)
      requires Valid() && MayClose(me, attempt, status, sent, err, manual)
      modifies this, table
      ensures Valid() && SameLog(old(history), old(logs), me) && me in old(sys).workers && me in sys.workers
      ensures sys.workers[me] == old(sys).workers[me].(pc := if closed then Gone else CloseFailed)
      ensures me in old(ends) && EndIs(me, old(ends)[me].cause, Some(status))
      ensures closed ==>
                && table.rows[key].status == status && table.rows[key].sent == sent
                && table.rows[key].attempt == attempt
                && (status.Failed? ==> table.rows[key].note.marker == MarkerOf(err, manual))
                && (status.Success? ==> JustSucceeded(me))
    {
      hide Inv, EndsOk, Explains, EndsKnown, LogsOk;
      Others(me);
      var fault: Fault := *;
      var now: int := *;
      var ruleUnavailable: bool := *;
      var note := if status.Success? then NO_NOTE else Note(MarkerOf(err, manual), ruleUnavailable);
      var finished := table.FinishRun(key, attempt, status, sent, note, now, fault);
      Record(if status.Success? then FinishSuccess(me, now, fault)
          else FinishFailed(me, manual, ruleUnavailable, now, fault));
      closed := finished.Ok?;
    }

    /** The deferred part of executeRule: FinishRun, and QuarantineRunResult when that fails. */
    method CloseRun(ghost me: nat, attempt: nat, status: Status, sent: nat, err: ActionError, manual: bool)
      returns (closed: bool)
      requires Valid() && MayClose(me, attempt, status, sent, err, manual)
      modifies this, table
      ensures Valid() && SameLog(old(history), old(logs), me) && Stands(me, Gone)
      // the close is tried, with this status
      ensures me in old(ends) && EndIs(me, old(ends)[me].cause, Some(status))
      ensures closed ==>
                && table.rows[key].status == status && table.rows[key].sent == sent
                    && table.rows[key].attempt == attempt
                && (status.Failed? ==> table.rows[key].note.marker == MarkerOf(err, manual))
                && (status.Success? ==> JustSucceeded(me))
    {
      hide Inv, EndsOk, Explains, EndsKnown, LogsOk;
      closed := TryClose(me, attempt, status, sent, err, manual);
      if !closed {
        ReviewRun(me, attempt, sent);
      }
    }

    /** QuarantineRunResult: after a failed close, after a failure behind results, or after a
        successful plan whose review counter could not be stored. */
    method ReviewRun(ghost me: nat, attempt: nat, sent: nat)
      requires Valid() && me in sys.workers && sys.workers[me].attempt == attempt && sys.workers[me].sent == sent
      requires || sys.workers[me].pc.CloseFailed?
               || (sys.workers[me].pc.Failing? && sent > 0 && !SafeToRetry(sys.workers[me].pc.err))
               || (sys.workers[me].pc.AtLoop? && sys.workers[me].cursor >= |plan|)
      modifies this, table
      ensures Valid() && SameLog(old(history), old(logs), me) && Stands(me, Gone)
      ensures me in old(ends) && SameEnd(old(ends), me)
    {
      Others(me);
      var fault: Fault := *;
      var note: Note := *;
      var _ := table.QuarantineRunResultWithProof(key, attempt, sent, note, Keep, fault);
      Record(QuarantineSent(me, note, fault));
    }

    /** The end of executeRule for a run that was not deferred. */
    method SettleRun(ghost me: nat, run: Run, sent: nat, err: LoopError, uncounted: bool, ghost calls: seq<Call>,
          ghost proof: Proof)
      returns (outcome: Outcome)
      requires Valid() && HasLog(me, run, calls) && run.status.Running?
      requires match err
               case Nothing => Made(me, run, calls, sent, proof, AtLoop) && run.cursor + |calls| >= |plan|
               case Failure(e) => Made(me, run, calls, sent, proof, Failing(e)) && run.cursor + |calls| < |plan|
               case UnderReview => Stands(me, Gone) && HasLeftOpen(me)
      modifies this, table
      ensures me in ends && EndsAs(outcome, plan, run, calls, ends[me], false, uncounted)
      ensures Valid() && old(history) <= history && Stands(me, Gone) && HasLog(me, run, calls)
      ensures outcome == Closed(Success) ==>
                && err.Nothing? && table.rows[key].status.Success? && table.rows[key].sent == sent && JustSucceeded(me)
      ensures outcome == Closed(Failed) ==> err.Failure? && table.rows[key].status.Failed?
      ensures outcome == Closed(Success) || outcome == Closed(Failed) || outcome.InReview?
    {
      hide Inv, EndsOk, Explains, LogsOk, EndsKnown;
      if err.UnderReview? {
        return InReview;
      }
      KnownNote(plan, lease, history, sys, ends, me);
      if err.Failure? {
        if sent > 0 && !SafeToRetry(err.err) {
          ReviewRun(me, run.attempt, sent);
          outcome := InReview;
        } else {
          var closed := CloseRun(me, run.attempt, Failed, sent, err.err, false);
          outcome := if closed then Closed(Failed) else InReview;
        }
        return;
      }
      if uncounted {
        ReviewRun(me, run.attempt, sent);
        return InReview;
      }
      var closed := CloseRun(me, run.attempt, Success, sent, NoError, false);
      outcome := if closed then Closed(Success) else InReview;
    }

    /** The end of executeRule for a paid order without a matching card. */
    method CloseWithoutCard(ghost me: nat, run: Run) returns (outcome: Outcome)
      requires Valid() && run.status.Running? && HasLog(me, run, []) && EndIs(me, Unspoiled, None)
      requires me in sys.workers && sys.workers[me] == Worker(run.attempt, run.cursor, run.sent, run.proof, AtLoop)
      modifies this, table
      ensures Valid() && old(history) <= history && Stands(me, Gone) && HasLog(me, run, [])
      ensures EndIs(me, NoCard, Some(Failed)) && (outcome == Closed(Failed) || outcome.InReview?)
      ensures outcome == Closed(Failed) ==> table.rows[key].status.Failed?
    {
      hide Inv, EndsOk, Explains, EndsKnown, LogsOk;
      Record(Reject(me));
      var closed := CloseRun(me, run.attempt, Failed, run.sent, OtherError, false);
      outcome := if closed then Closed(Failed) else InReview;
    }

    /** The actions of the plan, and the end of executeRule behind them. */
    method FollowPlan(ghost me: nat, run: Run, delays: seq<nat>, delayCursor: int, uncounted: bool)
      returns (outcome: Outcome, ghost calls: seq<Call>)
      requires Valid() && |delays| == |plan| && run.status.Running? && HasLog(me, run, [])
      requires me in sys.workers && sys.workers[me] == Worker(run.attempt, run.cursor, run.sent, run.proof, AtLoop)
      modifies this, table
      ensures Valid() && old(history) <= history
      ensures Stands(me, Gone) && HasLog(me, run, calls) && Recorded(sys, me, calls)
      ensures outcome == Closed(Success) ==>
                && table.rows[key].status.Success? && run.cursor + |calls| >= |plan|
                && Follows(plan, run.cursor, run.proof, calls) && AllSucceeded(calls)
                && table.rows[key].sent == SentAfter(run.sent, calls) && JustSucceeded(me)
      ensures outcome == Closed(Failed) ==> table.rows[key].status.Failed?
      ensures me in ends && EndsAs(outcome, plan, run, calls, ends[me], false, uncounted)
      ensures outcome.Postponed? ==>
                && Follows(plan, run.cursor, run.proof, calls) && JustDeferred(me)
                && StopsForDelay(delays, false, run.cursor, delayCursor, calls)
      ensures DelaysRespected(delays, false, delayCursor, calls)
    {
      hide Inv, EndsOk, Explains, EndsKnown, CallRecorded, LeftOpen, Explained;
      var sent, deferred, err;
      ghost var proof;
      sent, deferred, err, calls, proof := ExecuteRunActions(me, run, delays, false, delayCursor);
      if deferred {
        outcome := Outcome.Postponed;
        return;
      }
      outcome := SettleRun(me, run, sent, err, uncounted, calls, proof);
    }

    /** executeRule from the reading of the run on. */
    method ExecuteRule(ghost me: nat, delays: seq<nat>, delayCursor: int, cardMissing: bool, uncounted: bool)
      returns (outcome: Outcome, ghost run: Run, ghost calls: seq<Call>)
      requires Valid() && me !in sys.workers && |delays| == |plan|
      modifies this, table
      // `run` is the row this worker has read, and `calls` are in the history as its own
      ensures Valid() && old(history) <= history
      ensures Stands(me, Gone) && HasLog(me, run, calls) && Recorded(sys, me, calls)
      ensures outcome == Closed(Success) ==>
                && table.rows[key].status.Success? && run.cursor + |calls| >= |plan|
                && Follows(plan, run.cursor, run.proof, calls) && AllSucceeded(calls)
                && table.rows[key].sent == SentAfter(run.sent, calls) && JustSucceeded(me)
      ensures outcome == Closed(Failed) ==> table.rows[key].status.Failed?
      // every end has its recorded reason
      ensures me in ends && EndsAs(outcome, plan, run, calls, ends[me], cardMissing, uncounted)
      ensures outcome.Postponed? ==>
                && Follows(plan, run.cursor, run.proof, calls) && JustDeferred(me)
                && StopsForDelay(delays, false, run.cursor, delayCursor, calls)
      ensures DelaysRespected(delays, false, delayCursor, calls)
    {
      hide Inv, EndsOk, Explains, EndsKnown, CallRecorded;
      var mine := GetRun(me);
      run, calls := mine, [];
      if !mine.status.Running? {
        Record(Crash(me));
        outcome := Outcome.Skipped;
        return;
      }
      if cardMissing {
        outcome := CloseWithoutCard(me, mine);
        return;
      }
      outcome, calls := FollowPlan(me, mine, delays, delayCursor, uncounted);
    }

    /** One rule of ManualFullDelivery: no delays, and a failure is closed as failed whatever was
        already sent. */
    method DeliverManually(ghost me: nat, delays: seq<nat>)
      returns (outcome: Outcome, ghost run: Run, ghost calls: seq<Call>)
      requires Valid() && me !in sys.workers && |delays| == |plan|
      modifies this, table
      ensures Valid() && old(history) <= history
      ensures Stands(me, Gone) && HasLog(me, run, calls) && Recorded(sys, me, calls)
      ensures !outcome.Postponed? && !outcome.Skipped?
      ensures outcome == Closed(Success) ==>
                && table.rows[key].status.Success? && run.cursor + |calls| >= |plan|
                && Follows(plan, run.cursor, run.proof, calls) && AllSucceeded(calls)
                && table.rows[key].sent == SentAfter(run.sent, calls)
      ensures me in ends && EndsManually(outcome, plan, run, calls, ends[me])
      // a failure behind results is kept for good: no statement claims the run again
      ensures outcome == Closed(Failed) && table.rows[key].sent > 0 ==>
                forall now :: !Claimable(table.rows[key], now)
    {
      hide Inv, EndsOk, Explains, EndsKnown, CallRecorded;
      var mine := GetRun(me);
      run := mine;
      var sent, deferred, err;
      ghost var proof;
      sent, deferred, err, calls, proof := ExecuteRunActions(me, mine, delays, true, -1);
      if !err.UnderReview? {
        KnownNote(plan, lease, history, sys, ends, me);
      }
      if err.UnderReview? {
        outcome := InReview;
        return;
      }
      var status := if err.Failure? then Failed else Success;
      var closed := CloseRun(me, mine.attempt, status, sent, if err.Failure? then err.err else NoError, true);
      outcome := if closed then Closed(status) else InReview;
    }

    /** The last step of the history. */
    ghost function LastStep(): Step
      requires history != []
      reads this
    {
      history[|history| - 1]
    }

    /** quarantineRunForReview. */
    method QuarantineForReview(ghost me: nat, attempt: nat)
      requires Valid()
      modifies this, table
      ensures Valid() && SameLog(old(history), old(logs), me)
      ensures me !in old(sys).workers ==> me !in sys.workers
      ensures old(history) < history && LastStep().Scheduler? && LastStep().attempt == attempt
    {
      Others(me);
      var fault: Fault := *;
      var note: Note := *;
      var _ := table.QuarantineRun(key, attempt, note, fault);
      Record(Scheduler(attempt, note, fault));
    }

    method Postpone(ghost me: nat, attempt: nat, retryAt: int)
      requires Valid()
      modifies this, table
      ensures Valid() && SameLog(old(history), old(logs), me)
      ensures me !in old(sys).workers ==> me !in sys.workers
      ensures old(history) < history && LastStep().Postpone?
      ensures LastStep().attempt == attempt && LastStep().retryAt == retryAt
    {
      Others(me);
      var fault: Fault := *;
      var _ := table.PostponeRecoveryRun(key, attempt, retryAt, fault);
      Record(Step.Postpone(attempt, retryAt, fault));
    }

    /** ClaimRecoveryRun; `seen` is the state before the statement. */
    method Claim(ghost me: nat, now: int, until: int) returns (claimed: bool, ghost seen: Sys)
      requires Valid()
      modifies this, table
      ensures Valid() && SameLog(old(history), old(logs), me)
      ensures me !in old(sys).workers ==> me !in sys.workers
      ensures old(history) < history && LastStep().Claim? && LastStep().now == now && LastStep().lease == until
      ensures Leads(plan, Initial(lease), history[..|history| - 1], seen)
      ensures claimed <==> LastStep().fault.NoFault? && Claimable(seen.run, now)
      ensures claimed ==> table.rows[key] == Claimed(seen.run, until)
    {
      Others(me);
      seen := sys;
      ghost var before := history;
      var fault: Fault := *;
      var err;
      claimed, err := table.ClaimRecoveryRun(key, now, until, fault);
      Record(Step.Claim(now, until, fault));
      assert history[..|history| - 1] == before;
    }

    /** One run of runRecoveryTasks, as it was read in `due`: a run whose action was open is never executed;
        what is not to be decided now is put off; and a run is executed exactly when the claim, tried at step
        `at` of the history, has found it due in state `seen`. */
    method RecoverRun(ghost me: nat, due: Run, now: int, delays: seq<nat>, readable: bool, allowed: bool,
          rule: RuleState, senderReady: bool, cardMissing: bool, uncounted: bool)
      returns (outcome: Recovery, ghost decision: Decision, ghost run: Run, ghost calls: seq<Call>, ghost at: nat,
          ghost seen: Sys)
      requires Valid() && me !in sys.workers && |delays| == |plan|
      modifies this, table
      ensures Valid() && old(history) <= history
      ensures Decides(decision, plan, due, readable, allowed, rule, senderReady)
      ensures match decision
              case Review =>
                && outcome.ToReview? && |old(history)| <= at < |history|
                && history[at].Scheduler? && history[at].attempt == due.attempt
              case PutOff =>
                && outcome.Later? && |old(history)| <= at < |history|
                && history[at].Postpone? && history[at].attempt == due.attempt
                && (!allowed ==> history[at].retryAt == now + 600)
              case LeaveAlone => outcome.Later? && history == old(history)
              case TryClaim =>
                && |old(history)| <= at < |history| && history[at].Claim? && history[at].now == now
                && history[at].lease == now + 300 && Leads(plan, Initial(lease), history[..at], seen)
                && (outcome.Executed? <==> history[at].fault.NoFault? && Claimable(seen.run, now))
                && (!outcome.Executed? ==> outcome.Later?)
      ensures outcome.Executed? ==>
                && Stands(me, Gone) && HasLog(me, run, calls) && Recorded(sys, me, calls)
                && me in ends && EndsAs(outcome.outcome, plan, run, calls, ends[me], cardMissing, uncounted)
      ensures outcome == Executed(Closed(Success)) ==>
                && table.rows[key].status.Success? && run.cursor + |calls| >= |plan|
                && Follows(plan, run.cursor, run.proof, calls) && AllSucceeded(calls)
                && table.rows[key].sent == SentAfter(run.sent, calls)
    {
      hide Inv, EndsOk, Explains, EndsKnown, CallRecorded, EndsAs;
      run, calls, at, seen, decision := due, [], 0, sys, Review;
      if due.started || !readable {
        QuarantineForReview(me, due.attempt);
        at, outcome := |history| - 1, ToReview;
        return;
      }
      if !allowed {
        Postpone(me, due.attempt, now + 600);
        decision, at, outcome := PutOff, |history| - 1, Later;
        return;
      }
      if rule.Unknown? {
        decision, outcome := LeaveAlone, Later;
        return;
      }
      if rule.Withdrawn? {
        QuarantineForReview(me, due.attempt);
        at, outcome := |history| - 1, ToReview;
        return;
      }
      if RecoveryNeedsSender(plan, due.cursor) && !senderReady {
        var scanInterval: nat := *;
        Postpone(me, due.attempt, now + scanInterval);
        decision, at, outcome := PutOff, |history| - 1, Later;
        return;
      }
      decision := TryClaim;
      var claimed;
      claimed, seen := Claim(me, now, now + LEASE_SECONDS);
      at := |history| - 1;
      if !claimed {
        outcome := Later;
        return;
      }
      ghost var past := history;
      Others(me);
      var ended;
      ended, run, calls := ExecuteRule(me, delays, -1, cardMissing, uncounted);
      outcome := Executed(ended);
      assert past <= history && history[at] == past[at] && history[..at] == past[..at];
    }
  }
}
