/** The delivery proof a run has stored and its actions are given. */
module RunDelivery {
  import opened DeliveryProof
  import opened RunTable
  import opened RunProtocol

  /** The proof after the first c positions, worked out from their results; a position that the operator
      skipped leaves what the review had stored. */
  function ProofAt(plan: seq<ActionType>, passed: seq<Passed>, c: nat): Proof
    requires c <= |passed|
  {
    if c == 0 then EMPTY_PROOF
    else match passed[c - 1]
      case Did(_, r) =>
        if c <= |plan| then NextProof(plan[c - 1], ProofAt(plan, passed, c - 1), r.proof)
        else ProofAt(plan, passed, c - 1)
      case Skipped(_, left) => left
  }

  lemma {:induction false} ProofAtPrefix(plan: seq<ActionType>, passed: seq<Passed>, p: Passed, c: nat)
    requires c <= |passed|
    ensures ProofAt(plan, passed + [p], c) == ProofAt(plan, passed, c)
  {
    if c > 0 {
      ProofAtPrefix(plan, passed, p, c - 1);
    }
  }

  // ---- stored proof ------------------------------------------------------------------------------

  /** The row may be worked on again without the operator. */
  predicate Live(r: Run) {
    r.status.Running? || (r.status.Failed? && Retryable(r.sent, r.note))
  }

  /** A live row holds the proof of the positions passed; a close for good has dropped it, and a review
      of a position that is surely not done keeps what it finds. */
  predicate ProofStored(plan: seq<ActionType>, s: Sys) {
    && |s.passed| == s.run.cursor
    && (Live(s.run) ==> s.run.proof == ProofAt(plan, s.passed, s.run.cursor))
    && (s.run.status.Failed? && !Live(s.run) ==> s.run.proof == EMPTY_PROOF)
    && (s.run.status.NeedsReview? && !s.run.started ==>
          s.run.proof == ProofAt(plan, s.passed, s.run.cursor) || s.run.proof == EMPTY_PROOF)
  }

  /** A worker of the row's attempt with the row's cursor has the proof of the positions passed, unless
      it has read a row that is no longer live. */
  predicate WorkerProof(plan: seq<ActionType>, s: Sys, w: nat)
    requires w in s.workers && s.run.cursor == |s.passed|
  {
    var me := s.workers[w];
    && me.attempt <= s.run.attempt && me.cursor <= s.run.cursor
    && (me.attempt == s.run.attempt && me.cursor == s.run.cursor && !s.run.status.Canceled? ==>
          || me.proof == ProofAt(plan, s.passed, me.cursor)
          || (!Live(s.run) && (me.proof == s.run.proof || (s.run.status.NeedsReview? && s.run.started))))
    && (me.pc.Opened? ==> me.proof == ProofAt(plan, s.passed, me.cursor))
  }

  predicate TryProof(plan: seq<ActionType>, s: Sys, i: nat)
    requires i < |s.tries| && s.run.cursor == |s.passed|
  {
    var t := s.tries[i];
    t.pos <= |s.passed| && (t.stage.Open? || t.proof == ProofAt(plan, s.passed, t.pos))
  }

  predicate Proofs(plan: seq<ActionType>, s: Sys) {
    && ProofStored(plan, s)
    && (forall w :: w in s.workers ==> WorkerProof(plan, s, w))
    && (forall i :: 0 <= i < |s.tries| ==> TryProof(plan, s, i))
  }

  predicate Healthy(plan: seq<ActionType>, s: Sys) {
    Inv(s) && Proofs(plan, s)
  }

  lemma StartKeepsProofs(plan: seq<ActionType>, s: Sys, w: nat, lease: int, fault: Fault)
    requires Proofs(plan, s) && Enabled(plan, s, Start(w, lease, fault))
    ensures Proofs(plan, ApplyStart(s, w, lease, fault))
  {
    var t := ApplyStart(s, w, lease, fault);
    assert WorkerProof(plan, s, w);
    forall v | v in t.workers
      ensures WorkerProof(plan, t, v)
    {
      assert WorkerProof(plan, s, v);
    }
    forall i | 0 <= i < |t.tries|
      ensures TryProof(plan, t, i)
    {
      assert i < |s.tries| ==> TryProof(plan, s, i);
    }
  }

  lemma ActKeepsProofs(plan: seq<ActionType>, s: Sys, w: nat, answer: ActionResult)
    requires Proofs(plan, s) && Enabled(plan, s, Act(w, answer)) && WorkerOk(s, w)
    ensures Proofs(plan, ApplyAct(s, w, answer))
  {
    var t := ApplyAct(s, w, answer);
    assert WorkerProof(plan, s, w);
    forall v | v in t.workers
      ensures WorkerProof(plan, t, v)
    {
      assert WorkerProof(plan, s, v);
    }
    forall i | 0 <= i < |t.tries|
      ensures TryProof(plan, t, i)
    {
      assert TryProof(plan, s, i);
    }
  }

  lemma AbortKeepsProofs(plan: seq<ActionType>, s: Sys, w: nat, fault: Fault)
    requires Proofs(plan, s) && Enabled(plan, s, Abort(w, fault)) && WorkerOk(s, w)
    ensures Proofs(plan, ApplyAbort(s, w, fault))
  {
    var t := ApplyAbort(s, w, fault);
    forall v | v in t.workers
      ensures WorkerProof(plan, t, v)
    {
      assert WorkerProof(plan, s, v);
    }
    forall i | 0 <= i < |t.tries|
      ensures TryProof(plan, t, i)
    {
      assert TryProof(plan, s, i);
    }
  }

  /** Worker w is about to advance and the statement takes effect. */
  predicate Advancing(plan: seq<ActionType>, s: Sys, w: nat, fault: Fault) {
    && Enabled(plan, s, Advance(w, fault)) && !fault.FailedBefore?
    && CanAdvance(s.run, s.workers[w].attempt, s.workers[w].cursor)
    && ProofStored(plan, s) && WorkerProof(plan, s, w)
  }

  lemma ProofAtLast(plan: seq<ActionType>, passed: seq<Passed>, k: nat, r: ActionResult)
    requires |passed| < |plan|
    ensures ProofAt(plan, passed + [Did(k, r)], |passed| + 1)
            == NextProof(plan[|passed|], ProofAt(plan, passed, |passed|), r.proof)
  {
    ProofAtPrefix(plan, passed, Did(k, r), |passed|);
  }

  lemma AdvanceStoresProof(plan: seq<ActionType>, s: Sys, w: nat, fault: Fault)
    requires Advancing(plan, s, w, fault)
    ensures ProofStored(plan, ApplyAdvance(plan, s, w, fault))
    ensures ApplyAdvance(plan, s, w, fault).run.proof
            == NextProof(plan[s.workers[w].cursor], s.workers[w].proof, s.workers[w].pc.result.proof)
  {
    var me := s.workers[w];
    StoredIsNext(plan[me.cursor], me.proof, me.pc.result.proof);
    ProofAtLast(plan, s.passed, me.pc.slot, me.pc.result);
  }

  lemma AdvanceKeepsWorkerProof(plan: seq<ActionType>, s: Sys, w: nat, fault: Fault, v: nat)
    requires Advancing(plan, s, w, fault) && v in s.workers && WorkerProof(plan, s, v)
    ensures WorkerProof(plan, ApplyAdvance(plan, s, w, fault), v)
  {
    ProofAtPrefix(plan, s.passed, Did(s.workers[w].pc.slot, s.workers[w].pc.result), s.workers[v].cursor);
    AdvanceStoresProof(plan, s, w, fault);
  }

  lemma AdvanceKeepsTryProof(plan: seq<ActionType>, s: Sys, w: nat, fault: Fault, i: nat)
    requires Advancing(plan, s, w, fault) && i < |s.tries| && TryProof(plan, s, i)
    requires s.tries[s.workers[w].pc.slot].stage == Called(s.workers[w].pc.result)
    ensures TryProof(plan, ApplyAdvance(plan, s, w, fault), i)
  {
    ProofAtPrefix(plan, s.passed, Did(s.workers[w].pc.slot, s.workers[w].pc.result), s.tries[i].pos);
  }

  lemma AdvanceKeepsProofs(plan: seq<ActionType>, s: Sys, w: nat, fault: Fault)
    requires Proofs(plan, s) && Enabled(plan, s, Advance(w, fault)) && WorkerOk(s, w)
    ensures Proofs(plan, ApplyAdvance(plan, s, w, fault))
  {
    if CanAdvance(s.run, s.workers[w].attempt, s.workers[w].cursor) && !fault.FailedBefore? {
      var t := ApplyAdvance(plan, s, w, fault);
      assert WorkerProof(plan, s, w);
      AdvanceStoresProof(plan, s, w, fault);
      forall v | v in t.workers
        ensures WorkerProof(plan, t, v)
      {
        AdvanceKeepsWorkerProof(plan, s, w, fault, v);
      }
      forall i | 0 <= i < |t.tries|
        ensures TryProof(plan, t, i)
      {
        AdvanceKeepsTryProof(plan, s, w, fault, i);
      }
    } else {
      QuietWorkerKeepsProofs(plan, s, w, Stuck);
    }
  }

  /** What a change of the row alone may do: keep it, close it, hand it to the review, or claim it. */
  predicate Closes(r: Run, q: Run) {
    && q.cursor == r.cursor && q.started == r.started
    && if q.attempt != r.attempt then
         q.attempt == r.attempt + 1 && q.status.Running? && q.proof == r.proof && Live(r)
       else
         || (q.status == r.status && q.proof == r.proof && q.sent == r.sent && q.note == r.note)
         || (r.status.Running? && q.status.Failed?
             && q.proof == if Retryable(q.sent, q.note) then r.proof else EMPTY_PROOF)
         || (r.status.Running? && q.status.Success?)
         || ((r.status.Running? || r.status.Failed?) && q.status.NeedsReview? && (q.proof == r.proof || r.started))
  }

  lemma RowKeepsProofs(plan: seq<ActionType>, s: Sys, q: Run)
    requires Proofs(plan, s) && Closes(s.run, q)
    ensures Proofs(plan, s.(run := q))
  {
    var t := s.(run := q);
    forall v | v in t.workers
      ensures WorkerProof(plan, t, v)
    {
      assert WorkerProof(plan, s, v);
    }
    forall i | 0 <= i < |t.tries|
      ensures TryProof(plan, t, i)
    {
      assert TryProof(plan, s, i);
    }
  }

  lemma QuietWorkerKeepsProofs(plan: seq<ActionType>, s: Sys, w: nat, pc: Pc)
    requires Proofs(plan, s) && Quiet(pc)
    ensures Proofs(plan, At(s, w, pc))
  {
    var t := At(s, w, pc);
    forall v | v in t.workers
      ensures WorkerProof(plan, t, v)
    {
      assert WorkerProof(plan, s, v);
    }
    forall i | 0 <= i < |t.tries|
      ensures TryProof(plan, t, i)
    {
      assert TryProof(plan, s, i);
    }
  }

  lemma AttachKeepsProofs(plan: seq<ActionType>, s: Sys, w: nat)
    requires Proofs(plan, s) && w !in s.workers
    ensures Proofs(plan, Apply(plan, s, Attach(w)))
  {
    var t := Apply(plan, s, Attach(w));
    forall v | v in t.workers
      ensures WorkerProof(plan, t, v)
    {
      if v != w {
        assert WorkerProof(plan, s, v);
      }
    }
    forall i | 0 <= i < |t.tries|
      ensures TryProof(plan, t, i)
    {
      assert TryProof(plan, s, i);
    }
  }

  // The conditions that can be checked before a statement.

  /** The stored cursor is still that of the worker that hands an unsure action to the review. */
  predicate UnsureFresh(s: Sys, step: Step) {
    step.ReviewAction? && step.w in s.workers && CanQuarantine(s.run, s.workers[step.w].attempt)
    ==> s.workers[step.w].cursor == s.run.cursor
  }

  /** The row that is tried again has kept its proof. */
  predicate RetryFresh(plan: seq<ActionType>, s: Sys, step: Step)
    requires s.run.cursor == |s.passed|
  {
    step.Resolve? && step.resolution.Retry? ==> s.run.proof == ProofAt(plan, s.passed, s.run.cursor)
  }

  predicate ProofFresh(plan: seq<ActionType>, s: Sys, step: Step)
    requires s.run.cursor == |s.passed|
  {
    UnsureFresh(s, step) && RetryFresh(plan, s, step)
  }

  lemma ClosingStepCloses(plan: seq<ActionType>, s: Sys, step: Step)
    requires Enabled(plan, s, step) && IsClosing(step) && Inv(s) && UnsureFresh(s, step)
    ensures Closes(s.run, Apply(plan, s, step).run)
  {
    if step.ReviewAction? {
      assert WorkerOk(s, step.w);
    }
  }

  lemma ResolveKeepsProofs(plan: seq<ActionType>, s: Sys, step: Step)
    requires Proofs(plan, s) && Enabled(plan, s, step) && step.Resolve? && RetryFresh(plan, s, step)
    ensures Proofs(plan, Apply(plan, s, step))
  {
    var t := Apply(plan, s, step);
    forall v | v in t.workers
      ensures WorkerProof(plan, t, v)
    {
      assert WorkerProof(plan, s, v);
      ProofAtPrefix(plan, s.passed, Skipped(Excess(s), s.run.proof), s.workers[v].cursor);
    }
    forall i | 0 <= i < |t.tries|
      ensures TryProof(plan, t, i)
    {
      assert TryProof(plan, s, i);
      ProofAtPrefix(plan, s.passed, Skipped(Excess(s), s.run.proof), s.tries[i].pos);
    }
  }

  lemma StepKeepsProofs(plan: seq<ActionType>, s: Sys, step: Step)
    requires Healthy(plan, s) && Enabled(plan, s, step) && ProofFresh(plan, s, step)
    ensures Proofs(plan, Apply(plan, s, step))
  {
    hide Proofs, RetryFresh, UnsureFresh, Closes, WorkerOk, OneTryStands, CursorGuarded, PassedOk, ReleasedOk;
    assert step.Act? || step.Abort? || step.Advance? ==> WorkerOk(s, step.w);
    match step
    case Attach(w) => AttachKeepsProofs(plan, s, w);
    case Start(w, lease, fault) => StartKeepsProofs(plan, s, w, lease, fault);
    case Act(w, answer) => ActKeepsProofs(plan, s, w, answer);
    case Abort(w, fault) => AbortKeepsProofs(plan, s, w, fault);
    case Advance(w, fault) => AdvanceKeepsProofs(plan, s, w, fault);
    case Claim(_, _, _) => RowStepKeepsProofs(plan, s, step);
    case Scheduler(_, _, _) => RowStepKeepsProofs(plan, s, step);
    case Postpone(_, _, _) => RowStepKeepsProofs(plan, s, step);
    case DelayFails(w) => QuietWorkerKeepsProofs(plan, s, w, Failing(OtherError));
    case Crash(w) => QuietWorkerKeepsProofs(plan, s, w, Gone);
    case Reject(w) => QuietWorkerKeepsProofs(plan, s, w, Rejected);
    case Resolve(_, _, _) => ResolveKeepsProofs(plan, s, step);
    case _ =>
      var t := Apply(plan, s, step);
      ClosingStepIsTame(plan, s, step);
      ClosingStepCloses(plan, s, step);
      RowKeepsProofs(plan, s, t.run);
      QuietWorkerKeepsProofs(plan, s.(run := t.run), step.w, t.workers[step.w].pc);
  }

  lemma RowStepKeepsProofs(plan: seq<ActionType>, s: Sys, step: Step)
    requires Proofs(plan, s) && Enabled(plan, s, step) && (step.Claim? || step.Scheduler? || step.Postpone?)
    ensures Proofs(plan, Apply(plan, s, step))
  {
    hide Proofs;
    RowKeepsProofs(plan, s, Apply(plan, s, step).run);
  }

  lemma StepKeepsHealthy(plan: seq<ActionType>, s: Sys, step: Step)
    requires Healthy(plan, s) && Enabled(plan, s, step) && ProofFresh(plan, s, step)
    ensures Healthy(plan, Apply(plan, s, step))
  {
    StepKeepsInv(plan, s, step);
    StepKeepsProofs(plan, s, step);
  }

  ghost predicate AllProofFresh(plan: seq<ActionType>, s: Sys, steps: seq<Step>, t: Sys)
    requires Leads(plan, s, steps, t)
    decreases |steps|
  {
    steps != [] ==>
      && s.run.cursor == |s.passed| && ProofFresh(plan, s, steps[0])
      && AllProofFresh(plan, Apply(plan, s, steps[0]), steps[1..], t)
  }

  /** Without the operator the conditions hold by themselves: a position with an unsure try is never
      passed. */
  lemma {:induction false} NoOperatorIsFresh(plan: seq<ActionType>, s: Sys, steps: seq<Step>, t: Sys)
    requires Inv(s) && (forall p :: 0 <= p < |s.passed| ==> s.passed[p].Did?)
    requires Leads(plan, s, steps, t) && NoOperator(steps)
    ensures AllProofFresh(plan, s, steps, t)
    ensures forall p :: 0 <= p < |t.passed| ==> t.passed[p].Did?
    decreases |steps|
  {
    hide ProofAt, Inv;
    if steps != [] {
      PassedIsCursor(s);
      UnsureIsFresh(plan, s, steps[0]);
      PassedOnlyAdvances(plan, s, steps[0]);
      StepKeepsInv(plan, s, steps[0]);
      NoOperatorIsFresh(plan, Apply(plan, s, steps[0]), steps[1..], t);
    }
  }

  lemma PassedIsCursor(s: Sys)
    requires Inv(s)
    ensures |s.passed| == s.run.cursor
  {
  }

  lemma UnsureIsFresh(plan: seq<ActionType>, s: Sys, step: Step)
    requires Inv(s) && (forall p :: 0 <= p < |s.passed| ==> s.passed[p].Did?) && Enabled(plan, s, step)
    ensures UnsureFresh(s, step)
  {
    if step.ReviewAction? {
      assert WorkerOk(s, step.w);
      PassedTryIsOver(s, s.workers[step.w].pc.slot);
    }
  }

  lemma PassedTryIsOver(s: Sys, k: nat)
    requires PassedOk(s) && OneTryStands(s) && k < |s.tries|
    ensures s.tries[k].pos < |s.passed| && s.passed[s.tries[k].pos].Did? ==>
              s.tries[k].stage.Released? || s.tries[k].stage.Done?
  {
    var p := s.tries[k].pos;
    if p < |s.passed| && s.passed[p].Did? {
      assert s.tries[s.passed[p].slot].pos == p;
    }
  }

  // ---- a retry after a close for good ----------------------------------------------------------------

  /** The step closes the run for good and drops the proof it had stored. */
  predicate Drops(plan: seq<ActionType>, s: Sys, step: Step)
    requires Enabled(plan, s, step)
  {
    && step.FinishFailed? && Owned(s.run, s.workers[step.w].attempt) && !step.fault.FailedBefore?
    && s.run.proof != EMPTY_PROOF && !Live(Apply(plan, s, step).run)
  }

  /** Whether a proof has been dropped since the operator's last decision, one step later. */
  predicate DroppedNow(plan: seq<ActionType>, s: Sys, dropped: bool, step: Step)
    requires Enabled(plan, s, step)
  {
    !step.Resolve? && (dropped || Drops(plan, s, step))
  }

  ghost predicate DroppedBy(plan: seq<ActionType>, s: Sys, dropped: bool, steps: seq<Step>, t: Sys)
    requires Leads(plan, s, steps, t)
    decreases |steps|
  {
    if steps == [] then dropped
    else DroppedBy(plan, Apply(plan, s, steps[0]), DroppedNow(plan, s, dropped, steps[0]), steps[1..], t)
  }

  /** A row that the operator may have tried again holds the proof of its positions unless it was dropped. */
  predicate DropOk(plan: seq<ActionType>, s: Sys, dropped: bool)
    requires s.run.cursor == |s.passed|
  {
    && (Live(s.run) ==> !dropped)
    && (!Live(s.run) && (s.run.status.Failed? || (s.run.status.NeedsReview? && !s.run.started)) ==>
          && s.run.proof == (if dropped then EMPTY_PROOF else ProofAt(plan, s.passed, s.run.cursor))
          && (dropped ==> ProofAt(plan, s.passed, s.run.cursor) != EMPTY_PROOF))
  }

  lemma RowStepKeepsDrop(plan: seq<ActionType>, s: Sys, dropped: bool, step: Step)
    requires ProofStored(plan, s) && DropOk(plan, s, dropped) && Enabled(plan, s, step) && !step.Resolve?
    requires Closes(s.run, Apply(plan, s, step).run) && Apply(plan, s, step).passed == s.passed
    ensures DropOk(plan, Apply(plan, s, step), DroppedNow(plan, s, dropped, step))
  {
    hide ProofAt;
  }

  /** The steps of a worker with its checkpoint leave a row that is not live as it is. */
  lemma TryStepKeepsDrop(plan: seq<ActionType>, s: Sys, dropped: bool, step: Step)
    requires Inv(s) && DropOk(plan, s, dropped) && Enabled(plan, s, step)
    requires step.Start? || step.Act? || step.Abort? || step.Advance?
    ensures |Apply(plan, s, step).passed| == Apply(plan, s, step).run.cursor
    ensures DropOk(plan, Apply(plan, s, step), DroppedNow(plan, s, dropped, step))
  {
    hide ProofAt, OneTryStands, CursorGuarded, ReleasedOk;
    StepKeepsInv(plan, s, step);
  }

  lemma StepKeepsDrop(plan: seq<ActionType>, s: Sys, dropped: bool, step: Step)
    requires Inv(s) && ProofStored(plan, s) && DropOk(plan, s, dropped)
    requires Enabled(plan, s, step) && UnsureFresh(s, step)
    ensures |Apply(plan, s, step).passed| == Apply(plan, s, step).run.cursor
    ensures DropOk(plan, Apply(plan, s, step), DroppedNow(plan, s, dropped, step))
  {
    hide ProofAt, Inv, UnsureFresh;
    StepKeepsInv(plan, s, step);
    PassedIsCursor(Apply(plan, s, step));
    if step.Start? || step.Act? || step.Abort? || step.Advance? {
      TryStepKeepsDrop(plan, s, dropped, step);
    } else if !step.Resolve? {
      RowStepLeavesTries(plan, s, step);
      if IsClosing(step) {
        ClosingStepCloses(plan, s, step);
      }
      RowStepKeepsDrop(plan, s, dropped, step);
    }
  }

  /** The operator has no row tried again whose proof was dropped, and unsure actions are handed to the
      review with the row's cursor. */
  ghost predicate AllProofKept(plan: seq<ActionType>, s: Sys, dropped: bool, steps: seq<Step>, t: Sys)
    requires Leads(plan, s, steps, t)
    decreases |steps|
  {
    steps != [] ==>
      && UnsureFresh(s, steps[0]) && !(dropped && steps[0].Resolve? && steps[0].resolution.Retry?)
      && AllProofKept(plan, Apply(plan, s, steps[0]), DroppedNow(plan, s, dropped, steps[0]), steps[1..], t)
  }

  lemma RetryIsFreshExactly(plan: seq<ActionType>, s: Sys, dropped: bool, step: Step)
    requires Inv(s) && DropOk(plan, s, dropped) && Enabled(plan, s, step)
    ensures RetryFresh(plan, s, step) <==> !(dropped && step.Resolve? && step.resolution.Retry?)
  {
  }

  /** Over every run: the rows tried again have their proofs exactly when none of them was closed for good
      with a proof since the operator's decision before. */
  lemma {:induction false} KeptIsFresh(plan: seq<ActionType>, s: Sys, dropped: bool, steps: seq<Step>, t: Sys)
    requires Healthy(plan, s) && DropOk(plan, s, dropped) && Leads(plan, s, steps, t)
    ensures AllProofKept(plan, s, dropped, steps, t) <==> AllProofFresh(plan, s, steps, t)
    ensures AllProofFresh(plan, s, steps, t) ==>
              Healthy(plan, t) && DropOk(plan, t, DroppedBy(plan, s, dropped, steps, t))
    decreases |steps|
  {
    hide Inv, Proofs, DropOk, UnsureFresh, RetryFresh, DroppedNow;
    if steps != [] {
      PassedIsCursor(s);
      RetryIsFreshExactly(plan, s, dropped, steps[0]);
      if ProofFresh(plan, s, steps[0]) {
        StepKeepsHealthy(plan, s, steps[0]);
        assert ProofStored(plan, s) by { ProofsAreStored(plan, s); }
        StepKeepsDrop(plan, s, dropped, steps[0]);
        KeptIsFresh(plan, Apply(plan, s, steps[0]), DroppedNow(plan, s, dropped, steps[0]), steps[1..], t);
      }
    }
  }

  lemma ProofsAreStored(plan: seq<ActionType>, s: Sys)
    requires Proofs(plan, s)
    ensures ProofStored(plan, s)
  {
  }

  /** A run that the operator has tried again goes on without its proof exactly when a close for good dropped
      one since the decision before. */
  lemma RetryLosesProofExactly(plan: seq<ActionType>, lease: int, steps: seq<Step>, t: Sys, step: Step)
    requires Leads(plan, Initial(lease), steps, t) && AllProofKept(plan, Initial(lease), false, steps, t)
    requires Enabled(plan, t, step) && step.Resolve? && step.resolution.Retry?
    ensures !ProofStored(plan, Apply(plan, t, step)) <==> DroppedBy(plan, Initial(lease), false, steps, t)
  {
    KeptIsFresh(plan, Initial(lease), false, steps, t);
  }

  // ---- confirming the shipment ---------------------------------------------------------------------

  /** The shape of a plan for a paid order: all cards, then all confirmations. */
  predicate PaidPlan(plan: seq<ActionType>, cards: nat) {
    && cards <= |plan|
    && (forall k :: 0 <= k < cards ==> plan[k].SendCard?)
    && (forall k :: cards <= k < |plan| ==> plan[k].ConfirmShipment?)
  }

  /** The proofs of the first c positions merged in order. */
  function MergedProofs(passed: seq<Passed>, c: nat): Proof
    requires c <= |passed|
  {
    if c == 0 then EMPTY_PROOF
    else match passed[c - 1]
      case Did(_, r) => Merge(MergedProofs(passed, c - 1), r.proof)
      case Skipped(_, _) => MergedProofs(passed, c - 1)
  }

  function Pics(passed: seq<Passed>, c: nat): seq<string>
    requires c <= |passed|
  {
    if c == 0 then [] else Pics(passed, c - 1) + if passed[c - 1].Did? then passed[c - 1].result.proof.pics else []
  }

  function Texts(passed: seq<Passed>, c: nat): seq<string>
    requires c <= |passed|
  {
    if c == 0 then [] else Texts(passed, c - 1) + if passed[c - 1].Did? then [passed[c - 1].result.proof.text] else []
  }

  lemma MergeAppends(texts: seq<string>, pics: seq<string>, p: Proof)
    ensures Merge(Proof(Accumulate("", texts), pics), p) == Proof(Accumulate("", texts + [p.text]), pics + p.pics)
  {
    hide AppendLine, Accumulate;
    AccumulateLast(texts, p.text);
  }

  /** Merging keeps every picture and every text, in the order of the positions. */
  lemma {:induction false} MergedKeepsAll(passed: seq<Passed>, c: nat)
    requires c <= |passed|
    ensures MergedProofs(passed, c) == Proof(Accumulate("", Texts(passed, c)), Pics(passed, c))
  {
    hide Merge, AppendTradeText;
    if c > 0 {
      MergedKeepsAll(passed, c - 1);
      if passed[c - 1].Did? {
        MergeAppends(Texts(passed, c - 1), Pics(passed, c - 1), passed[c - 1].result.proof);
      } else {
        assert Texts(passed, c) == Texts(passed, c - 1) && Pics(passed, c) == Pics(passed, c - 1);
      }
    }
  }

  lemma CardProof(current: Proof, produced: Proof)
    ensures NextProof(SendCard, current, produced) == Merge(current, produced)
  {
    if produced == EMPTY_PROOF {
      MergeNothing(current, produced);
    }
  }

  lemma {:induction false} CardsOnlyMerge(plan: seq<ActionType>, passed: seq<Passed>, c: nat)
    requires c <= |passed| && c <= |plan| && forall k :: 0 <= k < c ==> plan[k].SendCard? && passed[k].Did?
    ensures ProofAt(plan, passed, c) == MergedProofs(passed, c)
  {
    hide Merge, NextProof;
    if c > 0 {
      CardsOnlyMerge(plan, passed, c - 1);
      CardProof(ProofAt(plan, passed, c - 1), passed[c - 1].result.proof);
    }
  }

  /** For a paid order, across crashes, lost replies, stale workers, resumes and the operator: when the
      platform is asked to confirm the shipment, every card action of the plan has been done, or the
      operator has skipped it after all its tries reported that nothing was done. The confirmation is
      given the proof of the positions passed: when none was skipped, the first one gets the proofs of
      exactly the cards in sending order, and a later one nothing. */
  lemma ConfirmAfterAllCards(plan: seq<ActionType>, cards: nat, lease: int, steps: seq<Step>, t: Sys, i: nat)
    requires PaidPlan(plan, cards)
    requires Leads(plan, Initial(lease), steps, t) && AllProofKept(plan, Initial(lease), false, steps, t)
    requires i < |t.tries| && !t.tries[i].stage.Open?
    requires t.tries[i].pos < |plan| && plan[t.tries[i].pos].ConfirmShipment?
    ensures cards <= t.tries[i].pos <= |t.passed|
    ensures forall k :: 0 <= k < cards ==>
              if t.passed[k].Did? then t.passed[k].result.err.NoError? else SurelyNotDone(t, k)
    ensures t.tries[i].proof == ProofAt(plan, t.passed, t.tries[i].pos)
    ensures (forall k :: 0 <= k < t.tries[i].pos ==> t.passed[k].Did?) ==>
              t.tries[i].proof == if t.tries[i].pos == cards then MergedProofs(t.passed, cards) else EMPTY_PROOF
  {
    KeptIsFresh(plan, Initial(lease), false, steps, t);
    assert TryProof(plan, t, i);
    if forall k :: 0 <= k < t.tries[i].pos ==> t.passed[k].Did? {
      CardsOnlyMerge(plan, t.passed, cards);
    }
    forall k | 0 <= k < cards
      ensures if t.passed[k].Did? then t.passed[k].result.err.NoError? else SurelyNotDone(t, k)
    {
      ConfirmFollowsNoUnknownCard(plan, lease, steps, t, i, k);
    }
  }

  /** Without the operator nothing is asked of the run, and every card has been done. */
  lemma ConfirmWithoutOperator(plan: seq<ActionType>, cards: nat, lease: int, steps: seq<Step>, t: Sys, i: nat)
    requires PaidPlan(plan, cards)
    requires Leads(plan, Initial(lease), steps, t) && NoOperator(steps)
    requires i < |t.tries| && !t.tries[i].stage.Open?
    requires t.tries[i].pos < |plan| && plan[t.tries[i].pos].ConfirmShipment?
    ensures cards <= t.tries[i].pos <= |t.passed|
    ensures forall k :: 0 <= k < cards ==> t.passed[k].Did? && t.passed[k].result.err.NoError?
    ensures t.tries[i].proof == if t.tries[i].pos == cards then MergedProofs(t.passed, cards) else EMPTY_PROOF
  {
    NoOperatorIsFresh(plan, Initial(lease), steps, t);
    KeptIsFresh(plan, Initial(lease), false, steps, t);
    ConfirmAfterAllCards(plan, cards, lease, steps, t, i);
  }

  // ---- a run that loses its proof ------------------------------------------------------------------------

  const CARD_PROOF := Proof("", ["card.png"])
  const CARD_SENT := ActionResult(1, CARD_PROOF, EMPTY_PROOF, NoError)
  const CARD_KEPT := Merge(EMPTY_PROOF, CARD_PROOF)

  /** Worker 0 has sent the card. */
  function CardAdvanced(): Sys {
    Sys(Run(Running, 1, 1, false, 1, CARD_KEPT, NO_NOTE, LEASE_SECONDS, 0),
        map[0 := Worker(1, 1, 1, CARD_KEPT, AtLoop)],
        [Try(0, 0, EMPTY_PROOF, Stage.Done(CARD_SENT))], [Did(0, CARD_SENT)])
  }

  lemma CardAdvancedIsReached(plan: seq<ActionType>) returns (steps: seq<Step>)
    requires plan == [SendCard, ConfirmShipment]
    ensures Leads(plan, Initial(LEASE_SECONDS), steps, CardAdvanced())
  {
    hide Merge;
    var s0 := Initial(LEASE_SECONDS);
    var s1 := Apply(plan, s0, Attach(0));
    var s2 := Apply(plan, s1, Start(0, LEASE_SECONDS, NoFault));
    var s3 := Apply(plan, s2, Act(0, CARD_SENT));
    var s4 := Apply(plan, s3, Advance(0, NoFault));
    assert s4.run.proof == CARD_KEPT;
    assert s4.tries == CardAdvanced().tries && s4.workers == CardAdvanced().workers;
    assert s4 == CardAdvanced();
    steps := Prepend(plan, s3, Advance(0, NoFault), [], s4);
    steps := Prepend(plan, s2, Act(0, CARD_SENT), steps, s4);
    steps := Prepend(plan, s1, Start(0, LEASE_SECONDS, NoFault), steps, s4);
    steps := Prepend(plan, s0, Attach(0), steps, s4);
  }

  /** A manual delivery cannot open the confirmation and closes the run as failed, which drops the proof;
      the statement takes effect but its reply is lost, so the run goes to review; the operator has it
      tried again, and the shipment will be confirmed without the proof of the card that was sent. */
  lemma LostCloseLosesProof(plan: seq<ActionType>) returns (steps: seq<Step>, t: Sys)
    requires plan == [SendCard, ConfirmShipment]
    ensures Leads(plan, Initial(LEASE_SECONDS), steps, t)
    ensures t.run.status.Running? && t.run.cursor == 1 && t.run.proof == EMPTY_PROOF && t.passed == [Did(0, CARD_SENT)]
    ensures ProofAt(plan, t.passed, 1).pics == ["card.png"]
  {
    var s0 := CardAdvanced();
    var first := CardAdvancedIsReached(plan);
    var rest;
    rest, t := ClosedReviewedRetried(plan);
    LeadsOn(plan, Initial(LEASE_SECONDS), first, s0, rest, t);
    steps := first + rest;
    assert ProofAt(plan, t.passed, 0) == EMPTY_PROOF;
  }

  lemma ClosedReviewedRetried(plan: seq<ActionType>) returns (steps: seq<Step>, t: Sys)
    requires plan == [SendCard, ConfirmShipment]
    ensures Leads(plan, CardAdvanced(), steps, t)
    ensures t.run.status.Running? && t.run.cursor == 1 && t.run.proof == EMPTY_PROOF && t.passed == [Did(0, CARD_SENT)]
  {
    var s0 := CardAdvanced();
    var s1 := Apply(plan, s0, Start(0, LEASE_SECONDS, FailedBefore));
    var s2 := Apply(plan, s1, FinishFailed(0, true, false, 0, FailedAfter));
    var s3 := Apply(plan, s2, QuarantineSent(0, NO_NOTE, NoFault));
    t := Apply(plan, s3, Resolve(Retry, true, true));
    steps := Prepend(plan, s3, Resolve(Retry, true, true), [], t);
    steps := Prepend(plan, s2, QuarantineSent(0, NO_NOTE, NoFault), steps, t);
    steps := Prepend(plan, s1, FinishFailed(0, true, false, 0, FailedAfter), steps, t);
    steps := Prepend(plan, s0, Start(0, LEASE_SECONDS, FailedBefore), steps, t);
  }
}
