/** The sent count a run has stored, and what is left of it after closes and reviews. */
module RunCount {
  import opened DeliveryProof
  import opened RunTable
  import opened RunProtocol

  lemma {:induction false} SentSumGrows(passed: seq<Passed>, c: nat)
    requires c <= |passed|
    ensures SentSum(passed[..c]) <= SentSum(passed)
    ensures SentSum(passed[..c]) == SentSum(passed) <==> forall p :: c <= p < |passed| ==> SentOf(passed[p]) == 0
  {
    if c < |passed| {
      var front := passed[..|passed| - 1];
      SentSumGrows(front, c);
      assert front[..c] == passed[..c];
      assert forall p :: c <= p < |front| ==> front[p] == passed[p];
    } else {
      assert passed[..c] == passed;
    }
  }

  predicate Unreviewed(status: Status) {
    status.Running? || status.Failed? || status.Success?
  }

  /** The stored count of an unreviewed run is the sum over the positions passed. */
  predicate CountStored(s: Sys) {
    Unreviewed(s.run.status) ==> s.run.sent == SentSum(s.passed)
  }

  /** The worker has read the row under review, with what the review had added; the operator may have
      skipped the position since. */
  predicate ReadInReview(s: Sys, me: Worker)
    requires me.cursor <= |s.passed|
  {
    if me.cursor == |s.passed| then s.run.status.NeedsReview? && me.sent == s.run.sent
    else s.passed[me.cursor].Skipped? && me.sent == SentSum(s.passed[..me.cursor + 1])
  }

  /** A worker of the row's attempt has the sum up to its own cursor. */
  predicate WorkerCount(s: Sys, w: nat)
    requires w in s.workers
  {
    var me := s.workers[w];
    && me.attempt <= s.run.attempt
    && me.cursor <= |s.passed|
    && (me.attempt == s.run.attempt ==> me.sent == SentSum(s.passed[..me.cursor]) || ReadInReview(s, me))
  }

  predicate CountOk(s: Sys) {
    s.run.status.Canceled? || (CountStored(s) && forall w :: w in s.workers ==> WorkerCount(s, w))
  }

  /** The first position the worker knows no result of. */
  function KnownUpTo(s: Sys, w: nat): nat
    requires w in s.workers && s.workers[w].cursor <= |s.passed|
  {
    var me := s.workers[w];
    if me.sent == SentSum(s.passed[..me.cursor]) then me.cursor else me.cursor + 1
  }

  /** FinishRun(failed) overwrites the count with what the closing worker knows. It keeps the count
      right exactly when no position passed behind that worker's back had a result. */
  lemma FinishKeepsCountExactly(plan: seq<ActionType>, s: Sys, w: nat, manual: bool, ruleUnavailable: bool, now: int,
        fault: Fault)
    requires CountOk(s) && Enabled(plan, s, FinishFailed(w, manual, ruleUnavailable, now, fault))
    requires Owned(s.run, s.workers[w].attempt) && !fault.FailedBefore?
    ensures CountStored(Apply(plan, s, FinishFailed(w, manual, ruleUnavailable, now, fault)))
            <==> forall p :: KnownUpTo(s, w) <= p < |s.passed| ==> SentOf(s.passed[p]) == 0
  {
    assert WorkerCount(s, w);
    SentSumGrows(s.passed, KnownUpTo(s, w));
  }

  // The conditions that can be checked before a statement.

  /** The stored cursor is still the closing worker's. */
  predicate ClosesFresh(plan: seq<ActionType>, s: Sys, step: Step) {
    (step.FinishFailed? || (step.FinishSuccess? && s.run.cursor > |plan|))
    && step.w in s.workers && Owned(s.run, s.workers[step.w].attempt)
    ==> s.workers[step.w].cursor == s.run.cursor
  }

  /** The review has taken no result out of the count, and added none when the position is tried again. */
  predicate ResolvesFresh(s: Sys, step: Step) {
    step.Resolve? ==>
      && (step.resolution.Continue? ==> s.run.sent >= SentSum(s.passed))
      && (step.resolution.Retry? ==> s.run.sent == SentSum(s.passed))
  }

  lemma ResolveKeepsStored(plan: seq<ActionType>, s: Sys, step: Step)
    requires Enabled(plan, s, step) && step.Resolve?
    ensures CountStored(Apply(plan, s, step)) <==> ResolvesFresh(s, step)
  {
    SentSumOneMore(s.passed, Skipped(Excess(s), s.run.proof));
  }

  lemma SentSumOneMore(passed: seq<Passed>, p: Passed)
    ensures SentSum(passed + [p]) == SentSum(passed) + SentOf(p)
  {
    assert (passed + [p])[..|passed|] == passed;
  }

  /** A row change that leaves the count of an unreviewed row alone, and a row under review. */
  predicate LeavesCount(r: Run, q: Run) {
    && q.attempt >= r.attempt
    && (Unreviewed(q.status) ==> Unreviewed(r.status) && q.sent == r.sent)
    && (r.status.NeedsReview? ==> q.status.NeedsReview? && q.sent == r.sent)
    && (r.status.Canceled? ==> q.status.Canceled?)
  }

  lemma QuietStepKeepsCount(s: Sys, q: Run, tries: seq<Try>, w: nat, pc: Pc)
    requires CountOk(s) && LeavesCount(s.run, q)
    ensures CountOk(At(s.(run := q, tries := tries), w, pc))
    ensures CountOk(s.(run := q, tries := tries))
  {
    var m := s.(run := q, tries := tries);
    if !s.run.status.Canceled? {
      forall v | v in s.workers
        ensures WorkerCount(m, v) && WorkerCount(At(m, w, pc), v)
      {
        assert WorkerCount(s, v);
      }
    }
  }

  /** A worker that knows the sum of all positions or has not moved keeps its count when one more
      position is passed. */
  lemma OneMoreKeepsWorkers(s: Sys, t: Sys, p: Passed)
    requires forall v :: v in s.workers ==> WorkerCount(s, v)
    requires t.passed == s.passed + [p] && t.run.attempt == s.run.attempt
    requires s.run.status.NeedsReview? ==> p.Skipped? && SentSum(t.passed) == s.run.sent
    ensures forall v :: v in s.workers && v in t.workers && t.workers[v] == s.workers[v] ==> WorkerCount(t, v)
  {
    forall v | v in s.workers && v in t.workers && t.workers[v] == s.workers[v]
      ensures WorkerCount(t, v)
    {
      var c := s.workers[v].cursor;
      assert WorkerCount(s, v);
      assert t.passed[..c] == s.passed[..c];
      assert c < |s.passed| ==> t.passed[..c + 1] == s.passed[..c + 1];
      assert t.passed[..|t.passed|] == t.passed;
    }
  }

  lemma AdvanceKeepsCount(plan: seq<ActionType>, s: Sys, w: nat, fault: Fault)
    requires |s.passed| == s.run.cursor && CountOk(s) && Enabled(plan, s, Advance(w, fault))
    ensures CountOk(ApplyAdvance(plan, s, w, fault))
  {
    var t := ApplyAdvance(plan, s, w, fault);
    if t.passed == s.passed {
      QuietStepKeepsCount(s, s.run, s.tries, w, Stuck);
    } else {
      var me := s.workers[w];
      assert WorkerCount(s, w);
      SentSumOneMore(s.passed, Did(me.pc.slot, me.pc.result));
      OneMoreKeepsWorkers(s, t, Did(me.pc.slot, me.pc.result));
      assert s.passed[..|s.passed|] == s.passed && t.passed[..|t.passed|] == t.passed;
      assert t.passed[..me.cursor] == s.passed;
      assert WorkerCount(t, w);
    }
  }

  lemma AttachKeepsCount(plan: seq<ActionType>, s: Sys, w: nat)
    requires |s.passed| == s.run.cursor && CountOk(s) && w !in s.workers
    ensures CountOk(Apply(plan, s, Attach(w)))
  {
    var t := Apply(plan, s, Attach(w));
    assert s.passed[..|s.passed|] == s.passed;
    if !s.run.status.Canceled? {
      forall v | v in t.workers
        ensures WorkerCount(t, v)
      {
        assert v != w ==> WorkerCount(s, v);
      }
    }
  }

  lemma FinishKeepsCount(plan: seq<ActionType>, s: Sys, step: Step)
    requires Inv(s) && CountOk(s) && Enabled(plan, s, step) && (step.FinishFailed? || step.FinishSuccess?)
    requires ClosesFresh(plan, s, step)
    ensures CountOk(Apply(plan, s, step))
  {
    var t := Apply(plan, s, step);
    assert s.passed[..|s.passed|] == s.passed;
    if !s.run.status.Canceled? {
      assert WorkerCount(s, step.w) && WorkerOk(s, step.w);
      forall v | v in t.workers
        ensures WorkerCount(t, v)
      {
        assert WorkerCount(s, v);
      }
    }
  }

  lemma CheckpointStepKeepsCount(plan: seq<ActionType>, s: Sys, step: Step)
    requires CountOk(s) && Enabled(plan, s, step)
    requires step.Start? || step.Act? || step.Abort? || step.DelayFails? || step.Crash? || step.Reject?
    ensures CountOk(Apply(plan, s, step))
  {
    var t := Apply(plan, s, step);
    QuietStepKeepsCount(s, t.run, t.tries, step.w, t.workers[step.w].pc);
  }

  lemma ClosingStepKeepsCount(plan: seq<ActionType>, s: Sys, step: Step)
    requires CountOk(s) && Enabled(plan, s, step)
    requires step.Defer? || step.ReviewAction? || step.QuarantineStuck? || step.QuarantineSent?
    ensures CountOk(Apply(plan, s, step))
  {
    var t := Apply(plan, s, step);
    ClosingStepIsTame(plan, s, step);
    assert LeavesCount(s.run, t.run);
    QuietStepKeepsCount(s, t.run, s.tries, step.w, t.workers[step.w].pc);
  }

  lemma ResolveKeepsCount(plan: seq<ActionType>, s: Sys, step: Step)
    requires |s.passed| == s.run.cursor && CountOk(s) && Enabled(plan, s, step) && step.Resolve?
        && ResolvesFresh(s, step)
    ensures CountOk(Apply(plan, s, step))
  {
    var t := Apply(plan, s, step);
    ResolveKeepsStored(plan, s, step);
    assert s.passed[..|s.passed|] == s.passed;
    if step.resolution.Continue? {
      SentSumOneMore(s.passed, Skipped(Excess(s), s.run.proof));
      OneMoreKeepsWorkers(s, t, Skipped(Excess(s), s.run.proof));
    } else if step.resolution.Retry? {
      forall v | v in t.workers
        ensures WorkerCount(t, v)
      {
        assert WorkerCount(s, v);
      }
    }
  }

  lemma StepKeepsCount(plan: seq<ActionType>, s: Sys, step: Step)
    requires Inv(s) && CountOk(s) && Enabled(plan, s, step) && ClosesFresh(plan, s, step) && ResolvesFresh(s, step)
    ensures CountOk(Apply(plan, s, step))
  {
    hide CountOk, ClosesFresh, ResolvesFresh;
    if step.Attach? {
      AttachKeepsCount(plan, s, step.w);
    } else if step.Advance? {
      AdvanceKeepsCount(plan, s, step.w, step.fault);
    } else if step.FinishFailed? || step.FinishSuccess? {
      FinishKeepsCount(plan, s, step);
    } else if step.Resolve? {
      ResolveKeepsCount(plan, s, step);
    } else if step.Claim? || step.Scheduler? || step.Postpone? {
      QuietStepKeepsCount(s, Apply(plan, s, step).run, s.tries, 0, Gone);
    } else if step.Start? || step.Act? || step.Abort? || step.DelayFails? || step.Crash? || step.Reject? {
      CheckpointStepKeepsCount(plan, s, step);
    } else {
      ClosingStepKeepsCount(plan, s, step);
    }
  }

  /** What a statement that hands a run to the review does to the stored count. */
  function ReviewShift(plan: seq<ActionType>, s: Sys, step: Step): int
    requires Enabled(plan, s, step)
  {
    if step.ReviewAction? || step.QuarantineSent? then Apply(plan, s, step).run.sent - s.run.sent else 0
  }

  /** How far the count was shifted since the operator's last decision, one step later. */
  function ShiftNow(plan: seq<ActionType>, s: Sys, shift: int, step: Step): int
    requires Enabled(plan, s, step)
  {
    if step.Resolve? then 0 else shift + ReviewShift(plan, s, step)
  }

  ghost function ShiftBy(plan: seq<ActionType>, s: Sys, shift: int, steps: seq<Step>, t: Sys): int
    requires Leads(plan, s, steps, t)
    decreases |steps|
  {
    if steps == [] then shift
    else ShiftBy(plan, Apply(plan, s, steps[0]), ShiftNow(plan, s, shift, steps[0]), steps[1..], t)
  }

  /** The count of a row under review is off by what the review has shifted it. */
  predicate ShiftOk(s: Sys, shift: int) {
    && (Unreviewed(s.run.status) ==> shift == 0)
    && (s.run.status.NeedsReview? ==> s.run.sent == SentSum(s.passed) + shift)
  }

  /** The operator goes on only when the review took nothing out of the count, and has a position tried
      again only when the review left the count alone. */
  predicate ShiftAllows(shift: int, step: Step) {
    step.Resolve? ==> (step.resolution.Continue? ==> shift >= 0) && (step.resolution.Retry? ==> shift == 0)
  }

  lemma StepKeepsShift(plan: seq<ActionType>, s: Sys, shift: int, step: Step)
    requires CountOk(s) && ShiftOk(s, shift) && Enabled(plan, s, step)
    ensures ShiftOk(Apply(plan, s, step), ShiftNow(plan, s, shift, step))
  {
    hide SentSum;
    if !step.Resolve? && s.run.status.NeedsReview? {
      UnderReviewNothingMoves(plan, s, step);
    }
  }

  /** A row under review is left alone by everybody but the operator. */
  lemma UnderReviewNothingMoves(plan: seq<ActionType>, s: Sys, step: Step)
    requires Enabled(plan, s, step) && !step.Resolve? && s.run.status.NeedsReview?
    ensures Apply(plan, s, step).run == s.run && Apply(plan, s, step).passed == s.passed
  {
  }

  /** No worker closes a run whose cursor has moved past its own, and the operator's decisions respect
      what the review did to the count. */
  ghost predicate AllCountKept(plan: seq<ActionType>, s: Sys, shift: int, steps: seq<Step>, t: Sys)
    requires Leads(plan, s, steps, t)
    decreases |steps|
  {
    steps != [] ==>
      && ClosesFresh(plan, s, steps[0]) && ShiftAllows(shift, steps[0])
      && AllCountKept(plan, Apply(plan, s, steps[0]), ShiftNow(plan, s, shift, steps[0]), steps[1..], t)
  }

  lemma {:induction false} ReachableCount(plan: seq<ActionType>, s: Sys, shift: int, steps: seq<Step>, t: Sys)
    requires Inv(s) && CountOk(s) && ShiftOk(s, shift)
    requires Leads(plan, s, steps, t) && AllCountKept(plan, s, shift, steps, t)
    ensures Inv(t) && CountOk(t) && ShiftOk(t, ShiftBy(plan, s, shift, steps, t))
    decreases |steps|
  {
    hide Inv, CountOk, ClosesFresh, ShiftNow;
    if steps != [] {
      StepKeepsShift(plan, s, shift, steps[0]);
      StepKeepsCount(plan, s, steps[0]);
      StepKeepsInv(plan, s, steps[0]);
      ReachableCount(plan, Apply(plan, s, steps[0]), ShiftNow(plan, s, shift, steps[0]), steps[1..], t);
    }
  }

  /** The stored sent count of every run that is not under review or canceled is the sum over its
      positions, operator included: the results of those that were advanced, and what the review had
      added for those that were skipped. */
  lemma SentCountIsSum(plan: seq<ActionType>, lease: int, steps: seq<Step>, t: Sys)
    requires Leads(plan, Initial(lease), steps, t) && AllCountKept(plan, Initial(lease), 0, steps, t)
    requires Unreviewed(t.run.status)
    ensures t.run.sent == SentSum(t.passed) && |t.passed| == t.run.cursor
  {
    ReachableCount(plan, Initial(lease), 0, steps, t);
  }

  /** After every such run the operator's decision leaves the count right exactly when the statement
      that handed the run to the review took nothing out of it and, for a retry, added nothing. */
  lemma ResolveKeepsCountExactly(plan: seq<ActionType>, lease: int, steps: seq<Step>, t: Sys, step: Step)
    requires Leads(plan, Initial(lease), steps, t) && AllCountKept(plan, Initial(lease), 0, steps, t)
    requires Enabled(plan, t, step) && step.Resolve?
    ensures CountStored(Apply(plan, t, step)) <==> ShiftAllows(ShiftBy(plan, Initial(lease), 0, steps, t), step)
  {
    ReachableCount(plan, Initial(lease), 0, steps, t);
    ResolveKeepsStored(plan, t, step);
  }

  // ---- what a review adds to the count -----------------------------------------------------------------

  /** Try i of position p ended with an unsure answer and n results. */
  predicate Reviewed(tries: seq<Try>, i: nat, p: nat, n: nat) {
    && i < |tries| && tries[i].pos == p && tries[i].stage.Called?
    && Unsure(tries[i].stage.result) && tries[i].stage.result.sent == n
  }

  ghost predicate HasReviewed(tries: seq<Try>, p: nat, n: nat) {
    exists i :: Reviewed(tries, i, p, n)
  }

  /** The count of a row under review holds at most the results of its unsure action besides the sum. */
  ghost predicate ReviewOk(s: Sys) {
    s.run.status.NeedsReview? ==>
      || s.run.sent == SentSum(s.passed)
      || (s.run.started && s.run.sent > SentSum(s.passed)
          && HasReviewed(s.tries, s.run.cursor, s.run.sent - SentSum(s.passed)))
  }

  /** What a skipped position counts is the result of its unsure try. */
  ghost predicate SkipsReal(s: Sys) {
    forall p :: 0 <= p < |s.passed| && s.passed[p].Skipped? && s.passed[p].counted > 0 ==>
        HasReviewed(s.tries, p, s.passed[p].counted)
  }

  /** The stored cursor is still that of the worker that hands its count to the review. */
  predicate ReviewsFresh(s: Sys, step: Step) {
    (step.ReviewAction? || step.QuarantineSent?) && step.w in s.workers
        && CanQuarantine(s.run, s.workers[step.w].attempt)
    ==> s.workers[step.w].cursor == s.run.cursor
  }

  lemma ReviewedStays(plan: seq<ActionType>, s: Sys, step: Step)
    requires Inv(s) && Enabled(plan, s, step)
    ensures forall p, n :: HasReviewed(s.tries, p, n) ==> HasReviewed(Apply(plan, s, step).tries, p, n)
  {
    var t := Apply(plan, s, step);
    forall p, n | HasReviewed(s.tries, p, n)
      ensures HasReviewed(t.tries, p, n)
    {
      var i :| Reviewed(s.tries, i, p, n);
      ReviewedTryStays(plan, s, step, i);
      assert Reviewed(t.tries, i, p, n);
    }
  }

  lemma ReviewedTryStays(plan: seq<ActionType>, s: Sys, step: Step, i: nat)
    requires Inv(s) && Enabled(plan, s, step)
    requires i < |s.tries| && s.tries[i].stage.Called? && Unsure(s.tries[i].stage.result)
    ensures var t := Apply(plan, s, step); i < |t.tries| && t.tries[i] == s.tries[i]
  {
    hide OneTryStands, CursorGuarded, PassedOk, ReleasedOk;
    if step.Start? || step.Act? || step.Abort? || step.Advance? {
      assert WorkerOk(s, step.w);
    } else if !step.Resolve? {
      RowStepLeavesTries(plan, s, step);
    }
  }

  lemma ReviewActionIsReal(plan: seq<ActionType>, s: Sys, step: Step)
    requires Inv(s) && CountOk(s) && Enabled(plan, s, step) && step.ReviewAction? && ReviewsFresh(s, step)
        && ReviewOk(s)
    ensures ReviewOk(Apply(plan, s, step))
  {
    var me := s.workers[step.w];
    if CanQuarantine(s.run, me.attempt) {
      assert WorkerOk(s, step.w) && WorkerCount(s, step.w);
      assert s.passed[..|s.passed|] == s.passed;
      assert Reviewed(s.tries, me.pc.slot, s.run.cursor, me.pc.result.sent);
    }
  }

  lemma RowStepKeepsReviewOk(plan: seq<ActionType>, s: Sys, step: Step)
    requires Inv(s) && CountOk(s) && Enabled(plan, s, step) && !step.ReviewAction? && !step.Resolve?
        && ReviewsFresh(s, step)
    requires ReviewOk(s)
    ensures ReviewOk(Apply(plan, s, step))
  {
    var t := Apply(plan, s, step);
    ReviewedStays(plan, s, step);
    if s.run.status.NeedsReview? {
      UnderReviewNothingMoves(plan, s, step);
    } else if step.QuarantineSent? && CanQuarantine(s.run, s.workers[step.w].attempt) {
      assert WorkerCount(s, step.w);
      assert s.passed[..|s.passed|] == s.passed;
    } else if t.run.status.NeedsReview? {
      QuarantineKeepsSent(plan, s, step);
    }
  }

  lemma QuarantineKeepsSent(plan: seq<ActionType>, s: Sys, step: Step)
    requires Enabled(plan, s, step) && !step.ReviewAction? && !step.QuarantineSent?
    requires !s.run.status.NeedsReview? && Apply(plan, s, step).run.status.NeedsReview?
    ensures Unreviewed(s.run.status) && Apply(plan, s, step).run.sent == s.run.sent
        && Apply(plan, s, step).passed == s.passed
  {
  }

  lemma ResolveIsReal(plan: seq<ActionType>, s: Sys, step: Step)
    requires Inv(s) && Enabled(plan, s, step) && step.Resolve? && ReviewOk(s) && SkipsReal(s)
    ensures ResolvesFresh(s, step) && ReviewOk(Apply(plan, s, step)) && SkipsReal(Apply(plan, s, step))
  {
  }

  lemma StepKeepsReal(plan: seq<ActionType>, s: Sys, step: Step)
    requires Inv(s) && CountOk(s) && ReviewOk(s) && SkipsReal(s)
    requires Enabled(plan, s, step) && ReviewsFresh(s, step)
    ensures ResolvesFresh(s, step) && ReviewOk(Apply(plan, s, step)) && SkipsReal(Apply(plan, s, step))
  {
    hide Inv, CountOk, ReviewOk, ReviewsFresh, HasReviewed, Excess;
    if step.Resolve? {
      ResolveIsReal(plan, s, step);
    } else {
      ReviewedStays(plan, s, step);
      PassedOnlyAdvances(plan, s, step);
      if step.ReviewAction? {
        ReviewActionIsReal(plan, s, step);
      } else {
        RowStepKeepsReviewOk(plan, s, step);
      }
    }
  }

  ghost predicate AllStoresFresh(plan: seq<ActionType>, s: Sys, steps: seq<Step>, t: Sys)
    requires Leads(plan, s, steps, t)
    decreases |steps|
  {
    steps != [] ==>
      && ClosesFresh(plan, s, steps[0]) && ReviewsFresh(s, steps[0])
      && AllStoresFresh(plan, Apply(plan, s, steps[0]), steps[1..], t)
  }

  lemma {:induction false} ReachableReal(plan: seq<ActionType>, s: Sys, steps: seq<Step>, t: Sys)
    requires Inv(s) && CountOk(s) && ReviewOk(s) && SkipsReal(s)
    requires Leads(plan, s, steps, t) && AllStoresFresh(plan, s, steps, t)
    ensures Inv(t) && CountOk(t) && ReviewOk(t) && SkipsReal(t)
    decreases |steps|
  {
    hide Inv, CountOk, ReviewOk, SkipsReal, ClosesFresh, ResolvesFresh, ReviewsFresh;
    if steps != [] {
      StepKeepsReal(plan, s, steps[0]);
      StepKeepsCount(plan, s, steps[0]);
      StepKeepsInv(plan, s, steps[0]);
      ReachableReal(plan, Apply(plan, s, steps[0]), steps[1..], t);
    }
  }

  /** The results of the positions that were advanced alone. */
  function DoneSum(passed: seq<Passed>): nat {
    if passed == [] then 0
    else DoneSum(passed[..|passed| - 1]) + if passed[|passed| - 1].Did? then passed[|passed| - 1].result.sent else 0
  }

  lemma {:induction false} SumsAgreeExactly(passed: seq<Passed>)
    ensures DoneSum(passed) <= SentSum(passed)
    ensures DoneSum(passed) == SentSum(passed) <==> forall p :: 0 <= p < |passed| && passed[p].Skipped? ==>
        passed[p].counted == 0
    decreases |passed|
  {
    if passed != [] {
      var front := passed[..|passed| - 1];
      SumsAgreeExactly(front);
      assert forall p :: 0 <= p < |front| ==> front[p] == passed[p];
    }
  }

  /** When every worker that closes a run or hands its count to the review still has the row's cursor,
      no resolution spoils the count; what a skipped position counts is the result its unsure try
      reported, and the count is the number of advanced results exactly when those were all zero. */
  lemma SkippedResultsAreReviewed(plan: seq<ActionType>, lease: int, steps: seq<Step>, t: Sys)
    requires Leads(plan, Initial(lease), steps, t) && AllStoresFresh(plan, Initial(lease), steps, t)
    requires Unreviewed(t.run.status)
    ensures t.run.sent == SentSum(t.passed)
    ensures forall p :: 0 <= p < |t.passed| && t.passed[p].Skipped? && t.passed[p].counted > 0 ==>
              exists i :: Reviewed(t.tries, i, p, t.passed[p].counted)
    ensures t.run.sent == DoneSum(t.passed)
            <==> forall p :: 0 <= p < |t.passed| && t.passed[p].Skipped? ==> t.passed[p].counted == 0
  {
    ReachableReal(plan, Initial(lease), steps, t);
    SumsAgreeExactly(t.passed);
  }

  /** Both workers have read the run; worker 0 has sent a text and advanced. */
  function TextAdvanced(): Sys {
    Sys(Run(Running, 1, 1, false, 1, EMPTY_PROOF, NO_NOTE, LEASE_SECONDS, 0),
        map[0 := Worker(1, 1, 1, EMPTY_PROOF, AtLoop), 1 := Worker(1, 0, 0, EMPTY_PROOF, AtLoop)],
        [Try(0, 0, EMPTY_PROOF, Stage.Done(TEXT_SENT))], [Did(0, TEXT_SENT)])
  }

  /** Both workers have read the run; worker 0 has opened its checkpoint. */
  function FirstOpened(): Sys {
    Sys(Run(Running, 1, 0, true, 0, EMPTY_PROOF, NO_NOTE, LEASE_SECONDS, 0),
        map[0 := Worker(1, 0, 0, EMPTY_PROOF, Opened(0)), 1 := Worker(1, 0, 0, EMPTY_PROOF, AtLoop)],
        [Try(0, 0, EMPTY_PROOF, Stage.Open)], [])
  }

  lemma FirstOpenedIsReached(plan: seq<ActionType>) returns (steps: seq<Step>)
    requires plan != []
    ensures Leads(plan, Initial(LEASE_SECONDS), steps, FirstOpened()) && NoOperator(steps)
  {
    var s0 := Initial(LEASE_SECONDS);
    var s1 := Apply(plan, s0, Attach(0));
    var s2 := Apply(plan, s1, Attach(1));
    var s3 := Apply(plan, s2, Start(0, LEASE_SECONDS, NoFault));
    assert s3 == FirstOpened();
    steps := Prepend(plan, s2, Start(0, LEASE_SECONDS, NoFault), [], s3);
    steps := Prepend(plan, s1, Attach(1), steps, s3);
    steps := Prepend(plan, s0, Attach(0), steps, s3);
  }

  lemma TextAdvancedIsReached(plan: seq<ActionType>) returns (steps: seq<Step>)
    requires plan == [SendText, SendText]
    ensures Leads(plan, Initial(LEASE_SECONDS), steps, TextAdvanced()) && NoOperator(steps)
  {
    var s3 := FirstOpened();
    var s4 := Apply(plan, s3, Act(0, TEXT_SENT));
    var s5 := Apply(plan, s4, Advance(0, NoFault));
    assert s5.tries == TextAdvanced().tries;
    assert s5 == TextAdvanced();
    var rest := Prepend(plan, s4, Advance(0, NoFault), [], s5);
    rest := Prepend(plan, s3, Act(0, TEXT_SENT), rest, s5);
    var first := FirstOpenedIsReached(plan);
    LeadsOn(plan, Initial(LEASE_SECONDS), first, s3, rest, s5);
    steps := first + rest;
  }

  /** Without that condition the count is lost: worker 1, which read the run before worker 0 sent
      a text, cannot open its checkpoint, closes the run as failed with the count it read, and the
      run may be claimed again with a count of zero although a position has a result. */
  lemma StaleCloseLosesCount(plan: seq<ActionType>) returns (steps: seq<Step>, t: Sys)
    requires plan == [SendText, SendText]
    ensures Leads(plan, Initial(LEASE_SECONDS), steps, t) && NoOperator(steps)
    ensures t.run.status.Failed? && t.run.sent == 0 && SentSum(t.passed) == 1
    ensures Claimable(t.run, t.run.nextRetry)
  {
    var s5 := TextAdvanced();
    var s6 := Apply(plan, s5, Start(1, LEASE_SECONDS, NoFault));
    t := Apply(plan, s6, FinishFailed(1, false, false, 0, NoFault));
    var rest := Prepend(plan, s6, FinishFailed(1, false, false, 0, NoFault), [], t);
    rest := Prepend(plan, s5, Start(1, LEASE_SECONDS, NoFault), rest, t);
    var first := TextAdvancedIsReached(plan);
    LeadsOn(plan, Initial(LEASE_SECONDS), first, s5, rest, t);
    steps := first + rest;
    assert t.passed[..0] == [] && t.passed == [Did(0, TEXT_SENT)];
    assert SentSum(t.passed) == SentSum(t.passed[..0]) + 1;
  }

  /** A picture card of two units: the first went out, and the answer for the second is unknown. */
  const CARD_UNCLEAR := ActionResult(1, Proof("", ["card.png"]), EMPTY_PROOF, Uncertain)

  /** The proof that its review stores. */
  const CARD_LEFT := Updated(EMPTY_PROOF, ReviewProof(EMPTY_PROOF, CARD_UNCLEAR))

  /** Worker 0 does not know whether the second unit of the card arrived. */
  function CardReviewed(): Sys {
    Sys(Run(NeedsReview, 1, 0, true, 1, CARD_LEFT, NO_NOTE, 0, 0),
        map[0 := Worker(1, 0, 0, EMPTY_PROOF, Gone), 1 := Worker(1, 0, 0, EMPTY_PROOF, AtLoop)],
        [Try(0, 0, EMPTY_PROOF, Stage.Called(CARD_UNCLEAR))], [])
  }

  lemma CardReviewedIsReached(plan: seq<ActionType>) returns (steps: seq<Step>)
    requires plan == [SendCard, SendText]
    ensures Leads(plan, Initial(LEASE_SECONDS), steps, CardReviewed())
  {
    hide Merge;
    var s3 := FirstOpened();
    var s4 := Apply(plan, s3, Act(0, CARD_UNCLEAR));
    var s5 := Apply(plan, s4, ReviewAction(0, NO_NOTE, NoFault));
    assert s5.tries == CardReviewed().tries && s5.workers == CardReviewed().workers;
    assert s5.run == CardReviewed().run;
    assert s5 == CardReviewed();
    var rest := Prepend(plan, s4, ReviewAction(0, NO_NOTE, NoFault), [], s5);
    rest := Prepend(plan, s3, Act(0, CARD_UNCLEAR), rest, s5);
    var first := FirstOpenedIsReached(plan);
    LeadsOn(plan, Initial(LEASE_SECONDS), first, s3, rest, s5);
    steps := first + rest;
  }

  lemma OperatorSkipsCard(plan: seq<ActionType>) returns (steps: seq<Step>, t: Sys)
    requires plan == [SendCard, SendText]
    ensures Leads(plan, CardReviewed(), steps, t)
    ensures t.run.status.Running? && t.run.sent == 1 && t.passed == [Skipped(1, CARD_LEFT)]
  {
    hide ReviewProof;
    var s := CardReviewed();
    assert SentSum(s.passed) == 0 && Excess(s) == 1;
    t := Apply(plan, s, Resolve(Continue, true, true));
    steps := Prepend(plan, s, Resolve(Continue, true, true), [], t);
  }

  /** A card of which one of two units is confirmed and the other unknown is counted by the review; the
      operator goes on, and the count holds a result although no position was advanced. */
  lemma SkippedResultIsCounted(plan: seq<ActionType>) returns (steps: seq<Step>, t: Sys)
    requires plan == [SendCard, SendText]
    ensures Leads(plan, Initial(LEASE_SECONDS), steps, t)
    ensures t.run.status.Running? && t.run.sent == 1 && t.passed == [Skipped(1, CARD_LEFT)] && DoneSum(t.passed) == 0
    ensures CARD_LEFT.pics == ["card.png"]
  {
    hide Leads, Enabled, Apply;
    var first := CardReviewedIsReached(plan);
    var rest;
    rest, t := OperatorSkipsCard(plan);
    LeadsOn(plan, Initial(LEASE_SECONDS), first, CardReviewed(), rest, t);
    steps := first + rest;
    assert DoneSum([Skipped(1, CARD_LEFT)][..0]) == 0;
  }
}
