/**
  A plan run in deferred and resumed pieces, compared with one undelayed pass. The pieces are the
  stays of different workers in one run of the protocol, and one hands over to the next through the
  stored row alone.
 */
module RunDeferral {
  import opened DeliveryProof
  import opened RunTable
  import opened RunProtocol
  import opened RunCalls
  import opened RunCoordinator
  import opened RunPieces

  // ---- one worker's stay ----------------------------------------------------------------------------------

  /** The statements that leave cursor, count and proof of the row alone. */
  predicate LeavesRow(step: Step) {
    && !step.Advance? && !step.FinishSuccess? && !step.FinishFailed?
    && !step.ReviewAction? && !step.QuarantineSent? && !step.Resolve?
  }

  /** Nobody else advances, closes, reviews or resolves the run. */
  predicate Undisturbed(steps: seq<Step>, w: nat) {
    forall k :: 0 <= k < |steps| ==> IsStepOf(steps[k], w) || LeavesRow(steps[k])
  }

  predicate SameData(r: Run, q: Run) {
    q.cursor == r.cursor && q.sent == r.sent && q.proof == r.proof
  }

  lemma LeftRowKeepsData(plan: seq<ActionType>, s: Sys, step: Step)
    requires Enabled(plan, s, step) && LeavesRow(step)
    ensures SameData(s.run, Apply(plan, s, step).run)
  {
  }

  /** The worker may still act for the run. */
  predicate Lively(pc: Pc) {
    pc.AtLoop? || pc.Opened? || pc.Returned?
  }

  /** The worker holds what the row holds, which is what it read and what its calls made of it. */
  predicate InHand(plan: seq<ActionType>, s: Sys, w: nat, logs: map<nat, Log>) {
    && w in s.workers && w in logs
    && (Lively(s.workers[w].pc) ==>
          && s.workers[w].cursor == s.run.cursor == logs[w].run.cursor + |logs[w].calls|
          && s.workers[w].sent == s.run.sent && s.workers[w].proof == s.run.proof
          && Trace(plan, logs[w].run, logs[w].calls, s.run.sent, s.run.proof))
  }

  lemma OtherStepKeepsInHand(plan: seq<ActionType>, s: Sys, step: Step, w: nat, logs: map<nat, Log>)
    requires InHand(plan, s, w, logs) && Enabled(plan, s, step) && !IsStepOf(step, w) && LeavesRow(step)
    ensures InHand(plan, Apply(plan, s, step), w, Logged(plan, s, step, logs))
  {
    hide Trace;
    LeftRowKeepsData(plan, s, step);
    OtherStepLeavesMe(plan, s, step, w);
  }

  lemma OwnStepKeepsInHand(plan: seq<ActionType>, s: Sys, step: Step, w: nat, logs: map<nat, Log>)
    requires InHand(plan, s, w, logs) && Enabled(plan, s, step) && IsStepOf(step, w) && !step.Advance?
    ensures InHand(plan, Apply(plan, s, step), w, Logged(plan, s, step, logs))
  {
    hide Trace;
  }

  lemma OwnAdvanceKeepsInHand(plan: seq<ActionType>, s: Sys, w: nat, fault: Fault, logs: map<nat, Log>)
    requires InHand(plan, s, w, logs) && Enabled(plan, s, Advance(w, fault))
    ensures InHand(plan, ApplyAdvance(plan, s, w, fault), w, Logged(plan, s, Advance(w, fault), logs))
  {
    hide Trace;
    var me := s.workers[w];
    if CanAdvance(s.run, me.attempt, me.cursor) && fault.NoFault? {
      StoredIsNext(plan[me.cursor], me.proof, me.pc.result.proof);
      TraceGrows(plan, logs[w].run, logs[w].calls, me.sent, me.proof, me.pc.result);
    }
  }

  lemma {:induction false} WorkKeepsInHand(plan: seq<ActionType>, s: Sys, steps: seq<Step>, t: Sys, w: nat,
        logs: map<nat, Log>)
    requires InHand(plan, s, w, logs) && Leads(plan, s, steps, t) && Undisturbed(steps, w)
    ensures InHand(plan, t, w, AllLogged(plan, s, steps, t, logs))
    decreases |steps|
  {
    hide InHand, Enabled, Apply, Logged, LeavesRow;
    if steps != [] {
      if !IsStepOf(steps[0], w) {
        OtherStepKeepsInHand(plan, s, steps[0], w, logs);
      } else if steps[0].Advance? {
        OwnAdvanceStep(plan, s, steps[0], w, logs);
      } else {
        OwnStepKeepsInHand(plan, s, steps[0], w, logs);
      }
      WorkKeepsInHand(plan, Apply(plan, s, steps[0]), steps[1..], t, w, Logged(plan, s, steps[0], logs));
    }
  }

  lemma OwnAdvanceStep(plan: seq<ActionType>, s: Sys, step: Step, w: nat, logs: map<nat, Log>)
    requires InHand(plan, s, w, logs) && Enabled(plan, s, step) && step.Advance? && IsStepOf(step, w)
    ensures InHand(plan, Apply(plan, s, step), w, Logged(plan, s, step, logs))
  {
    hide InHand;
    OwnAdvanceKeepsInHand(plan, s, w, step.fault, logs);
  }

  /** A worker's stay: its work from reading the row until it stands at the loop at `last`, and what
      happens from then until the next worker reads the row at `next`. */
  datatype Stay = Stay(w: nat, work: seq<Step>, last: Sys, gap: seq<Step>, next: Sys)

  /** The worker works from `s`, undisturbed by others. */
  ghost predicate Works(plan: seq<ActionType>, s: Sys, g: Stay) {
    && Enabled(plan, s, Attach(g.w))
    && Leads(plan, Apply(plan, s, Attach(g.w)), g.work, g.last) && Undisturbed(g.work, g.w)
    && PcOf(g.last, g.w).AtLoop?
  }

  /** The calls whose advance the worker has seen stored during its stay. */
  ghost function CallsIn(plan: seq<ActionType>, s: Sys, g: Stay): seq<Call> {
    if !Works(plan, s, g) then []
    else
      var logs := AllLogged(plan, Apply(plan, s, Attach(g.w)), g.work, g.last, map[g.w := Log(s.run, [])]);
      if g.w in logs then logs[g.w].calls else []
  }

  /** It was deferred, and nobody touched cursor, count and proof until the next worker came. */
  ghost predicate HandsOver(plan: seq<ActionType>, g: Stay) {
    && g.gap != [] && g.gap[0].Defer? && g.gap[0].w == g.w
    && Leads(plan, g.last, g.gap, g.next)
    && PcOf(Apply(plan, g.last, g.gap[0]), g.w).Gone?
    && forall k :: 0 <= k < |g.gap| ==> LeavesRow(g.gap[k])
  }

  lemma {:induction false} GapKeepsData(plan: seq<ActionType>, s: Sys, steps: seq<Step>, t: Sys)
    requires Leads(plan, s, steps, t) && forall k :: 0 <= k < |steps| ==> LeavesRow(steps[k])
    ensures SameData(s.run, t.run)
    decreases |steps|
  {
    hide LeavesRow, Apply, Enabled;
    if steps != [] {
      LeftRowKeepsData(plan, s, steps[0]);
      GapKeepsData(plan, Apply(plan, s, steps[0]), steps[1..], t);
    }
  }

  /** At the end of a stay the row holds what the worker's calls made of what it had read. */
  lemma {:induction false} StayLeavesRow(plan: seq<ActionType>, s: Sys, g: Stay)
    requires Works(plan, s, g)
    ensures g.w in g.last.workers && Trace(plan, s.run, CallsIn(plan, s, g), g.last.run.sent, g.last.run.proof)
    ensures g.last.workers[g.w].cursor == g.last.run.cursor == s.run.cursor + |CallsIn(plan, s, g)|
    ensures g.last.workers[g.w].sent == g.last.run.sent && g.last.workers[g.w].proof == g.last.run.proof
  {
    var s1, logs := Apply(plan, s, Attach(g.w)), map[g.w := Log(s.run, [])];
    assert InHand(plan, s1, g.w, logs);
    WorkKeepsInHand(plan, s1, g.work, g.last, g.w, logs);
    LogKeepsRun(plan, s1, g.work, g.last, g.w, logs, logs);
  }

  /** The next worker reads the cursor, the count and the proof that the deferred one held. */
  lemma {:induction false} NextReadsWhatLastHeld(plan: seq<ActionType>, s: Sys, g: Stay, w: nat)
    requires Works(plan, s, g) && HandsOver(plan, g) && w !in g.next.workers
    ensures var last, first := g.last.workers[g.w], Apply(plan, g.next, Attach(w)).workers[w];
            first.cursor == last.cursor && first.sent == last.sent && first.proof == last.proof
  {
    StayLeavesRow(plan, s, g);
    GapKeepsData(plan, g.last, g.gap, g.next);
  }

  lemma {:induction false} LogKeepsRun(plan: seq<ActionType>, s: Sys, steps: seq<Step>, t: Sys, w: nat,
        a: map<nat, Log>, b: map<nat, Log>)
    requires Leads(plan, s, steps, t) && w in s.workers && w in a && w in b && a[w] == b[w]
    ensures w in AllLogged(plan, s, steps, t, a) && w in AllLogged(plan, s, steps, t, b)
    ensures AllLogged(plan, s, steps, t, a)[w] == AllLogged(plan, s, steps, t, b)[w]
    ensures AllLogged(plan, s, steps, t, a)[w].run == a[w].run
    decreases |steps|
  {
    if steps != [] {
      assert !(steps[0].Attach? && steps[0].w == w);
      WorkersStay(plan, s, steps[0], w);
      LogKeepsRun(plan, Apply(plan, s, steps[0]), steps[1..], t, w, Logged(plan, s, steps[0], a),
          Logged(plan, s, steps[0], b));
    }
  }

  lemma WorkersStay(plan: seq<ActionType>, s: Sys, step: Step, w: nat)
    requires Enabled(plan, s, step)
    ensures w in s.workers ==> w in Apply(plan, s, step).workers
    ensures w in Apply(plan, s, step).workers && w !in s.workers ==> step == Attach(w)
  {
  }

  // ---- a run in stays -------------------------------------------------------------------------------------------

  /** A run in which workers follow each other: every stay but the last ends with the deferral of a
      position whose delay is still to be waited for, and the next worker knows that position; the
      last one goes on to the end of the plan. Executors answer as `exec`. */
  ghost predicate DeferredRun(plan: seq<ActionType>, delays: seq<nat>, exec: Executor, s: Sys, waited: int,
        stays: seq<Stay>, t: Sys)
    requires |delays| == |plan|
    decreases |stays|
  {
    && stays != [] && Works(plan, s, stays[0])
    && var g, calls := stays[0], CallsIn(plan, s, stays[0]);
       && Answers(exec, calls) && DelaysRespected(delays, false, waited, calls)
       && if |stays| == 1 then t == g.last && g.last.workers[g.w].cursor >= |plan|
          else
            && StopsForDelay(delays, false, s.run.cursor, waited, calls) && HandsOver(plan, g)
            && DeferredRun(plan, delays, exec, g.next, g.last.workers[g.w].cursor, stays[1..], t)
  }

  /** The calls of each stay. */
  ghost function PiecesOf(plan: seq<ActionType>, s: Sys, stays: seq<Stay>): (pieces: seq<seq<Call>>)
    ensures |pieces| == |stays|
    decreases |stays|
  {
    if stays == [] then [] else [CallsIn(plan, s, stays[0])] + PiecesOf(plan, stays[0].next, stays[1..])
  }

  /** What the rows of a deferred run hold makes its pieces a resumed list of calls. */
  lemma {:induction false} StaysAreResumed(plan: seq<ActionType>, delays: seq<nat>, exec: Executor, s: Sys,
        waited: int, stays: seq<Stay>, t: Sys)
    requires |delays| == |plan| && DeferredRun(plan, delays, exec, s, waited, stays, t)
    ensures var pieces := PiecesOf(plan, s, stays);
            && Resumed(plan, delays, exec, s.run.cursor, s.run.proof, waited, pieces)
            && t.run.cursor >= |plan| && (s.run.cursor <= |plan| ==> t.run.cursor == |plan|)
            && t.run.sent == SentOver(s.run.sent, pieces) && t.run.proof == ProofOver(s.run.proof, pieces)
    decreases |stays|
  {
    hide Works, HandsOver, CallsIn, Follows, DelaysRespected, StopsForDelay, Answers;
    var g := stays[0];
    var calls := CallsIn(plan, s, g);
    var pieces := PiecesOf(plan, s, stays);
    StayLeavesRow(plan, s, g);
    assert Trace(plan, s.run, calls, g.last.run.sent, g.last.run.proof);
    assert pieces[0] == calls;
    if |stays| > 1 {
      var stop := g.last.workers[g.w].cursor;
      assert SameData(g.last.run, g.next.run) by { HandoverKeepsData(plan, g); }
      StaysAreResumed(plan, delays, exec, g.next, stop, stays[1..], t);
      assert pieces[1..] == PiecesOf(plan, g.next, stays[1..]);
    } else {
      assert pieces[1..] == [];
    }
  }

  lemma {:induction false} HandoverKeepsData(plan: seq<ActionType>, g: Stay)
    requires HandsOver(plan, g)
    ensures SameData(g.last.run, g.next.run)
  {
    GapKeepsData(plan, g.last, g.gap, g.next);
  }

  /** However the delays cut a run into the stays of different workers, together they make exactly the
      calls, with exactly the proofs, of one undelayed pass from what the first one read. */
  lemma {:induction false} PiecesMakeOnePass(plan: seq<ActionType>, delays: seq<nat>, exec: Executor, s: Sys,
        waited: int, stays: seq<Stay>, t: Sys)
    requires |delays| == |plan| && DeferredRun(plan, delays, exec, s, waited, stays, t)
    ensures AllCalls(PiecesOf(plan, s, stays)) == Pass(plan, exec, s.run.cursor, s.run.proof)
  {
    hide DeferredRun, PiecesOf, Resumed;
    StaysAreResumed(plan, delays, exec, s, waited, stays, t);
    CallsMakeOnePass(plan, delays, exec, s.run.cursor, s.run.proof, waited, PiecesOf(plan, s, stays));
  }

  /** The row they leave is past the plan, with the count and the proof of that pass. */
  lemma {:induction false} PiecesEndLikeOnePass(plan: seq<ActionType>, delays: seq<nat>, exec: Executor, s: Sys,
        waited: int, stays: seq<Stay>, t: Sys)
    requires |delays| == |plan| && DeferredRun(plan, delays, exec, s, waited, stays, t)
    ensures t.run.cursor >= |plan| && (s.run.cursor <= |plan| ==> t.run.cursor == |plan|)
    ensures t.run.sent == SentAfter(s.run.sent, Pass(plan, exec, s.run.cursor, s.run.proof))
    ensures t.run.proof == ProofAfter(s.run.proof, Pass(plan, exec, s.run.cursor, s.run.proof))
  {
    hide DeferredRun, PiecesOf, Resumed;
    StaysAreResumed(plan, delays, exec, s, waited, stays, t);
    PiecesMakeOnePass(plan, delays, exec, s, waited, stays, t);
    OverAllCalls(s.run.sent, s.run.proof, PiecesOf(plan, s, stays));
  }

  /** The positions at which the workers before the last one were deferred. */
  function DeferredAt(stays: seq<Stay>): seq<nat>
    decreases |stays|
  {
    if |stays| <= 1 then []
    else
      var g := stays[0];
      [if g.w in g.last.workers then g.last.workers[g.w].cursor else 0] + DeferredAt(stays[1..])
  }

  lemma {:induction false} DeferralsAreStops(plan: seq<ActionType>, delays: seq<nat>, exec: Executor, s: Sys,
        waited: int, stays: seq<Stay>, t: Sys)
    requires |delays| == |plan| && DeferredRun(plan, delays, exec, s, waited, stays, t)
    ensures DeferredAt(stays) == RunPieces.Stops(s.run.cursor, PiecesOf(plan, s, stays))
    decreases |stays|
  {
    hide HandsOver, CallsIn, DelaysRespected, StopsForDelay, Answers, Trace;
    var g := stays[0];
    StayLeavesRow(plan, s, g);
    if |stays| > 1 {
      HandoverKeepsData(plan, g);
      DeferralsAreStops(plan, delays, exec, g.next, g.last.workers[g.w].cursor, stays[1..], t);
      assert PiecesOf(plan, s, stays)[1..] == PiecesOf(plan, g.next, stays[1..]);
    }
  }

  /** When nothing fails, a run is deferred at every delayed position exactly once, in plan order,
      and nowhere else; a position it starts at with its delay over is not deferred again. */
  lemma {:induction false} DeferredOncePerDelay(plan: seq<ActionType>, delays: seq<nat>, exec: Executor, s: Sys,
        waited: int, stays: seq<Stay>, t: Sys)
    requires |delays| == |plan| && DeferredRun(plan, delays, exec, s, waited, stays, t)
    ensures DeferredAt(stays) == Delayed(delays, if waited == s.run.cursor < |plan| then s.run.cursor + 1
        else s.run.cursor)
  {
    hide DeferredRun, PiecesOf, Resumed;
    StaysAreResumed(plan, delays, exec, s, waited, stays, t);
    DeferralsAreStops(plan, delays, exec, s, waited, stays, t);
    CallsStopOncePerDelay(plan, delays, exec, s.run.cursor, s.run.proof, waited, PiecesOf(plan, s, stays));
  }

  /** So no position is deferred twice. */
  lemma {:induction false} AtMostOneDeferralPerPosition(plan: seq<ActionType>, delays: seq<nat>, exec: Executor, s: Sys,
        waited: int, stays: seq<Stay>, t: Sys, i: nat, j: nat)
    requires |delays| == |plan| && DeferredRun(plan, delays, exec, s, waited, stays, t)
    requires i < j < |DeferredAt(stays)|
    ensures DeferredAt(stays)[i] < DeferredAt(stays)[j]
  {
    hide DeferredRun;
    DeferredOncePerDelay(plan, delays, exec, s, waited, stays, t);
    DelayedIncreases(delays, if waited == s.run.cursor < |plan| then s.run.cursor + 1 else s.run.cursor);
  }

  // ---- the calls in the history -------------------------------------------------------------------------------

  lemma {:induction false} RunExtends(plan: seq<ActionType>, s: Sys, steps: seq<Step>, t: Sys, logs: map<nat, Log>)
    requires Inv(s) && LogsOk(s, logs) && Leads(plan, s, steps, t)
    ensures Inv(t) && Extends(s, t) && LogsOk(t, AllLogged(plan, s, steps, t, logs))
    decreases |steps|
  {
    hide Inv, LogsOk, Apply, Logged, Enabled;
    if steps != [] {
      var n := Apply(plan, s, steps[0]);
      StepKeepsInv(plan, s, steps[0]);
      StepExtends(plan, s, steps[0]);
      StepKeepsLogs(plan, s, steps[0], logs);
      RunExtends(plan, n, steps[1..], t, Logged(plan, s, steps[0], logs));
      ExtendsFurther(s, n, t);
    }
  }

  lemma ExtendsFurther(a: Sys, b: Sys, c: Sys)
    requires Extends(a, b) && Extends(b, c)
    ensures Extends(a, c)
  {
    forall k | 0 <= k < |a.tries| && a.tries[k].stage.Done?
      ensures c.tries[k] == a.tries[k]
    {
      assert b.tries[k] == a.tries[k];
    }
  }

  lemma {:induction false} StayIsRecorded(plan: seq<ActionType>, s: Sys, g: Stay)
    requires Inv(s) && Works(plan, s, g)
    ensures Inv(g.last) && Recorded(g.last, g.w, CallsIn(plan, s, g))
  {
    hide Inv, CallRecorded;
    var s1, logs := Apply(plan, s, Attach(g.w)), map[g.w := Log(s.run, [])];
    StepKeepsInv(plan, s, Attach(g.w));
    RunExtends(plan, s1, g.work, g.last, logs);
    LogKeepsRun(plan, s1, g.work, g.last, g.w, logs, logs);
  }

  /** At the end the history holds every call of every stay as the try that passed its position: a
      position is passed once, by the worker and with the proof that the one undelayed pass gives it. */
  lemma {:induction false} StaysAreRecorded(plan: seq<ActionType>, delays: seq<nat>, exec: Executor, s: Sys,
        waited: int, stays: seq<Stay>, t: Sys, i: nat)
    requires |delays| == |plan| && DeferredRun(plan, delays, exec, s, waited, stays, t) && Inv(s) && i < |stays|
    ensures Inv(t)
    ensures Recorded(t, stays[i].w, PiecesOf(plan, s, stays)[i])
    ensures |stays| > 0 ==> Extends(stays[0].last, t)
    decreases |stays|
  {
    hide Inv, Works, CallsIn, CallRecorded, DelaysRespected, StopsForDelay, Answers;
    var g := stays[0];
    StayIsRecorded(plan, s, g);
    if |stays| > 1 {
      var stop := g.last.workers[g.w].cursor;
      assert Inv(g.next) && Extends(g.last, g.next) by { RunExtends(plan, g.last, g.gap, g.next, map[]); }
      StaysAreRecorded(plan, delays, exec, g.next, stop, stays[1..], t, if i == 0 then 0 else i - 1);
      NextStayExtends(plan, g.next, stays[1]);
      ExtendsFurther(g.next, stays[1].last, t);
      ExtendsFurther(g.last, g.next, t);
      RecordedStays(g.last, t, g.w, CallsIn(plan, s, g));
      assert stays[1..][i - 1 + if i == 0 then 1 else 0] == stays[if i == 0 then 1 else i];
    }
  }

  lemma {:induction false} NextStayExtends(plan: seq<ActionType>, s: Sys, g: Stay)
    requires Inv(s) && Works(plan, s, g)
    ensures Extends(s, g.last)
  {
    hide Inv;
    StepKeepsInv(plan, s, Attach(g.w));
    RunExtends(plan, Apply(plan, s, Attach(g.w)), g.work, g.last, map[]);
    StepExtends(plan, s, Attach(g.w));
    ExtendsFurther(s, Apply(plan, s, Attach(g.w)), g.last);
  }

  // ---- from the method's contract to a stay -----------------------------------------------------------------

  lemma {:induction false} SplitAtAttach(plan: seq<ActionType>, s: Sys, steps: seq<Step>, t: Sys, w: nat)
    returns (before: seq<Step>, m: Sys, work: seq<Step>)
    requires Leads(plan, s, steps, t) && w !in s.workers && w in t.workers
    ensures steps == before + [Attach(w)] + work
    ensures Leads(plan, s, before, m) && w !in m.workers && Leads(plan, Apply(plan, m, Attach(w)), work, t)
    decreases |steps|
  {
    if steps[0] == Attach(w) {
      before, m, work := [], s, steps[1..];
    } else {
      WorkersStay(plan, s, steps[0], w);
      before, m, work := SplitAtAttach(plan, Apply(plan, s, steps[0]), steps[1..], t, w);
      before := [steps[0]] + before;
      assert before[1..] + [Attach(w)] + work == steps[1..];
    }
  }

  lemma {:induction false} SplitLast(plan: seq<ActionType>, s: Sys, steps: seq<Step>, t: Sys, logs: map<nat, Log>)
    returns (d: Sys)
    requires Leads(plan, s, steps, t) && steps != []
    ensures Leads(plan, s, steps[..|steps| - 1], d) && Enabled(plan, d, steps[|steps| - 1])
    ensures t == Apply(plan, d, steps[|steps| - 1])
    ensures AllLogged(plan, s, steps, t, logs)
            == Logged(plan, d, steps[|steps| - 1], AllLogged(plan, s, steps[..|steps| - 1], d, logs))
    decreases |steps|
  {
    hide Apply, Enabled, Logged;
    if |steps| == 1 {
      d := s;
      assert steps[1..] == [] && steps[..0] == [];
    } else {
      d := SplitLast(plan, Apply(plan, s, steps[0]), steps[1..], t, Logged(plan, s, steps[0], logs));
      assert steps[1..][..|steps| - 2] == steps[..|steps| - 1][1..];
    }
  }

  lemma {:induction false} LoggedInTwo(plan: seq<ActionType>, s: Sys, a: seq<Step>, m: Sys, b: seq<Step>, t: Sys,
        logs: map<nat, Log>)
    requires Leads(plan, s, a, m) && Leads(plan, s, a + b, t)
    ensures Leads(plan, m, b, t)
    ensures AllLogged(plan, s, a + b, t, logs) == AllLogged(plan, m, b, t, AllLogged(plan, s, a, m, logs))
    decreases |a|
  {
    hide Apply, Enabled, Logged;
    if a == [] {
      assert a + b == b;
    } else {
      assert (a + b)[1..] == a[1..] + b && (a + b)[0] == a[0];
      LoggedInTwo(plan, Apply(plan, s, a[0]), a[1..], m, b, t, Logged(plan, s, a[0], logs));
    }
  }

  /** The last step of a history that was `past` when worker `me` began has deferred it or closed the run
      as successful: what the contract of ExecuteRule says of its log is one stay, which hands over to
      the next worker or is the last one. */
  lemma {:induction false} LoopMakesStay(plan: seq<ActionType>, lease: int, past: seq<Step>, first: Sys,
        before: map<nat, Log>, steps: seq<Step>, t: Sys, logs: map<nat, Log>, me: nat, run: Run, calls: seq<Call>)
    returns (s: Sys, g: Stay)
    requires Explains(plan, lease, past, first, before) && Explains(plan, lease, past + steps, t, logs)
    requires me !in first.workers && PcOf(t, me).Gone? && me in logs && logs[me] == Log(run, calls)
    requires steps != [] && Undisturbed(steps, me)
    requires (steps[|steps| - 1].Defer? || steps[|steps| - 1].FinishSuccess?) && steps[|steps| - 1].w == me
    ensures g.w == me && s.run == run && Works(plan, s, g) && CallsIn(plan, s, g) == calls
    ensures if steps[|steps| - 1].Defer? then g.next == t && HandsOver(plan, g) else g.last.workers[me].cursor >= |plan|
  {
    hide Apply, Enabled, Logged, AllLogged;
    var most, last := steps[..|steps| - 1], steps[|steps| - 1];
    LoggedInTwo(plan, Initial(lease), past, first, steps, t, map[]);
    var d := SplitLast(plan, first, steps, t, before);
    EnabledIsThere(plan, d, last);
    var pre, work;
    pre, s, work := SplitAtAttach(plan, first, most, d, me);
    assert pre + [Attach(me)] + work == pre + ([Attach(me)] + work);
    LoggedInTwo(plan, first, pre, s, [Attach(me)] + work, d, before);
    var seen := AllLogged(plan, first, pre, s, before);
    AttachIsFirst(plan, s, work, d, me, seen);
    LogKeepsRun(plan, Apply(plan, s, Attach(me)), work, d, me, seen[me := Log(s.run, [])], map[me := Log(s.run, [])]);
    g := Stay(me, work, d, [last], t);
    WorkIsUndisturbed(steps, pre, work, last, me);
    LastStepEndsStay(plan, s, g, last, AllLogged(plan, first, most, d, before));
  }

  lemma EnabledIsThere(plan: seq<ActionType>, d: Sys, last: Step)
    requires Enabled(plan, d, last) && (last.Defer? || last.FinishSuccess?)
    ensures last.w in d.workers
  {
  }

  lemma {:induction false} AttachIsFirst(plan: seq<ActionType>, s: Sys, work: seq<Step>, d: Sys, w: nat,
        logs: map<nat, Log>)
    requires w !in s.workers && Leads(plan, Apply(plan, s, Attach(w)), work, d)
    ensures Leads(plan, s, [Attach(w)] + work, d)
    ensures AllLogged(plan, s, [Attach(w)] + work, d, logs)
            == AllLogged(plan, Apply(plan, s, Attach(w)), work, d, logs[w := Log(s.run, [])])
    ensures w in Apply(plan, s, Attach(w)).workers
  {
    assert ([Attach(w)] + work)[1..] == work;
  }

  lemma {:induction false} LastStepEndsStay(plan: seq<ActionType>, s: Sys, g: Stay, last: Step, logs: map<nat, Log>)
    requires g.w !in s.workers && Leads(plan, Apply(plan, s, Attach(g.w)), g.work, g.last) && Undisturbed(g.work, g.w)
    requires (last.Defer? || last.FinishSuccess?) && last.w == g.w && g.gap == [last]
    requires Enabled(plan, g.last, last) && g.next == Apply(plan, g.last, last) && PcOf(g.next, g.w).Gone?
    ensures Works(plan, s, g) && Logged(plan, g.last, last, logs) == logs && g.w in g.last.workers
    ensures if last.Defer? then HandsOver(plan, g) else g.last.workers[g.w].cursor >= |plan|
  {
    assert [last][1..] == [];
  }

  lemma WorkIsUndisturbed(steps: seq<Step>, pre: seq<Step>, work: seq<Step>, last: Step, w: nat)
    requires Undisturbed(steps, w) && steps == pre + [Attach(w)] + work + [last]
    ensures Undisturbed(work, w)
  {
    forall k | 0 <= k < |work|
      ensures IsStepOf(work[k], w) || LeavesRow(work[k])
    {
      assert work[k] == steps[|pre| + 1 + k];
    }
  }

  // ---- a run in two stays -----------------------------------------------------------------------------------------

  /** A row of two texts that worker w may go on with, and what it is after one more text. */
  predicate AtText(s: Sys, w: nat) {
    w !in s.workers && s.run.status.Running? && !s.run.started && s.run.cursor < 2 && s.run.proof == EMPTY_PROOF
  }

  predicate OneTextOn(s: Sys, last: Sys, w: nat) {
    && w in last.workers && last.workers.Keys == s.workers.Keys + {w}
    && last.workers[w] == Worker(s.run.attempt, s.run.cursor + 1, s.run.sent + 1, EMPTY_PROOF, AtLoop)
    && last.run == s.run.(cursor := s.run.cursor + 1, sent := s.run.sent + 1, lease := 300)
  }

  function TextLog(s: Sys, w: nat, calls: seq<Call>): map<nat, Log> {
    map[w := Log(s.run, calls)]
  }

  /** Worker w reads the row, opens its checkpoint and sends the text. */
  lemma {:induction false} OpensText(plan: seq<ActionType>, s: Sys, w: nat) returns (work: seq<Step>, m: Sys)
    requires plan == [SendText, SendText] && AtText(s, w)
    ensures work == [Start(w, 300, NoFault), Act(w, TEXT_SENT)]
    ensures Leads(plan, Apply(plan, s, Attach(w)), work, m)
    ensures AllLogged(plan, Apply(plan, s, Attach(w)), work, m, TextLog(s, w, [])) == TextLog(s, w, [])
    ensures m.run == Started(s.run, 300) && m.workers.Keys == s.workers.Keys + {w}
    ensures w in m.workers && m.workers[w] == Worker(s.run.attempt, s.run.cursor, s.run.sent, EMPTY_PROOF,
        Returned(|s.tries|, TEXT_SENT))
    ensures |m.tries| == |s.tries| + 1
  {
    var s1 := Apply(plan, s, Attach(w));
    assert Leads(plan, s1, [], s1);
    OneMoreStep(plan, s1, [], s1, Start(w, 300, NoFault), TextLog(s, w, []));
    var s2 := Apply(plan, s1, Start(w, 300, NoFault));
    assert [] + [Start(w, 300, NoFault)] == [Start(w, 300, NoFault)];
    OneMoreStep(plan, s1, [Start(w, 300, NoFault)], s2, Act(w, TEXT_SENT), TextLog(s, w, []));
    m := Apply(plan, s2, Act(w, TEXT_SENT));
    work := [Start(w, 300, NoFault)] + [Act(w, TEXT_SENT)];
  }

  lemma {:induction false} SendsText(plan: seq<ActionType>, s: Sys, w: nat) returns (work: seq<Step>, last: Sys)
    requires plan == [SendText, SendText] && AtText(s, w)
    ensures Leads(plan, Apply(plan, s, Attach(w)), work, last) && Undisturbed(work, w)
    ensures OneTextOn(s, last, w)
    ensures AllLogged(plan, Apply(plan, s, Attach(w)), work, last, TextLog(s, w, []))
            == TextLog(s, w, [Call(s.run.cursor, SendText, EMPTY_PROOF, TEXT_SENT)])
  {
    var first, m := OpensText(plan, s, w);
    OneMoreStep(plan, Apply(plan, s, Attach(w)), first, m, Advance(w, NoFault), TextLog(s, w, []));
    work, last := first + [Advance(w, NoFault)], ApplyAdvance(plan, m, w, NoFault);
    assert [] + [Call(s.run.cursor, SendText, EMPTY_PROOF, TEXT_SENT)]
        == [Call(s.run.cursor, SendText, EMPTY_PROOF, TEXT_SENT)];
  }

  lemma {:induction false} OneTextIsStay(plan: seq<ActionType>, s: Sys, g: Stay)
    requires plan == [SendText, SendText] && AtText(s, g.w) && OneTextOn(s, g.last, g.w)
    requires Leads(plan, Apply(plan, s, Attach(g.w)), g.work, g.last) && Undisturbed(g.work, g.w)
    requires AllLogged(plan, Apply(plan, s, Attach(g.w)), g.work, g.last, TextLog(s, g.w, []))
             == TextLog(s, g.w, [Call(s.run.cursor, SendText, EMPTY_PROOF, TEXT_SENT)])
    ensures Works(plan, s, g) && CallsIn(plan, s, g) == [Call(s.run.cursor, SendText, EMPTY_PROOF, TEXT_SENT)]
  {
  }

  /** Worker 0 is deferred, and the row is claimed when its lease is over. */
  lemma {:induction false} DefersText(plan: seq<ActionType>, s: Sys, d: Sys) returns (gap: seq<Step>, m: Sys)
    requires plan == [SendText, SendText] && AtText(s, 0) && s.workers == map[] && s.run.cursor == 0
        && OneTextOn(s, d, 0)
    ensures gap == [Defer(0, 360, NoFault, true), Claim(400, 700, NoFault)] && Leads(plan, d, gap, m)
    ensures PcOf(Apply(plan, d, gap[0]), 0).Gone?
    ensures AtText(m, 1) && m.run.cursor == 1 && m.run.sent == d.run.sent
  {
    gap := [Defer(0, 360, NoFault, true), Claim(400, 700, NoFault)];
    var d1 := Apply(plan, d, gap[0]);
    m := Apply(plan, d1, gap[1]);
    assert gap[1..] == [gap[1]] && gap[1..][1..] == [];
    assert Leads(plan, d1, gap[1..], m);
  }

  /** The second of two texts waits a minute: worker 0 sends the first one and is deferred, the row is
      claimed when its lease is over, and worker 1 sends the second one. */
  lemma {:induction false} TwoStays(plan: seq<ActionType>, delays: seq<nat>, exec: Executor)
    returns (stays: seq<Stay>, t: Sys)
    requires plan == [SendText, SendText] && delays == [0, 60] && forall p, proof :: exec(p, proof) == TEXT_SENT
    ensures DeferredRun(plan, delays, exec, Initial(LEASE_SECONDS), -1, stays, t) && |stays| == 2
    ensures t.run.sent == 2 && DeferredAt(stays) == [1]
  {
    hide Works, CallsIn, Leads, AllLogged, Apply, Enabled;
    var s := Initial(LEASE_SECONDS);
    var work, d := SendsText(plan, s, 0);
    var gap, m := DefersText(plan, s, d);
    var g := Stay(0, work, d, gap, m);
    OneTextIsStay(plan, s, g);
    assert HandsOver(plan, g);
    var work1;
    work1, t := SendsText(plan, m, 1);
    var g1 := Stay(1, work1, t, [], t);
    OneTextIsStay(plan, m, g1);
    stays := [g, g1];
    assert stays[1..] == [g1] && DeferredAt([g1]) == [];
    assert DeferredRun(plan, delays, exec, m, 1, [g1], t);
  }

}

/**
  How a deferred task remembers its run: the number is stored as JSON, read back as a floating-point
  number, printed, and parsed again.
 */
module DeferredRunId {
  import opened Wrappers
  import opened Money

  function Decimal(n: nat): string {
    var last := ('0' as int + n % 10) as char;
    if n < 10 then [last] else Decimal(n / 10) + [last]
  }

  function Size(n: nat): nat {
    if n < 10 then 1 else 1 + Size(n / 10)
  }

  /** The significant digits of a number: zeros at the end are dropped. */
  function Significant(n: nat): string
    requires n > 0
  {
    if n % 10 == 0 then Significant(n / 10) else Decimal(n)
  }

  /** fmt.Sprint of a whole float64: the shortest form, with an exponent from a million on. */
  function Printed(n: nat): string {
    if n < 1_000_000 then Decimal(n)
    else
      var d := Significant(n);
      var mantissa := if |d| <= 1 then d else d[..1] + "." + d[1..];
      var e := Decimal(Size(n) - 1);
      mantissa + "e+" + (if |e| == 1 then "0" + e else e)
  }

  /** taskAutomationRunID. */
  function TaskRunId(n: nat): Option<int> {
    ParseInt(Printed(n))
  }

  lemma {:induction false} DecimalReads(n: nat)
    ensures Decimal(n) != "" && Digits(Decimal(n)) && Value(Decimal(n)) == n
    decreases n
  {
    var s := Decimal(n);
    if n >= 10 {
      DecimalReads(n / 10);
      assert s[..|s| - 1] == Decimal(n / 10);
    } else {
      assert s[..0] == "";
    }
  }

  /** A deferred task finds its run again exactly when the number of the run is below a million. */
  lemma RunIsFoundExactly(n: nat)
    ensures TaskRunId(n) == Some(n) <==> n < 1_000_000
  {
    if n < 1_000_000 {
      DecimalReads(n);
      assert IsDigit(Decimal(n)[0]);
    } else {
      ExponentDoesNotParse(n);
    }
  }

  lemma ExponentDoesNotParse(n: nat)
    requires n >= 1_000_000
    ensures TaskRunId(n).None?
  {
    var s := Printed(n);
    if TaskRunId(n).Some? {
      ParsedShape(s);
    }
    var d := Significant(n);
    var mantissa := if |d| <= 1 then d else d[..1] + "." + d[1..];
    assert s[|mantissa| + 1] == '+';
  }
}
