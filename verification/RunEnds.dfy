/** Why a worker has stopped and how it has tried to close its run, as its steps tell. */
module RunEnds {
  import opened RunTable
  import opened RunProtocol
  import opened Wrappers

  /** What a worker has stopped for. */
  datatype Cause =
    | Unspoiled
    | NoCard                          // a paid order without a matching card
    | DelayUnknown                    // the delay of an action could not be read
    | NotDeferred                     // a lease or a deferred task was not stored
    | NoCheckpoint                       // no checkpoint before an action
    | Denied(result: ActionResult)    // an action reported that nothing was done
    | Doubtful(result: ActionResult)  // an action whose outcome is open
    | StuckThere                      // a checkpoint could not be released or advanced

  /** The cause, and the status a worker has tried to close the run with. */
  datatype EndNote = EndNote(cause: Cause, close: Option<Status>)

  function NoteCause(ends: map<nat, EndNote>, w: nat, cause: Cause): map<nat, EndNote> {
    if w in ends then ends[w := ends[w].(cause := cause)] else ends
  }

  function NoteClose(ends: map<nat, EndNote>, w: nat, status: Status): map<nat, EndNote> {
    if w in ends then ends[w := ends[w].(close := Some(status))] else ends
  }

  /** The notes after a step. */
  function Noted(plan: seq<ActionType>, s: Sys, step: Step, ends: map<nat, EndNote>): map<nat, EndNote>
    requires Enabled(plan, s, step)
  {
    match step
    case Attach(w) => ends[w := EndNote(Unspoiled, None)]
    case Reject(w) => NoteCause(ends, w, NoCard)
    case DelayFails(w) => NoteCause(ends, w, DelayUnknown)
    case Defer(w, _, fault, stored) =>
      if Owned(s.run, s.workers[w].attempt) && fault.NoFault? && stored then ends else NoteCause(ends, w, NotDeferred)
    case Start(w, _, fault) =>
      if CanStart(s.run, s.workers[w].attempt, s.workers[w].cursor) && fault.NoFault? then ends
      else NoteCause(ends, w, NoCheckpoint)
    case Abort(w, fault) =>
      if CanAbort(s.run, s.workers[w].attempt, s.workers[w].cursor) && fault.NoFault?
      then NoteCause(ends, w, Denied(s.workers[w].pc.result))
      else ends
    case ReviewAction(w, _, _) => NoteCause(ends, w, Doubtful(s.workers[w].pc.result))
    case QuarantineStuck(w, _, _) => NoteCause(ends, w, StuckThere)
    case FinishSuccess(w, _, _) => NoteClose(ends, w, Success)
    case FinishFailed(w, _, _, _, _) => NoteClose(ends, w, Failed)
    case _ => ends
  }

  ghost function AllNoted(plan: seq<ActionType>, s: Sys, steps: seq<Step>, t: Sys, ends: map<nat, EndNote>):
      map<nat, EndNote>
    requires Leads(plan, s, steps, t)
    decreases |steps|
  {
    if steps == [] then ends
    else AllNoted(plan, Apply(plan, s, steps[0]), steps[1..], t, Noted(plan, s, steps[0], ends))
  }

  lemma {:induction false} OneMoreNote(plan: seq<ActionType>, s: Sys, steps: seq<Step>, t: Sys, step: Step,
        ends: map<nat, EndNote>)
    requires Leads(plan, s, steps, t) && Enabled(plan, t, step)
    requires Leads(plan, s, steps + [step], Apply(plan, t, step))
    ensures AllNoted(plan, s, steps + [step], Apply(plan, t, step), ends)
            == Noted(plan, t, step, AllNoted(plan, s, steps, t, ends))
    decreases |steps|
  {
    hide Apply, Enabled, Noted;
    if steps == [] {
      assert [step][1..] == [];
    } else {
      assert (steps + [step])[1..] == steps[1..] + [step];
      OneMoreNote(plan, Apply(plan, s, steps[0]), steps[1..], t, step, Noted(plan, s, steps[0], ends));
    }
  }

  /** The error a worker closes the run with is that of its cause. */
  predicate Explained(cause: Cause, err: ActionError) {
    match cause
    case NoCard => err.OtherError?
    case DelayUnknown => err.OtherError?
    case NotDeferred => err.OtherError?
    case NoCheckpoint => err.OtherError?
    case Denied(result) => NotDone(result) && err == result.err
    case _ => false
  }

  /** The error a cause stands for. */
  function ErrorOf(cause: Cause): ActionError {
    if cause.Denied? then cause.result.err else OtherError
  }

  /** The worker has stopped at an action whose outcome is not known or not stored. */
  predicate LeftOpen(cause: Cause) {
    (cause.Doubtful? && Unsure(cause.result)) || cause.StuckThere?
  }

  lemma OtherStepLeavesNote(plan: seq<ActionType>, s: Sys, step: Step, ends: map<nat, EndNote>, me: nat)
    requires Enabled(plan, s, step) && !IsStepOf(step, me)
    ensures me in Noted(plan, s, step, ends) <==> me in ends
    ensures me in ends ==> Noted(plan, s, step, ends)[me] == ends[me]
  {
  }

  /** Steps of others do not change what is noted of a worker. */
  lemma {:induction false} OthersLeaveNote(plan: seq<ActionType>, s: Sys, steps: seq<Step>, t: Sys, me: nat,
        ends: map<nat, EndNote>)
    requires Leads(plan, s, steps, t) && (forall k :: 0 <= k < |steps| ==> !IsStepOf(steps[k], me)) && me in ends
    ensures me in AllNoted(plan, s, steps, t, ends) && AllNoted(plan, s, steps, t, ends)[me] == ends[me]
    decreases |steps|
  {
    hide Apply, Enabled, Noted;
    if steps != [] {
      OtherStepLeavesNote(plan, s, steps[0], ends, me);
      OthersLeaveNote(plan, Apply(plan, s, steps[0]), steps[1..], t, me, Noted(plan, s, steps[0], ends));
    }
  }

  /** What is noted is what happened: a worker about to close a run as failed has a cause for it, and one at
      work has none. */
  predicate NoteOk(s: Sys, ends: map<nat, EndNote>, w: nat) {
    w in ends && w in s.workers ==>
      var pc, cause := s.workers[w].pc, ends[w].cause;
      && (pc.Rejected? ==> cause.NoCard?)
      && (pc.Failing? ==> !cause.NoCard? && Explained(cause, pc.err))
      && (pc.AtLoop? || pc.Opened? || pc.Returned? || pc.Stuck? ==> cause.Unspoiled?)
      && (!pc.Gone? && !pc.CloseFailed? ==> ends[w].close.None?)
  }

  predicate NotesOk(s: Sys, ends: map<nat, EndNote>) {
    forall w :: w in ends ==> NoteOk(s, ends, w)
  }

  lemma OwnStepKeepsNote(plan: seq<ActionType>, s: Sys, step: Step, ends: map<nat, EndNote>, w: nat)
    requires NoteOk(s, ends, w) && Enabled(plan, s, step) && IsStepOf(step, w)
    ensures NoteOk(Apply(plan, s, step), Noted(plan, s, step, ends), w)
  {
  }

  lemma OtherStepKeepsNote(plan: seq<ActionType>, s: Sys, step: Step, ends: map<nat, EndNote>, w: nat)
    requires NoteOk(s, ends, w) && Enabled(plan, s, step) && !IsStepOf(step, w)
    ensures NoteOk(Apply(plan, s, step), Noted(plan, s, step, ends), w)
  {
    hide NoteOk, Explained;
    OtherStepLeavesNote(plan, s, step, ends, w);
    OtherStepLeavesWorker(plan, s, step, w);
    SameNote(s, ends, Apply(plan, s, step), Noted(plan, s, step, ends), w);
  }

  lemma OtherStepLeavesWorker(plan: seq<ActionType>, s: Sys, step: Step, w: nat)
    requires Enabled(plan, s, step) && !IsStepOf(step, w)
    ensures w in Apply(plan, s, step).workers <==> w in s.workers
    ensures w in s.workers ==> Apply(plan, s, step).workers[w] == s.workers[w]
  {
  }

  lemma SameNote(s: Sys, ends: map<nat, EndNote>, t: Sys, later: map<nat, EndNote>, w: nat)
    requires NoteOk(s, ends, w) && (w in later <==> w in ends) && (w in t.workers <==> w in s.workers)
    requires w in ends ==> later[w] == ends[w]
    requires w in s.workers ==> t.workers[w] == s.workers[w]
    ensures NoteOk(t, later, w)
  {
  }

  lemma StepKeepsNotes(plan: seq<ActionType>, s: Sys, step: Step, ends: map<nat, EndNote>)
    requires NotesOk(s, ends) && Enabled(plan, s, step)
    ensures NotesOk(Apply(plan, s, step), Noted(plan, s, step, ends))
  {
    hide NoteOk, Apply, Enabled, Noted;
    forall w | w in Noted(plan, s, step, ends)
      ensures NoteOk(Apply(plan, s, step), Noted(plan, s, step, ends), w)
    {
      assert NoteOk(s, ends, w) by {
        if w !in ends {
          NoNote(s, ends, w);
        }
      }
      if IsStepOf(step, w) {
        OwnStepKeepsNote(plan, s, step, ends, w);
      } else {
        OtherStepKeepsNote(plan, s, step, ends, w);
      }
    }
  }

  lemma NotedWorkers(plan: seq<ActionType>, s: Sys, step: Step, ends: map<nat, EndNote>)
    requires Enabled(plan, s, step) && ends.Keys == s.workers.Keys
    ensures Noted(plan, s, step, ends).Keys == Apply(plan, s, step).workers.Keys
  {
  }

  /** The history leads from the new row to this state, and the notes are those of the history. */
  ghost predicate EndsKnown(plan: seq<ActionType>, lease: int, history: seq<Step>, s: Sys, ends: map<nat, EndNote>) {
    Leads(plan, Initial(lease), history, s) && ends == AllNoted(plan, Initial(lease), history, s, map[])
  }

  lemma OneMoreKnown(plan: seq<ActionType>, lease: int, history: seq<Step>, s: Sys, ends: map<nat, EndNote>, step: Step)
    requires EndsKnown(plan, lease, history, s, ends) && Enabled(plan, s, step)
    requires Leads(plan, Initial(lease), history + [step], Apply(plan, s, step))
    ensures EndsKnown(plan, lease, history + [step], Apply(plan, s, step), Noted(plan, s, step, ends))
  {
    hide Apply, Enabled, Noted, Initial;
    OneMoreNote(plan, Initial(lease), history, s, step, map[]);
  }

  lemma KnownNote(plan: seq<ActionType>, lease: int, history: seq<Step>, s: Sys, ends: map<nat, EndNote>, w: nat)
    requires EndsKnown(plan, lease, history, s, ends) && w in ends
    ensures NoteOk(s, ends, w)
  {
    hide NoteOk;
    ReachableNotes(plan, Initial(lease), history, s, map[]);
  }

  lemma NoNote(s: Sys, ends: map<nat, EndNote>, w: nat)
    requires w !in ends
    ensures NoteOk(s, ends, w)
  {
  }

  /** In every run a worker that tries to close it as failed has a recorded reason: it found no card, or a
      delay, a deferral or a checkpoint failed, or its action reported that nothing was done. */
  lemma {:induction false} ReachableNotes(plan: seq<ActionType>, s: Sys, steps: seq<Step>, t: Sys,
        ends: map<nat, EndNote>)
    requires NotesOk(s, ends) && Leads(plan, s, steps, t)
    ensures NotesOk(t, AllNoted(plan, s, steps, t, ends))
    decreases |steps|
  {
    hide NotesOk, Apply, Enabled, Noted;
    if steps != [] {
      StepKeepsNotes(plan, s, steps[0], ends);
      ReachableNotes(plan, Apply(plan, s, steps[0]), steps[1..], t, Noted(plan, s, steps[0], ends));
    }
  }
}
