/**
  The account supervisor: one running instance per account, started, stopped and restarted by any
  number of callers. Each step is one section under the manager's lock or the end of an instance.
 */
module AccountManager {

  /** A managed account; instances are told apart by number. `done` once its goroutine has ended. */
  datatype Instance = Instance(account: string, stopping: bool, done: bool)

  /** Where a StopContext stands. */
  datatype Stop = Waiting(account: string, id: nat) | Removing(account: string, id: nat) | Stopped(ok: bool)

  /** Where a StopAllContext stands: the accounts still to stop, and the one being stopped. */
  datatype StopAll =
    | Between(rest: seq<string>)
    | During(rest: seq<string>, stop: Stop)
    | AllStopped(ok: bool, foundEmpty: bool)

  datatype State = State(
    accounts: map<string, nat>, instances: map<nat, Instance>,
    fenced: set<string>, stoppingAll: bool,
    stops: map<nat, Stop>, alls: map<nat, StopAll>)

  function Initial(): State {
    State(map[], map[], {}, false, map[], map[])
  }

  datatype Step =
    | Start(account: string, id: nat)
    | Exit(id: nat)
    | BeginStopping(account: string)
    | EndStopping(account: string)
    | StopMark(t: nat, account: string)
    | StopGivesUp(t: nat)
    | StopSeesDone(t: nat)
    | StopRemoves(t: nat)
    | AllBegin(t: nat, order: seq<string>)
    | AllMark(t: nat)
    | AllGivesUp(t: nat)
    | AllSeesDone(t: nat)
    | AllRemoves(t: nat)
    | AllCheck(t: nat)

  // ---- sections ---------------------------------------------------------------------------------------------

  predicate Known(s: State, account: string) {
    account in s.accounts && s.accounts[account] in s.instances
  }

  /** The account may be started: no fence is up, and an older instance has ended by itself. */
  predicate MayStart(s: State, account: string) {
    && !s.stoppingAll && account !in s.fenced
    && (Known(s, account) ==> !s.instances[s.accounts[account]].stopping && s.instances[s.accounts[account]].done)
  }

  function Started(s: State, account: string, id: nat): State {
    if MayStart(s, account)
    then s.(accounts := s.accounts[account := id], instances := s.instances[id := Instance(account, false, false)])
    else s
  }

  /** The first section of StopContext. */
  function Marked(s: State, account: string): State {
    if Known(s, account)
    then var id := s.accounts[account]; s.(instances := s.instances[id := s.instances[id].(stopping := true)])
    else s
  }

  function AfterMark(s: State, account: string): Stop {
    if Known(s, account) then Waiting(account, s.accounts[account]) else Stopped(true)
  }

  /** The last section of StopContext: only the instance that was waited for is removed. */
  function Removed(s: State, account: string, id: nat): State {
    if account in s.accounts && s.accounts[account] == id then s.(accounts := s.accounts - {account}) else s
  }

  predicate IsDone(s: State, id: nat) {
    id in s.instances && s.instances[id].done
  }

  // ---- steps ------------------------------------------------------------------------------------------------

  predicate StopIs(s: State, t: nat, waiting: bool) {
    t in s.stops && (if waiting then s.stops[t].Waiting? else s.stops[t].Removing?)
  }

  predicate AllIs(s: State, t: nat, waiting: bool) {
    t in s.alls && s.alls[t].During? && (if waiting then s.alls[t].stop.Waiting? else s.alls[t].stop.Removing?)
  }

  predicate Enabled(s: State, step: Step) {
    match step
    case Start(_, id) => id !in s.instances
    case Exit(id) => id in s.instances
    case BeginStopping(_) => true
    case EndStopping(_) => true
    case StopMark(t, _) => t !in s.stops
    case StopGivesUp(t) => StopIs(s, t, true)
    case StopSeesDone(t) => StopIs(s, t, true) && IsDone(s, s.stops[t].id)
    case StopRemoves(t) => StopIs(s, t, false)
    case AllBegin(t, order) => t !in s.alls && (set a | a in order) == s.accounts.Keys
    case AllMark(t) => t in s.alls && s.alls[t].Between? && s.alls[t].rest != []
    case AllGivesUp(t) => AllIs(s, t, true)
    case AllSeesDone(t) => AllIs(s, t, true) && IsDone(s, s.alls[t].stop.id)
    case AllRemoves(t) => AllIs(s, t, false)
    case AllCheck(t) => t in s.alls && s.alls[t].Between? && s.alls[t].rest == []
  }

  function PutStop(s: State, t: nat, stop: Stop): State {
    s.(stops := s.stops[t := stop])
  }

  function PutAll(s: State, t: nat, all: StopAll): State {
    s.(alls := s.alls[t := all])
  }

  function Apply(s: State, step: Step): State
    requires Enabled(s, step)
  {
    match step
    case Start(account, id) => Started(s, account, id)
    case Exit(id) => s.(instances := s.instances[id := s.instances[id].(done := true)])
    case BeginStopping(account) => s.(fenced := s.fenced + {account})
    case EndStopping(account) => s.(fenced := s.fenced - {account})
    case StopMark(t, account) => PutStop(Marked(s, account), t, AfterMark(s, account))
    case StopGivesUp(t) => PutStop(s, t, Stopped(false))
    case StopSeesDone(t) => PutStop(s, t, Removing(s.stops[t].account, s.stops[t].id))
    case StopRemoves(t) => PutStop(Removed(s, s.stops[t].account, s.stops[t].id), t, Stopped(true))
    case AllBegin(t, order) => PutAll(s.(stoppingAll := true), t, Between(order))
    case AllMark(t) =>
      var rest := s.alls[t].rest;
      var stop := AfterMark(s, rest[0]);
      PutAll(Marked(s, rest[0]), t, if stop.Stopped? then Between(rest[1..]) else During(rest[1..], stop))
    case AllGivesUp(t) => PutAll(s, t, AllStopped(false, false))
    case AllSeesDone(t) =>
      var all := s.alls[t];
      PutAll(s, t, During(all.rest, Removing(all.stop.account, all.stop.id)))
    case AllRemoves(t) =>
      var all := s.alls[t];
      PutAll(Removed(s, all.stop.account, all.stop.id), t, Between(all.rest))
    case AllCheck(t) =>
      var empty := s.accounts == map[];
      PutAll(s.(stoppingAll := s.stoppingAll && !empty), t, AllStopped(true, empty))
  }

  ghost predicate Leads(s: State, steps: seq<Step>, t: State)
    decreases |steps|
  {
    if steps == [] then s == t
    else Enabled(s, steps[0]) && Leads(Apply(s, steps[0]), steps[1..], t)
  }

  // ---- one instance per account -----------------------------------------------------------------------------

  predicate TableOk(s: State) {
    forall a :: a in s.accounts ==> s.accounts[a] in s.instances && s.instances[s.accounts[a]].account == a
  }

  /** A running instance is the one the table holds for its account. */
  predicate LiveOk(s: State) {
    forall id :: id in s.instances && !s.instances[id].done ==>
      s.instances[id].account in s.accounts && s.accounts[s.instances[id].account] == id
  }

  /** Whoever is about to remove an instance has seen its end. */
  predicate StopsOk(s: State) {
    && (forall t :: t in s.stops && s.stops[t].Removing? ==> IsDone(s, s.stops[t].id))
    && (forall t :: t in s.alls && s.alls[t].During? && s.alls[t].stop.Removing? ==> IsDone(s, s.alls[t].stop.id))
  }

  predicate Inv(s: State) {
    TableOk(s) && LiveOk(s) && StopsOk(s)
  }

  lemma MarkKeepsInv(s: State, account: string)
    requires Inv(s)
    ensures Inv(Marked(s, account)) && Marked(s, account).accounts == s.accounts
  {
  }

  lemma RemovalKeepsInv(s: State, account: string, id: nat)
    requires Inv(s) && IsDone(s, id)
    ensures Inv(Removed(s, account, id))
  {
  }

  lemma StopStepKeepsInv(s: State, step: Step)
    requires Inv(s) && Enabled(s, step)
    requires step.StopMark? || step.StopGivesUp? || step.StopSeesDone? || step.StopRemoves?
    ensures Inv(Apply(s, step))
  {
    match step
    case StopMark(_, account) => MarkKeepsInv(s, account);
    case StopRemoves(t) => RemovalKeepsInv(s, s.stops[t].account, s.stops[t].id);
    case _ =>
  }

  lemma AllStepKeepsInv(s: State, step: Step)
    requires Inv(s) && Enabled(s, step) && IsAllStep(step)
    ensures Inv(Apply(s, step))
  {
    match step
    case AllMark(t) => MarkKeepsInv(s, s.alls[t].rest[0]);
    case AllRemoves(t) => RemovalKeepsInv(s, s.alls[t].stop.account, s.alls[t].stop.id);
    case _ =>
  }

  predicate IsAllStep(step: Step) {
    step.AllBegin? || step.AllMark? || step.AllGivesUp? || step.AllSeesDone? || step.AllRemoves? || step.AllCheck?
  }

  lemma StartKeepsInv(s: State, account: string, id: nat)
    requires Inv(s) && id !in s.instances
    ensures Inv(Started(s, account, id))
  {
  }

  lemma StepKeepsInv(s: State, step: Step)
    requires Inv(s) && Enabled(s, step)
    ensures Inv(Apply(s, step))
  {
    match step
    case Start(account, id) => StartKeepsInv(s, account, id);
    case Exit(id) =>
    case BeginStopping(_) =>
    case EndStopping(_) =>
    case StopMark(_, _) => StopStepKeepsInv(s, step);
    case StopGivesUp(_) => StopStepKeepsInv(s, step);
    case StopSeesDone(_) => StopStepKeepsInv(s, step);
    case StopRemoves(_) => StopStepKeepsInv(s, step);
    case _ => AllStepKeepsInv(s, step);
  }

  lemma {:induction false} ReachableInv(s: State, steps: seq<Step>, t: State)
    requires Inv(s) && Leads(s, steps, t)
    ensures Inv(t)
    decreases |steps|
  {
    if steps != [] {
      StepKeepsInv(s, steps[0]);
      ReachableInv(Apply(s, steps[0]), steps[1..], t);
    }
  }

  /** In every interleaving a running instance is in the table, and no account has two. */
  lemma OneLiveInstance(steps: seq<Step>, t: State, i: nat, j: nat)
    requires Leads(Initial(), steps, t)
    requires i in t.instances && j in t.instances && !t.instances[i].done && !t.instances[j].done
    ensures t.instances[i].account in t.accounts && t.accounts[t.instances[i].account] == i
    ensures t.instances[i].account == t.instances[j].account ==> i == j
  {
    ReachableInv(Initial(), steps, t);
  }

  /** The account has a running instance that nobody is stopping. */
  predicate Runs(s: State, account: string) {
    Known(s, account) && !s.instances[s.accounts[account]].done && !s.instances[s.accounts[account]].stopping
  }

  /** A fence is up, or somebody is stopping the account's instance. */
  predicate Refused(s: State, account: string) {
    || s.stoppingAll || account in s.fenced
    || (account in s.accounts && s.accounts[account] in s.instances && s.instances[s.accounts[account]].stopping)
  }

  /** Start leaves the account with a running instance exactly when it is not refused, also after an older
      instance has ended by itself, and a running one is left as it is. An instance that is being stopped is
      not replaced. */
  lemma StartMakesItRun(s: State, account: string, id: nat)
    requires id !in s.instances
    ensures Runs(Started(s, account, id), account) <==> !Refused(s, account) || Runs(s, account)
    ensures Refused(s, account) || Runs(s, account) ==> Started(s, account, id) == s
    ensures Known(s, account) ==> Started(Marked(s, account), account, id) == Marked(s, account)
  {
  }

  // ---- stopping all -----------------------------------------------------------------------------------------

  predicate IsActive(all: StopAll) {
    !all.AllStopped?
  }

  /** A StopAllContext begins only when no other is under way. */
  predicate Alone(s: State, step: Step) {
    step.AllBegin? ==> forall t :: t in s.alls ==> !IsActive(s.alls[t])
  }

  ghost predicate NoOverlap(s: State, steps: seq<Step>, t: State)
    requires Leads(s, steps, t)
    decreases |steps|
  {
    steps != [] ==> Alone(s, steps[0]) && NoOverlap(Apply(s, steps[0]), steps[1..], t)
  }

  /** The table holds only accounts that the StopAllContext still has to stop, and the instance it
      waits for has not been replaced. */
  predicate AllOk(s: State, all: StopAll) {
    match all
    case Between(rest) => s.stoppingAll && forall a :: a in s.accounts ==> a in rest
    case During(rest, stop) =>
      && s.stoppingAll && !stop.Stopped?
      && (forall a :: a in s.accounts ==> a in rest || a == stop.account)
      && (stop.account in s.accounts ==> s.accounts[stop.account] == stop.id)
    case AllStopped(ok, foundEmpty) => ok ==> foundEmpty
  }

  predicate AllsOk(s: State) {
    && (forall t :: t in s.alls ==> AllOk(s, s.alls[t]))
    && (forall t, u :: t in s.alls && u in s.alls && IsActive(s.alls[t]) && IsActive(s.alls[u]) ==> t == u)
  }

  /** A step that adds no account to the table, replaces none and keeps the fence. */
  predicate Shrinks(s: State, n: State) {
    && n.stoppingAll == s.stoppingAll
    && forall a :: a in n.accounts ==> a in s.accounts && n.accounts[a] == s.accounts[a]
  }

  lemma ShrinkingKeepsAlls(s: State, n: State)
    requires AllsOk(s) && n.alls == s.alls && (Shrinks(s, n) || forall t :: t in s.alls ==> !IsActive(s.alls[t]))
    ensures AllsOk(n)
  {
    forall t | t in n.alls
      ensures AllOk(n, n.alls[t])
    {
      assert AllOk(s, s.alls[t]);
    }
  }

  lemma StartWaitsForAlls(s: State, account: string, id: nat)
    requires AllsOk(s)
    ensures Shrinks(s, Started(s, account, id)) || forall t :: t in s.alls ==> !IsActive(s.alls[t])
  {
    if MayStart(s, account) {
      forall t | t in s.alls
        ensures !IsActive(s.alls[t])
      {
        assert AllOk(s, s.alls[t]);
      }
    }
  }

  /** One StopAllContext goes on; the others have returned. */
  lemma OwnStepKeepsAlls(s: State, n: State, t: nat, all: StopAll)
    requires AllsOk(s) && t in s.alls && IsActive(s.alls[t]) && n.alls == s.alls[t := all] && AllOk(n, all)
    ensures AllsOk(n)
  {
    forall u | u in n.alls && u != t
      ensures AllOk(n, n.alls[u])
    {
      assert AllOk(s, s.alls[u]);
    }
  }

  lemma AllStepKeepsAlls(s: State, step: Step)
    requires TableOk(s) && AllsOk(s) && Enabled(s, step) && Alone(s, step) && IsAllStep(step)
    ensures AllsOk(Apply(s, step))
  {
    if step.AllBegin? {
      FirstAllIsOk(s, step.t, step.order);
    } else {
      assert AllOk(s, s.alls[step.t]);
      OwnStepKeepsAlls(s, Apply(s, step), step.t, Apply(s, step).alls[step.t]);
    }
  }

  lemma FirstAllIsOk(s: State, t: nat, order: seq<string>)
    requires AllsOk(s) && Enabled(s, AllBegin(t, order)) && Alone(s, AllBegin(t, order))
    ensures AllsOk(Apply(s, AllBegin(t, order)))
  {
    var n := Apply(s, AllBegin(t, order));
    forall u | u in n.alls
      ensures AllOk(n, n.alls[u])
    {
      assert u != t ==> AllOk(s, s.alls[u]);
      assert forall a :: a in order <==> a in (set b | b in order);
    }
  }

  lemma StepKeepsAlls(s: State, step: Step)
    requires TableOk(s) && AllsOk(s) && Enabled(s, step) && Alone(s, step)
    ensures AllsOk(Apply(s, step))
  {
    if IsAllStep(step) {
      AllStepKeepsAlls(s, step);
    } else {
      if step.Start? {
        StartWaitsForAlls(s, step.account, step.id);
      }
      ShrinkingKeepsAlls(s, Apply(s, step));
    }
  }

  lemma {:induction false} ReachableAlls(s: State, steps: seq<Step>, t: State)
    requires Inv(s) && AllsOk(s) && Leads(s, steps, t) && NoOverlap(s, steps, t)
    ensures AllsOk(t)
    decreases |steps|
  {
    if steps != [] {
      StepKeepsInv(s, steps[0]);
      StepKeepsAlls(s, steps[0]);
      ReachableAlls(Apply(s, steps[0]), steps[1..], t);
    }
  }

  /** A StopAllContext that overlaps no other and returns without error has found the table empty,
      whatever callers of Start, StopContext and Restart do meanwhile. */
  lemma StopAllFindsTableEmpty(steps: seq<Step>, t: State, u: nat)
    requires Leads(Initial(), steps, t) && NoOverlap(Initial(), steps, t)
    requires u in t.alls && t.alls[u].AllStopped? && t.alls[u].ok
    ensures t.alls[u].foundEmpty
  {
    ReachableAlls(Initial(), steps, t);
    assert AllOk(t, t.alls[u]);
  }

  // ---- when an overlapping StopAllContext misses an instance ------------------------------------------------

  /** Another call than u takes the global fence down. */
  predicate Lifts(s: State, step: Step, u: nat) {
    step.AllCheck? && step.t != u && s.stoppingAll && s.accounts == map[]
  }

  /** Instance `id` is started after another call than u has taken the fence down. */
  ghost predicate StartsAfterLift(s: State, steps: seq<Step>, t: State, id: nat, u: nat, lifted: bool)
    requires Leads(s, steps, t)
    decreases |steps|
  {
    && steps != []
    && (|| (lifted && steps[0].Start? && steps[0].id == id && MayStart(s, steps[0].account))
        || StartsAfterLift(Apply(s, steps[0]), steps[1..], t, id, u, lifted || Lifts(s, steps[0], u)))
  }

  lemma {:induction false} ReturnedStays(s: State, steps: seq<Step>, t: State, u: nat)
    requires Leads(s, steps, t) && u in s.alls && s.alls[u].AllStopped?
    ensures u in t.alls && t.alls[u].AllStopped?
    decreases |steps|
  {
    if steps != [] {
      ReturnedStays(Apply(s, steps[0]), steps[1..], t, u);
    }
  }

  lemma {:induction false} NewInstanceWasStarted(s: State, steps: seq<Step>, t: State, id: nat, u: nat, lifted: bool)
    requires Leads(s, steps, t) && id !in s.instances && id in t.instances
    requires lifted || s.stoppingAll
    requires u in t.alls && IsActive(t.alls[u])
    ensures StartsAfterLift(s, steps, t, id, u, lifted)
    decreases |steps|
  {
    if steps != [] {
      var n := Apply(s, steps[0]);
      if u in n.alls && n.alls[u].AllStopped? {
        ReturnedStays(n, steps[1..], t, u);
      }
      if id !in n.instances {
        NewInstanceWasStarted(n, steps[1..], t, id, u, lifted || Lifts(s, steps[0], u));
      }
    }
  }

  predicate ToStop(all: StopAll, account: string, id: nat) {
    match all
    case Between(rest) => account in rest
    case During(rest, stop) => account in rest || (!stop.Stopped? && account == stop.account && id == stop.id)
    case AllStopped(_, _) => true
  }

  /** An instance in the table that was there before u began is still to be stopped by u. */
  predicate Covered(s: State, u: nat, before: set<nat>) {
    && before <= s.instances.Keys && u in s.alls
    && (forall a :: a in s.accounts && s.accounts[a] in before ==> ToStop(s.alls[u], a, s.accounts[a]))
  }

  lemma StepKeepsCovered(s: State, step: Step, u: nat, before: set<nat>)
    requires Inv(s) && Covered(s, u, before) && Enabled(s, step)
    ensures Covered(Apply(s, step), u, before)
  {
    hide LiveOk, StopsOk;
    if IsAllStep(step) {
      if step.t == u {
        OwnStepKeepsCovered(s, step, before);
      } else {
        assert Apply(s, step).alls[u] == s.alls[u];
        assert Shrinks(s.(stoppingAll := Apply(s, step).stoppingAll), Apply(s, step));
      }
    } else if step.Start? {
    } else {
      assert Shrinks(s, Apply(s, step));
    }
  }

  lemma OwnStepKeepsCovered(s: State, step: Step, before: set<nat>)
    requires TableOk(s) && IsAllStep(step) && Covered(s, step.t, before) && Enabled(s, step)
    ensures Covered(Apply(s, step), step.t, before)
  {
    if step.AllMark? {
      var rest := s.alls[step.t].rest;
      assert rest == [rest[0]] + rest[1..];
    }
  }

  lemma {:induction false} ReachableCovered(s: State, steps: seq<Step>, t: State, u: nat, before: set<nat>)
    requires Inv(s) && Covered(s, u, before) && Leads(s, steps, t)
    ensures Covered(t, u, before)
    decreases |steps|
  {
    if steps != [] {
      StepKeepsInv(s, steps[0]);
      StepKeepsCovered(s, steps[0], u, before);
      ReachableCovered(Apply(s, steps[0]), steps[1..], t, u, before);
    }
  }

  /** A StopAllContext that returns without error, whatever overlaps it, leaves an instance in the
      table exactly when between its begin and its last check another call took the fence down and
      that instance was started after it. */
  lemma StopAllMissesExactly(first: seq<Step>, a: State, u: nat, order: seq<string>, steps: seq<Step>, b: State)
    requires Leads(Initial(), first, a) && Enabled(a, AllBegin(u, order))
    requires Leads(Apply(a, AllBegin(u, order)), steps, b) && Enabled(b, AllCheck(u))
    ensures Apply(b, AllCheck(u)).alls[u] == AllStopped(true, b.accounts == map[])
    ensures b.accounts != map[] <==>
              exists x :: x in b.accounts
                          && StartsAfterLift(Apply(a, AllBegin(u, order)), steps, b, b.accounts[x], u, false)
  {
    var s := Apply(a, AllBegin(u, order));
    ReachableInv(Initial(), first, a);
    StepKeepsInv(a, AllBegin(u, order));
    ReachableInv(s, steps, b);
    assert forall x :: x in order <==> x in (set y | y in order);
    ReachableCovered(s, steps, b, u, a.instances.Keys);
    if x :| x in b.accounts {
      NewInstanceWasStarted(s, steps, b, b.accounts[x], u, false);
    }
  }

  /** The first of two StopAllContexts has returned and lifted the fence. */
  function FirstIsThrough(): State {
    Initial().(alls := map[0 := AllStopped(true, true), 1 := Between([])])
  }

  lemma FirstGetsThrough() returns (steps: seq<Step>)
    ensures Leads(Initial(), steps, FirstIsThrough())
  {
    var s0 := Initial();
    var s1 := Apply(s0, AllBegin(0, []));
    var s2 := Apply(s1, AllBegin(1, []));
    var s3 := Apply(s2, AllCheck(0));
    assert s3.alls == FirstIsThrough().alls;
    steps := Prepend(s2, AllCheck(0), [], s3);
    steps := Prepend(s1, AllBegin(1, []), steps, s3);
    steps := Prepend(s0, AllBegin(0, []), steps, s3);
  }

  /** Two overlapping ones do not guarantee it: the first lifts the fence, an account is started, and
      the second returns without error although the table holds a running instance. */
  lemma OverlappingStopAllMissesInstance() returns (steps: seq<Step>, t: State)
    ensures Leads(Initial(), steps, t)
    ensures 1 in t.alls && t.alls[1] == AllStopped(true, false)
    ensures "a" in t.accounts && t.accounts["a"] in t.instances && !t.instances[t.accounts["a"]].done
  {
    var s3 := FirstIsThrough();
    var s4 := Apply(s3, Start("a", 7));
    t := Apply(s4, AllCheck(1));
    var rest := Prepend(s4, AllCheck(1), [], t);
    rest := Prepend(s3, Start("a", 7), rest, t);
    var first := FirstGetsThrough();
    LeadsOn(Initial(), first, s3, rest, t);
    steps := first + rest;
  }

  lemma {:induction false} LeadsOn(s: State, a: seq<Step>, m: State, b: seq<Step>, t: State)
    requires Leads(s, a, m) && Leads(m, b, t)
    ensures Leads(s, a + b, t)
    decreases |a|
  {
    if a == [] {
      assert a + b == b;
    } else {
      assert (a + b)[1..] == a[1..] + b;
      LeadsOn(Apply(s, a[0]), a[1..], m, b, t);
    }
  }

  lemma Prepend(s: State, step: Step, steps: seq<Step>, t: State) returns (longer: seq<Step>)
    requires Enabled(s, step) && Leads(Apply(s, step), steps, t)
    ensures Leads(s, longer, t)
  {
    longer := [step] + steps;
    assert longer[1..] == steps;
  }

  // ---- the manager ------------------------------------------------------------------------------------------

  /** How the calls end for their callers. */
  datatype CallError = NoError | IsStopping | StopFailed | Incomplete

  class Manager {
    var accounts: map<string, nat>
    var instances: map<nat, Instance>
    var fenced: set<string>
    var stoppingAll: bool

    constructor ()
      ensures View() == Initial()
    {
      accounts, instances, fenced, stoppingAll := map[], map[], {}, false;
    }

    /** The fields as part of a state. */
    ghost function View(): State
      reads this
    {
      State(accounts, instances, fenced, stoppingAll, map[], map[])
    }

    ghost predicate Valid()
      reads this
    {
      Inv(View())
    }

    /** What others may do between two sections; no other StopAllContext runs when `alone`. */
    ghost predicate OthersMay(before: State, alone: bool)
      reads this
    {
      && Valid()
      && before.instances.Keys <= instances.Keys
      && (forall id :: id in before.instances ==> SameOrDone(before.instances[id], instances[id]))
      && (alone && before.stoppingAll ==> Shrinks(before, View()))
    }

    /** Callers rely on the contract alone; OthersStayWithinContract shows that every run of others
        meets it. */
    method Others(alone: bool)
      requires Valid()
      modifies this
      ensures OthersMay(old(View()), alone)
    {
    }

    /** Start: at most one section; a running instance makes it a no-op. */
    method Start(account: string) returns (err: CallError, id: nat)
      requires Valid()
      modifies this
      ensures Valid()
      ensures id !in old(instances) && View() == Started(old(View()), account, id)
      ensures err.NoError? || err.IsStopping?
      ensures err.IsStopping? <==> Refused(old(View()), account)
      // success means a running instance: the one that was there, or a new one
      ensures err.NoError? ==>
                account in accounts && !instances[accounts[account]].done && !instances[accounts[account]].stopping
      ensures err.NoError? && account in old(accounts) && !old(instances)[old(accounts)[account]].done ==>
                View() == old(View())
      ensures err.IsStopping? ==> View() == old(View())
    {
      id := FreshId();
      if stoppingAll || account in fenced {
        err := IsStopping;
        return;
      }
      if account in accounts {
        var current := instances[accounts[account]];
        if current.stopping {
          err := IsStopping;
          return;
        }
        if !current.done {
          err := NoError;
          return;
        }
      }
      StartKeepsInv(View(), account, id);
      accounts := accounts[account := id];
      instances := instances[id := Instance(account, false, false)];
      err := NoError;
    }

    method FreshId() returns (id: nat)
      ensures id !in instances
    {
      id := 0;
      var rest := instances.Keys;
      while rest != {}
        invariant forall k :: k in instances && k !in rest ==> k < id
        decreases rest
      {
        var k :| k in rest;
        rest := rest - {k};
        id := if k >= id then k + 1 else id;
      }
    }

    /** BeginStopping and EndStopping. */
    method BeginStopping(account: string) returns (ok: bool)
      modifies this
      ensures ok <==> account !in old(fenced)
      ensures View() == old(View()).(fenced := old(fenced) + {account})
    {
      ok := account !in fenced;
      fenced := fenced + {account};
    }

    method EndStopping(account: string)
      modifies this
      ensures View() == old(View()).(fenced := old(fenced) - {account})
    {
      fenced := fenced - {account};
    }

    /** StopContext: without an error the instance it found has ended and is out of the table; when
        the global fence holds throughout, the account is. It fails exactly when it gives up waiting, or when
        the instance does not end. */
    method StopContext(account: string, alone: bool, gaveUp: bool) returns (err: CallError)
      requires Valid()
      modifies this
      ensures OthersMay(old(View()), alone)
      ensures err.NoError? || err.StopFailed?
      ensures account !in old(accounts) ==> View() == old(View())
      ensures account in old(accounts) ==> instances[old(accounts)[account]].stopping
      ensures err.StopFailed? <==> account in old(accounts) && (gaveUp || !IsDone(View(), old(accounts)[account]))
      ensures err.NoError? && account in old(accounts) ==>
                && IsDone(View(), old(accounts)[account])
                && (account in accounts ==> accounts[account] != old(accounts)[account])
      ensures err.NoError? && alone && old(stoppingAll) ==> account !in accounts
    {
      if account !in accounts {
        err := NoError;
        return;
      }
      var id := accounts[account];
      MarkKeepsInv(View(), account);
      instances := instances[id := instances[id].(stopping := true)];
      Others(alone);
      if gaveUp || !instances[id].done {
        err := StopFailed;
        return;
      }
      RemovalKeepsInv(View(), account, id);
      if account in accounts && accounts[account] == id {
        accounts := accounts - {account};
      }
      err := NoError;
    }

    /** Restart: the old instance has ended before a new one is started, and success means that the account
        runs. It fails only when it is canceled, the account cannot be read, the old instance is waited for
        in vain, or the start is refused. */
    method Restart(account: string, canceled: bool, gaveUp: bool, readable: bool) returns (err: CallError)
      requires Valid()
      modifies this
      ensures Valid()
      ensures err.NoError? || err.Incomplete?
      ensures err.NoError? ==>
                account in accounts && !instances[accounts[account]].done && !instances[accounts[account]].stopping
      ensures err.NoError? && account in old(accounts) ==> IsDone(View(), old(accounts)[account])
      ensures err.NoError? ==> !canceled && readable
      ensures err.Incomplete? && !canceled && readable ==>
                || Refused(View(), account)
                || (account in old(accounts) && (gaveUp || !IsDone(View(), old(accounts)[account])))
    {
      if canceled {
        err := Incomplete;
        return;
      }
      ghost var before := View();
      var stopErr := StopContext(account, false, gaveUp);
      if stopErr != NoError {
        err := Incomplete;
        return;
      }
      Others(false);
      if !readable {
        err := Incomplete;
        return;
      }
      var startErr, _ := Start(account);
      err := if startErr == NoError then NoError else Incomplete;
    }

    /** What is left to do for a StopAllContext that began at `before`. */
    ghost predicate StillToStop(before: State, alone: bool, rest: set<string>)
      reads this
    {
      && OthersMay(before, alone) && before.stoppingAll
      && (alone ==> accounts.Keys <= rest)
      && (forall id :: id in before.instances && !instances[id].done ==> instances[id].account in rest)
    }

    /** One round of StopAllContext. */
    method StopNext(account: string, alone: bool, patient: bool, ghost before: State, ghost rest: set<string>)
      returns (err: CallError)
      requires StillToStop(before, alone, rest)
      modifies this
      ensures OthersMay(before, alone)
      ensures err.NoError? ==> StillToStop(before, alone, rest - {account})
      ensures patient && !err.NoError? ==> SomeRuns(View())
    {
      Others(alone);
      ghost var middle := View();
      var gaveUp: bool := *;
      err := StopContext(account, alone, gaveUp && !patient);
      if err.NoError? {
        forall id | id in before.instances && !instances[id].done
          ensures instances[id].account in rest - {account}
        {
          assert SameOrDone(middle.instances[id], instances[id]);
        }
      }
    }

    /** StopAllContext: without an error every instance that existed when it began has ended; when no
        other call overlaps it, the table is empty and the fence is lifted, and after an error the
        fence stays up. Who waits patiently gets an error only while an instance does not end. */
    method StopAllContext(alone: bool, patient: bool) returns (err: CallError)
      requires Valid()
      modifies this
      ensures Valid()
      ensures err.NoError? ==> forall id :: id in old(instances) ==> IsDone(View(), id)
      ensures err.NoError? && alone ==> accounts == map[] && !stoppingAll
      ensures !err.NoError? && alone ==> stoppingAll
      ensures patient && !err.NoError? ==> SomeRuns(View())
    {
      stoppingAll := true;
      var rest := accounts.Keys;
      ghost var before := View();
      while rest != {}
        invariant StillToStop(before, alone, rest)
        decreases rest
      {
        var account :| account in rest;
        err := StopNext(account, alone, patient, before, rest);
        if !err.NoError? {
          return;
        }
        rest := rest - {account};
      }
      Others(alone);
      if |accounts| == 0 {
        stoppingAll := false;
      }
      err := NoError;
    }
  }

  /** An instance stays what it is, except that it may be marked or end. */
  predicate SameOrDone(i: Instance, j: Instance) {
    j.account == i.account && (i.done ==> j.done) && (i.stopping ==> j.stopping)
  }

  ghost predicate SomeRuns(s: State) {
    exists id :: id in s.instances && s.instances[id].stopping && !s.instances[id].done
  }

  predicate ByOthers(steps: seq<Step>, alone: bool) {
    forall k :: 0 <= k < |steps| ==> (alone ==> !IsAllStep(steps[k]))
  }

  /** Any steps of others stay within the contract of `Manager.Others`; `alone` leaves out the steps
      of a StopAllContext. */
  lemma {:induction false} OthersStayWithinContract(s: State, steps: seq<Step>, t: State, alone: bool)
    requires Inv(s) && Leads(s, steps, t) && ByOthers(steps, alone)
    ensures Inv(t) && s.instances.Keys <= t.instances.Keys
    ensures forall id :: id in s.instances ==> SameOrDone(s.instances[id], t.instances[id])
    ensures alone && s.stoppingAll ==> Shrinks(s, t)
    decreases |steps|
  {
    if steps != [] {
      StepKeepsInv(s, steps[0]);
      OtherStepStays(s, steps[0]);
      OthersStayWithinContract(Apply(s, steps[0]), steps[1..], t, alone);
    }
  }

  lemma OtherStepStays(s: State, step: Step)
    requires Enabled(s, step)
    ensures forall id :: id in s.instances ==> id in Apply(s, step).instances
    ensures forall id :: id in s.instances ==> SameOrDone(s.instances[id], Apply(s, step).instances[id])
    ensures s.stoppingAll && !IsAllStep(step) ==> Shrinks(s, Apply(s, step))
  {
  }
}
