/** One run of a rule for one event: the frozen plan, its cards and its delays, in front of the action loop. */
module RuleRun {
  import opened ActionPlanner
  import opened RunCalls
  import opened RunCoordinator
  import opened RunEnds
  import opened RunTable

  /** Some enabled card of the actions matches the order. */
  predicate HasCard(task: Task, actions: seq<Action>) {
    exists i :: 0 <= i < |actions| && IsCard(task, actions[i])
  }

  /** Freezing the plan neither loses nor adds a matching card. */
  lemma FrozenPlanKeepsCards(task: Task, actions: seq<Action>)
    requires task.paid
    ensures HasCard(task, PlanOf(task, actions)) <==> HasCard(task, actions)
  {
    PaidPlansPutCardsFirst(task, actions);
    var plan := PlanOf(task, actions);
    if HasCard(task, plan) {
      var k :| 0 <= k < |plan| && IsCard(task, plan[k]);
      assert plan[k] in actions;
    }
    if HasCard(task, actions) {
      var i :| 0 <= i < |actions| && IsCard(task, actions[i]);
      assert actions[i] in plan;
    }
  }

  /** The delay of an action: a card waits for its own delay unless the action overrides it. */
  predicate IsDelay(a: Action, cardDelay: nat, delay: nat) {
    var overrides := match a.config
      case Readable(_, _, o) => o
      case Mistyped(o) => o
      case _ => false;
    && (a.kind.SendCard? && !overrides ==> delay == cardDelay)
    && (!a.kind.SendCard? || overrides ==> delay == a.delay)
  }

  /** actionDelaySeconds for each action of the plan. */
  method DelaysOf(actions: seq<Action>, cardDelays: seq<nat>) returns (delays: seq<nat>)
    requires |cardDelays| == |actions|
    ensures |delays| == |actions| && forall i :: 0 <= i < |actions| ==> IsDelay(actions[i], cardDelays[i], delays[i])
  {
    delays := [];
    for i := 0 to |actions|
      invariant |delays| == i && forall k :: 0 <= k < i ==> IsDelay(actions[k], cardDelays[k], delays[k])
    {
      delays := delays + [EffectiveDelay(actions[i], cardDelays[i])];
    }
  }

  /** executeRule with the actions of its frozen plan. A paid order without a matching card is closed as failed
      before any action; no other run is, and each action is called without a delay or after it. */
  method ExecuteTask(world: World, ghost me: nat, task: Task, actions: seq<Action>, cardDelays: seq<nat>,
        delayCursor: int, uncounted: bool)
    returns (outcome: Outcome, ghost run: Run, ghost calls: seq<Call>)
    requires world.Valid() && me !in world.sys.workers && world.plan == Kinds(actions)
    requires |cardDelays| == |actions|
    modifies world, world.table
    ensures world.Valid() && world.HasLog(me, run, calls) && Recorded(world.sys, me, calls)
    ensures me in world.ends
    ensures EndsAs(outcome, Kinds(actions), run, calls, world.ends[me], task.paid && !HasCard(task, actions), uncounted)
    ensures task.paid && !HasCard(task, actions) ==> calls == [] && outcome != Closed(Success)
    ensures forall i :: 0 <= i < |calls| ==>
              && calls[i].pos < |actions|
              && (|| IsDelay(actions[calls[i].pos], cardDelays[calls[i].pos], 0)
                  || (i == 0 && delayCursor == calls[i].pos))
  {
    hide HasCard, IsCard, EndsAs, IsDelay;
    var found := HasMatchingSendCard(task, actions);
    assert found <==> HasCard(task, actions) by { CardFound(task, actions); }
    var delays := DelaysOf(actions, cardDelays);
    outcome, run, calls := world.ExecuteRule(me, delays, delayCursor, task.paid && !found, uncounted);
    if task.paid && !found {
      NoCardNoCall(outcome, Kinds(actions), run, calls, world.ends[me], uncounted);
    }
  }

  lemma CardFound(task: Task, actions: seq<Action>)
    ensures HasCard(task, actions) <==> exists i :: 0 <= i < |actions| && IsCard(task, actions[i])
  {
  }

  lemma NoCardNoCall(outcome: Outcome, plan: seq<ActionType>, run: Run, calls: seq<Call>, note: EndNote,
        uncounted: bool)
    requires EndsAs(outcome, plan, run, calls, note, true, uncounted)
    ensures calls == [] && !(outcome == Closed(Success))
  {
  }
}
