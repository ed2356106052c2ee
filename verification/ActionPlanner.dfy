/** Order specifications: two columns of names and values, split at either semicolon. */
module OrderSpec {
  import opened GoText

  const SEPARATOR := '\U{FF1B}'

  predicate IsSeparator(c: char) {
    c == ';' || c == SEPARATOR
  }

  /** The trimmed parts of s[i..], when the part being read starts at `start`. */
  function Parts(s: string, start: nat, i: nat): (r: seq<string>)
    requires start <= i <= |s|
    requires forall k :: start <= k < i ==> !IsSeparator(s[k])
    ensures r != [] && forall k :: 0 <= k < |r| ==> NoSeparator(r[k])
    decreases |s| - i
  {
    if i == |s| then TrimKeepsNoSeparator(s[start..]); [TrimSpace(s[start..])]
    else if IsSeparator(s[i]) then TrimKeepsNoSeparator(s[start..i]); [TrimSpace(s[start..i])] + Parts(s, i + 1, i + 1)
    else Parts(s, start, i + 1)
  }

  predicate NoSeparator(s: string) {
    forall k :: 0 <= k < |s| ==> !IsSeparator(s[k])
  }

  lemma TrimKeepsNoSeparator(s: string)
    requires NoSeparator(s)
    ensures NoSeparator(TrimSpace(s))
  {
  }

  /** split. */
  function Columns(raw: string): (r: seq<string>)
    ensures forall k :: 0 <= k < |r| ==> NoSeparator(r[k])
  {
    var s := TrimSpace(raw);
    if s == "" then [] else Parts(s, 0, 0)
  }

  lemma {:induction false} PartsShift(a: string, b: string, start: nat, i: nat)
    requires start <= i <= |b| && forall k :: start <= k < i ==> !IsSeparator(b[k])
    ensures forall k :: |a| + start <= k < |a| + i ==> !IsSeparator((a + b)[k])
    ensures Parts(a + b, |a| + start, |a| + i) == Parts(b, start, i)
    decreases |b| - i
  {
    hide TrimSpace;
    var s := a + b;
    assert forall k :: |a| <= k < |s| ==> s[k] == b[k - |a|];
    assert s[|a| + start..|a| + i] == b[start..i] && s[|a| + start..] == b[start..];
    if i < |b| {
      if IsSeparator(b[i]) {
        PartsShift(a, b, i + 1, i + 1);
      } else {
        PartsShift(a, b, start, i + 1);
      }
    }
  }

  lemma {:induction false} PartsSplit(a: string, c: char, b: string, start: nat, i: nat)
    requires start <= i <= |a| && (forall k :: start <= k < i ==> !IsSeparator(a[k]))
    requires c == ';' || c == '\U{FF1B}'
    ensures forall k :: start <= k < i ==> !IsSeparator((a + [c] + b)[k])
    ensures Parts(a + [c] + b, start, i) == Parts(a, start, i) + Parts(b, 0, 0)
    decreases |a| - i
  {
    hide TrimSpace;
    var s := a + [c] + b;
    assert forall k :: 0 <= k < |a| ==> s[k] == a[k];
    assert s[start..i] == a[start..i];
    if i == |a| {
      assert a[start..] == a[start..i];
      PartsShift(a + [c], b, 0, 0);
    } else if IsSeparator(a[i]) {
      PartsSplit(a, c, b, i + 1, i + 1);
    } else {
      PartsSplit(a, c, b, start, i + 1);
    }
  }

  lemma {:induction false} OnePart(l: string, i: nat)
    requires i <= |l| && forall k :: 0 <= k < |l| ==> !IsSeparator(l[k])
    ensures Parts(l, 0, i) == [TrimSpace(l)]
    decreases |l| - i
  {
    if i == |l| {
      assert l[0..] == l;
    } else {
      OnePart(l, i + 1);
    }
  }

  /** Columns are split at the ASCII and at the full-width semicolon, and at no other character. */
  lemma SemicolonsSplit(a: string, b: string, l: string)
    requires forall k :: 0 <= k < |l| ==> l[k] != ';' && l[k] != '\U{FF1B}'
    ensures Parts(a + [';'] + b, 0, 0) == Parts(a, 0, 0) + Parts(b, 0, 0)
    ensures Parts(a + ['\U{FF1B}'] + b, 0, 0) == Parts(a, 0, 0) + Parts(b, 0, 0)
    ensures Parts(l, 0, 0) == [TrimSpace(l)]
  {
    PartsSplit(a, ';', b, 0, 0);
    PartsSplit(a, '\U{FF1B}', b, 0, 0);
    OnePart(l, 0);
  }

  function Join(parts: seq<string>): string {
    if parts == [] then "" else if |parts| == 1 then parts[0] else parts[0] + [SEPARATOR] + Join(parts[1..])
  }

  datatype Normal = Invalid | Normal(name: string, value: string)

  /** NormalizeColumns. */
  function Normalize(name: string, value: string): Normal {
    var names, values := Columns(name), Columns(value);
    if |names| != |values| then Invalid
    else if "" in names || "" in values then Invalid
    else Normal(Join(names), Join(values))
  }

  /** A specification is well formed when it has as many names as values and none of them is empty. */
  lemma WellFormedExactly(name: string, value: string)
    ensures Normalize(name, value).Normal?
            <==> && |Columns(name)| == |Columns(value)|
                 && (forall k :: 0 <= k < |Columns(name)| ==> Columns(name)[k] != "" && Columns(value)[k] != "")
  {
  }

  predicate Equal(leftName: string, leftValue: string, rightName: string, rightValue: string) {
    var left, right := Normalize(leftName, leftValue), Normalize(rightName, rightValue);
    left.Normal? && left == right
  }

  lemma {:induction false} JoinIsInjective(a: seq<string>, b: seq<string>)
    requires Join(a) == Join(b) && "" !in a && "" !in b
    requires forall k :: 0 <= k < |a| ==> NoSeparator(a[k])
    requires forall k :: 0 <= k < |b| ==> NoSeparator(b[k])
    ensures a == b
    decreases |a|
  {
    if a != [] && b != [] {
      var s := Join(a);
      assert |a| > 1 ==> s[|a[0]|] == SEPARATOR;
      assert |b| > 1 ==> s[|b[0]|] == SEPARATOR;
      assert a[0] == s[..|a[0]|] && b[0] == s[..|b[0]|];
      assert forall k :: 0 <= k < |a[0]| ==> s[k] == a[0][k];
      assert forall k :: 0 <= k < |b[0]| ==> s[k] == b[0][k];
      assert |a[0]| == |b[0]|;
      if |a| > 1 {
        assert Join(a[1..]) == s[|a[0]| + 1..] == Join(b[1..]);
        assert "" !in a[1..] && "" !in b[1..];
        JoinIsInjective(a[1..], b[1..]);
        assert a == [a[0]] + a[1..] && b == [b[0]] + b[1..];
      }
    }
  }

  /** Joining loses nothing: two specifications are equal exactly when both are well formed and
      their trimmed columns agree, whatever semicolons and white space they were written with. */
  lemma EqualMeansSameColumns(leftName: string, leftValue: string, rightName: string, rightValue: string)
    ensures Equal(leftName, leftValue, rightName, rightValue)
            <==> && Normalize(leftName, leftValue).Normal? && Normalize(rightName, rightValue).Normal?
                 && Columns(leftName) == Columns(rightName) && Columns(leftValue) == Columns(rightValue)
  {
    if Equal(leftName, leftValue, rightName, rightValue) {
      JoinIsInjective(Columns(leftName), Columns(rightName));
      JoinIsInjective(Columns(leftValue), Columns(rightValue));
    }
  }
}

/** From the actions of a rule to the plan of a run. */
module ActionPlanner {
  import opened GoText
  import OrderSpec
  import opened DeliveryProof
  import opened RunTable
  import opened RunProtocol
  import opened RunDelivery
  import opened Wrappers

  /** The settings text of an action: no JSON object, the JSON value null, an object in which a field
      of the specification is no string, or one that can be read. */
  datatype Config =
    | Unreadable
    | Null
    | Mistyped(delayOverride: bool)
    | Readable(specName: string, specValue: string, delayOverride: bool)

  /** The specification that json.Unmarshal finds without an error; null leaves it empty. */
  function SpecOf(c: Config): Option<(string, string)> {
    match c
    case Unreadable => None
    case Null => Some(("", ""))
    case Mistyped(_) => None
    case Readable(name, value, _) => Some((name, value))
  }

  datatype Action = Action(kind: ActionType, enabled: bool, delay: nat, config: Config)

  datatype Task = Task(paid: bool, specName: string, specValue: string)

  predicate Blank(s: string) {
    TrimSpace(s) == ""
  }

  /** actionMatchesOrderSpec. */
  predicate MatchesSpec(task: Task, action: Action) {
    var spec := SpecOf(action.config);
    && spec.Some?
    && if Blank(spec.value.0) && Blank(spec.value.1)
       then Blank(task.specName) && Blank(task.specValue)
       else OrderSpec.Equal(task.specName, task.specValue, spec.value.0, spec.value.1)
  }

  predicate IsCard(task: Task, action: Action) {
    action.enabled && action.kind.SendCard? && MatchesSpec(task, action)
  }

  function CardTest(task: Task): Action -> bool {
    (a: Action) => IsCard(task, a)
  }

  predicate IsConfirm(action: Action) {
    action.enabled && action.kind.ConfirmShipment?
  }

  function Filter(actions: seq<Action>, keep: Action -> bool): seq<Action> {
    if actions == [] then []
    else
      var front, last := actions[..|actions| - 1], actions[|actions| - 1];
      if keep(last) then Filter(front, keep) + [last] else Filter(front, keep)
  }

  function PlanOf(task: Task, actions: seq<Action>): seq<Action> {
    if task.paid then Filter(actions, CardTest(task)) + Filter(actions, IsConfirm)
    else Filter(actions, (a: Action) => a.enabled)
  }

  lemma FilterOneMore(actions: seq<Action>, keep: Action -> bool, i: nat)
    requires i < |actions|
    ensures Filter(actions[..i + 1], keep) == if keep(actions[i]) then Filter(actions[..i], keep) + [actions[i]]
        else Filter(actions[..i], keep)
  {
    assert actions[..i + 1][..i] == actions[..i];
  }

  /** plan. */
  method Plan(task: Task, actions: seq<Action>) returns (out: seq<Action>)
    ensures out == PlanOf(task, actions)
  {
    out := [];
    if task.paid {
      var isCard := CardTest(task);
      for i := 0 to |actions|
        invariant out == Filter(actions[..i], isCard)
      {
        FilterOneMore(actions, isCard, i);
        if IsCard(task, actions[i]) {
          out := out + [actions[i]];
        }
      }
      ghost var cards := out;
      assert actions[..|actions|] == actions;
      for i := 0 to |actions|
        invariant out == cards + Filter(actions[..i], IsConfirm)
      {
        FilterOneMore(actions, IsConfirm, i);
        if IsConfirm(actions[i]) {
          out := out + [actions[i]];
        }
      }
      return;
    }
    var isEnabled := (a: Action) => a.enabled;
    for i := 0 to |actions|
      invariant out == Filter(actions[..i], isEnabled)
    {
      FilterOneMore(actions, isEnabled, i);
      if actions[i].enabled {
        out := out + [actions[i]];
      }
    }
    assert actions[..|actions|] == actions;
  }

  /** hasMatchingSendCard. */
  method HasMatchingSendCard(task: Task, actions: seq<Action>) returns (found: bool)
    ensures found <==> exists i :: 0 <= i < |actions| && IsCard(task, actions[i])
  {
    for i := 0 to |actions|
      invariant forall k :: 0 <= k < i ==> !IsCard(task, actions[k])
    {
      if IsCard(task, actions[i]) {
        return true;
      }
    }
    found := false;
  }

  function Kinds(plan: seq<Action>): seq<ActionType> {
    seq(|plan|, i requires 0 <= i < |plan| => plan[i].kind)
  }

  lemma {:induction false} FilterKeepsOnly(actions: seq<Action>, keep: Action -> bool)
    ensures forall k :: 0 <= k < |Filter(actions, keep)| ==>
        keep(Filter(actions, keep)[k]) && Filter(actions, keep)[k] in actions
    ensures forall k :: 0 <= k < |actions| && keep(actions[k]) ==> actions[k] in Filter(actions, keep)
    decreases |actions|
  {
    if actions != [] {
      FilterKeepsOnly(actions[..|actions| - 1], keep);
    }
  }

  /** The places are in order, and the actions there are those of the plan. */
  predicate Takes(plan: seq<Action>, actions: seq<Action>, at: seq<nat>) {
    && |plan| == |at| && (forall k :: 0 <= k < |at| ==> at[k] < |actions| && plan[k] == actions[at[k]])
    && (forall j, k :: 0 <= j < k < |at| ==> at[j] < at[k])
  }

  /** The places are exactly those of the actions that are kept. */
  predicate KeepsAll(actions: seq<Action>, keep: Action -> bool, at: seq<nat>) {
    forall i :: 0 <= i < |actions| ==> (i in at <==> keep(actions[i]))
  }

  lemma KeepsOneMore(actions: seq<Action>, last: Action, keep: Action -> bool, at: seq<nat>)
    requires KeepsAll(actions, keep, at) && forall k :: 0 <= k < |at| ==> at[k] < |actions|
    ensures KeepsAll(actions + [last], keep, if keep(last) then at + [|actions|] else at)
  {
  }

  lemma TakesOneMore(plan: seq<Action>, actions: seq<Action>, last: Action, at: seq<nat>)
    requires Takes(plan, actions, at)
    ensures Takes(plan, actions + [last], at)
    ensures Takes(plan + [last], actions + [last], at + [|actions|])
  {
  }

  /** What is kept of a list stays in order, and nothing else is in it: `at` are the places it comes from. */
  lemma {:induction false} FilterInOrder(actions: seq<Action>, keep: Action -> bool) returns (at: seq<nat>)
    ensures Takes(Filter(actions, keep), actions, at) && KeepsAll(actions, keep, at)
    decreases |actions|
  {
    at := [];
    if actions != [] {
      var front, last := actions[..|actions| - 1], actions[|actions| - 1];
      at := FilterInOrder(front, keep);
      KeepsOneMore(front, last, keep, at);
      TakesOneMore(Filter(front, keep), front, last, at);
      assert actions == front + [last];
      at := if keep(last) then at + [|front|] else at;
    }
  }

  /** The plan of an unpaid order is all enabled actions in the order of the rule. */
  lemma UnpaidPlanIsAllEnabled(task: Task, actions: seq<Action>) returns (at: seq<nat>)
    requires !task.paid
    ensures Takes(PlanOf(task, actions), actions, at)
    ensures forall i :: 0 <= i < |actions| ==> (i in at <==> actions[i].enabled)
  {
    at := FilterInOrder(actions, (a: Action) => a.enabled);
  }

  /** The plan of a paid order is its matching cards and then its confirmations, both in the order of the rule
      and both of enabled actions only. */
  lemma PaidPlanIsCardsThenConfirmations(task: Task, actions: seq<Action>)
    returns (cards: seq<nat>, confirmations: seq<nat>)
    requires task.paid
    ensures |cards| <= |PlanOf(task, actions)|
    ensures Takes(PlanOf(task, actions)[..|cards|], actions, cards)
    ensures Takes(PlanOf(task, actions)[|cards|..], actions, confirmations)
    ensures forall i :: 0 <= i < |actions| ==>
              (i in cards <==> actions[i].enabled && actions[i].kind.SendCard? && MatchesSpec(task, actions[i]))
    ensures forall i :: 0 <= i < |actions| ==>
              (i in confirmations <==> actions[i].enabled && actions[i].kind.ConfirmShipment?)
  {
    hide MatchesSpec;
    cards := FilterInOrder(actions, CardTest(task));
    confirmations := FilterInOrder(actions, IsConfirm);
    var a, b := Filter(actions, CardTest(task)), Filter(actions, IsConfirm);
    assert PlanOf(task, actions)[..|a|] == a && PlanOf(task, actions)[|a|..] == b;
  }

  lemma BlankHasNoColumns(s: string)
    ensures Blank(s) <==> OrderSpec.Columns(s) == []
  {
  }

  /** An action without a specification takes part for orders without one, and any other for exactly the
      orders with the same columns of names and values. */
  lemma MatchesSameColumns(task: Task, action: Action)
    ensures MatchesSpec(task, action)
            <==> && SpecOf(action.config).Some?
                 && OrderSpec.Normalize(task.specName, task.specValue).Normal?
                 && OrderSpec.Columns(task.specName) == OrderSpec.Columns(SpecOf(action.config).value.0)
                 && OrderSpec.Columns(task.specValue) == OrderSpec.Columns(SpecOf(action.config).value.1)
    ensures SpecOf(action.config).Some? <==> action.config.Null? || action.config.Readable?
  {
    hide OrderSpec.Columns, Blank, TrimSpace;
    if SpecOf(action.config).Some? {
      var (name, value) := SpecOf(action.config).value;
      BlankHasNoColumns(name);
      BlankHasNoColumns(value);
      BlankHasNoColumns(task.specName);
      BlankHasNoColumns(task.specValue);
      OrderSpec.EqualMeansSameColumns(task.specName, task.specValue, name, value);
    }
  }

  /** A paid plan has the shape under which the shipment is confirmed only after all cards, it holds
      exactly the matching cards and the confirmations of the rule, and it starts with a card
      exactly when the rule has a matching one. */
  lemma PaidPlansPutCardsFirst(task: Task, actions: seq<Action>)
    requires task.paid
    ensures PaidPlan(Kinds(PlanOf(task, actions)), |Filter(actions, CardTest(task))|)
    ensures forall a :: a in PlanOf(task, actions) <==> a in actions && (IsCard(task, a) || IsConfirm(a))
    ensures (PlanOf(task, actions) != [] && PlanOf(task, actions)[0].kind.SendCard?)
            <==> exists i :: 0 <= i < |actions| && IsCard(task, actions[i])
  {
    var isCard := CardTest(task);
    FilterKeepsOnly(actions, isCard);
    FilterKeepsOnly(actions, IsConfirm);
    assert PlanOf(task, actions) == Filter(actions, isCard) + Filter(actions, IsConfirm);
  }

  /** From the rule to the platform: when a run of the plan asks to confirm the shipment, every matching
      card of the rule has been sent, or the operator has skipped it after all its tries reported that
      nothing was sent; when nothing was skipped, the first confirmation carries exactly their proofs. */
  lemma ConfirmationsFollowTheRulesCards(task: Task, actions: seq<Action>, lease: int, steps: seq<Step>, t: Sys, i: nat)
    requires task.paid && Leads(Kinds(PlanOf(task, actions)), Initial(lease), steps, t)
    requires AllProofKept(Kinds(PlanOf(task, actions)), Initial(lease), false, steps, t)
    requires i < |t.tries| && !t.tries[i].stage.Open? && t.tries[i].pos < |PlanOf(task, actions)|
    requires PlanOf(task, actions)[t.tries[i].pos].kind.ConfirmShipment?
    ensures var cards := Filter(actions, CardTest(task));
            && |cards| <= |t.passed| && |cards| <= t.tries[i].pos <= |t.passed|
            && (forall k :: 0 <= k < |cards| ==>
                  && PlanOf(task, actions)[k] == cards[k]
                  && if t.passed[k].Did? then t.passed[k].result.err.NoError? else SurelyNotDone(t, k))
            && ((forall k :: 0 <= k < t.tries[i].pos ==> t.passed[k].Did?) ==>
                  t.tries[i].proof
                  == if t.tries[i].pos == |cards| then MergedProofs(t.passed, |cards|) else EMPTY_PROOF)
  {
    var cards := Filter(actions, CardTest(task));
    PaidPlansPutCardsFirst(task, actions);
    ConfirmAfterAllCards(Kinds(PlanOf(task, actions)), |cards|, lease, steps, t, i);
  }

  /** With an operator at work: every matching card of the rule has then been sent, or the operator has
      skipped it after all its tries reported that nothing was sent. */
  lemma ConfirmationsFollowNoUnknownCard(task: Task, actions: seq<Action>, lease: int, steps: seq<Step>, t: Sys,
        i: nat, k: nat)
    requires task.paid && Leads(Kinds(PlanOf(task, actions)), Initial(lease), steps, t)
    requires i < |t.tries| && t.tries[i].pos < |PlanOf(task, actions)|
    requires PlanOf(task, actions)[t.tries[i].pos].kind.ConfirmShipment? && k < |Filter(actions, CardTest(task))|
    ensures k < |PlanOf(task, actions)| && PlanOf(task, actions)[k] == Filter(actions, CardTest(task))[k]
    ensures k < |t.passed|
    ensures if t.passed[k].Did? then t.passed[k].result.err.NoError? else SurelyNotDone(t, k)
  {
    PaidPlansPutCardsFirst(task, actions);
    assert Kinds(PlanOf(task, actions))[k].SendCard?;
    ConfirmFollowsNoUnknownCard(Kinds(PlanOf(task, actions)), lease, steps, t, i, k);
  }

  // ---- manual delivery ----------------------------------------------------------------------------

  /** The settings with an explicit delay: what is no object is replaced by an object. */
  function Overridden(c: Config): Config
    requires !c.Null?
  {
    match c
    case Unreadable => Readable("", "", true)
    case Mistyped(_) => Mistyped(true)
    case Readable(n, v, _) => Readable(n, v, true)
  }

  /** Null settings leave no map to write the explicit delay to, and the write panics. */
  predicate Panics(a: Action) {
    a.kind.SendCard? && a.config.Null?
  }

  predicate NonePanics(actions: seq<Action>) {
    forall k :: 0 <= k < |actions| ==> !Panics(actions[k])
  }

  /** What immediateManualActions makes of one action: no delay, and for a card an explicit one. */
  function Immediate(a: Action): Action
    requires !Panics(a)
  {
    if a.kind.SendCard? then a.(delay := 0, config := Overridden(a.config)) else a.(delay := 0)
  }

  function AllImmediate(actions: seq<Action>): seq<Action>
    requires NonePanics(actions)
  {
    seq(|actions|, i requires 0 <= i < |actions| => Immediate(actions[i]))
  }

  /** immediateManualActions; None stands for a panic. */
  method ImmediateManualActions(actions: seq<Action>) returns (r: Option<seq<Action>>)
    ensures r == if NonePanics(actions) then Some(AllImmediate(actions)) else None
  {
    var out := actions;
    for i := 0 to |out|
      invariant |out| == |actions|
      invariant forall k :: 0 <= k < i ==> !Panics(actions[k]) && out[k] == Immediate(actions[k])
      invariant forall k :: i <= k < |out| ==> out[k] == actions[k]
    {
      out := out[i := out[i].(delay := 0)];
      if out[i].kind.SendCard? {
        if out[i].config.Null? {
          assert Panics(actions[i]);
          return None;
        }
        out := out[i := out[i].(config := Overridden(out[i].config))];
      }
    }
    assert NonePanics(actions) && out == AllImmediate(actions);
    r := Some(out);
  }

  /** actionDelaySeconds for a card whose own delay is `cardDelay`. */
  function EffectiveDelay(a: Action, cardDelay: nat): nat {
    if a.kind.SendCard? && !((a.config.Readable? || a.config.Mistyped?) && a.config.delayOverride) then cardDelay
        else a.delay
  }

  lemma ManualActionsNeverWait(actions: seq<Action>, i: nat, cardDelay: nat)
    requires NonePanics(actions) && i < |actions|
    ensures EffectiveDelay(AllImmediate(actions)[i], cardDelay) == 0
  {
  }

  /** The plan of a manual delivery, None if it panics. */
  function ManualPlan(task: Task, actions: seq<Action>): Option<seq<Action>> {
    if NonePanics(actions) then Some(PlanOf(task, AllImmediate(actions))) else None
  }

  /** A card whose settings are no object is picked up by a manual delivery of an order without
      specification. */
  predicate PicksUpUnreadable(task: Task, actions: seq<Action>) {
    && Blank(task.specName) && Blank(task.specValue)
    && exists i :: 0 <= i < |actions| && actions[i].enabled && actions[i].kind.SendCard?
        && actions[i].config.Unreadable?
  }

  lemma BlankIsBlank()
    ensures Blank("")
  {
    TrimmedStays("");
  }

  lemma {:induction false} FilterImmediate(actions: seq<Action>, keep: Action -> bool, keepManual: Action -> bool)
    requires NonePanics(actions)
    requires forall k :: 0 <= k < |actions| ==> (keep(actions[k]) ==> keepManual(Immediate(actions[k])))
    ensures NonePanics(Filter(actions, keep))
    ensures |Filter(AllImmediate(actions), keepManual)| >= |Filter(actions, keep)|
    ensures |Filter(AllImmediate(actions), keepManual)| == |Filter(actions, keep)|
            <==> forall k :: 0 <= k < |actions| ==> (keep(actions[k]) <==> keepManual(Immediate(actions[k])))
    ensures |Filter(AllImmediate(actions), keepManual)| == |Filter(actions, keep)|
            ==> Filter(AllImmediate(actions), keepManual) == AllImmediate(Filter(actions, keep))
    decreases |actions|
  {
    if actions != [] {
      var front, last := actions[..|actions| - 1], actions[|actions| - 1];
      FilterImmediate(front, keep, keepManual);
      assert AllImmediate(actions)[..|actions| - 1] == AllImmediate(front);
      assert forall k :: 0 <= k < |front| ==> front[k] == actions[k];
      assert actions[|front|] == last;
      AllImmediateSplits(Filter(front, keep), [last]);
    }
  }

  lemma AllImmediateSplits(a: seq<Action>, b: seq<Action>)
    requires NonePanics(a) && NonePanics(b)
    ensures NonePanics(a + b) && AllImmediate(a + b) == AllImmediate(a) + AllImmediate(b)
  {
  }

  lemma ImmediateCard(task: Task, a: Action)
    requires !Panics(a)
    ensures IsCard(task, Immediate(a))
            <==> || IsCard(task, a)
                 || (a.enabled && a.kind.SendCard? && a.config.Unreadable? && Blank(task.specName)
                     && Blank(task.specValue))
  {
    hide Blank, OrderSpec.Equal;
    assert Blank("") by { BlankIsBlank(); }
  }

  lemma ManualCards(task: Task, actions: seq<Action>)
    requires NonePanics(actions)
    ensures NonePanics(Filter(actions, CardTest(task)))
    ensures var manual, cards := Filter(AllImmediate(actions), CardTest(task)), Filter(actions, CardTest(task));
            && |manual| >= |cards|
            && (|manual| == |cards| <==> !PicksUpUnreadable(task, actions))
            && (|manual| == |cards| ==> manual == AllImmediate(cards))
  {
    forall k | 0 <= k < |actions|
      ensures IsCard(task, Immediate(actions[k]))
              <==> || IsCard(task, actions[k])
                   || (&& actions[k].enabled && actions[k].kind.SendCard? && actions[k].config.Unreadable?
                       && Blank(task.specName) && Blank(task.specValue))
    {
      ImmediateCard(task, actions[k]);
    }
    FilterImmediate(actions, CardTest(task), CardTest(task));
  }

  /** A manual delivery runs the plan of the automatic one, only without delays, exactly when no card
      of the rule has null settings and it does not pick up a card whose settings are no object. */
  lemma ManualPlanIsThePlan(task: Task, actions: seq<Action>)
    requires task.paid
    ensures && NonePanics(PlanOf(task, actions))
            && ManualPlan(task, actions) == Some(AllImmediate(PlanOf(task, actions)))
            <==> NonePanics(actions) && !PicksUpUnreadable(task, actions)
  {
    if NonePanics(actions) {
      ManualCards(task, actions);
      FilterImmediate(actions, IsConfirm, IsConfirm);
      AllImmediateSplits(Filter(actions, CardTest(task)), Filter(actions, IsConfirm));
    }
  }

  /** Enabled card actions of a rule that orders are matched with: saving a rule and the migration of old
      ones refuse settings that are no object or null, but look at enabled actions only. */
  predicate Storable(actions: seq<Action>) {
    forall k :: 0 <= k < |actions| && actions[k].enabled && actions[k].kind.SendCard? ==>
        actions[k].config.Readable? || actions[k].config.Mistyped?
  }

  /** Manual delivery of a stored rule: it runs the plan of the automatic one, only without delays, unless
      a disabled card of the rule has null settings; then it panics. */
  lemma StoredManualPlanIsThePlan(task: Task, actions: seq<Action>)
    requires task.paid && Storable(actions)
    ensures NonePanics(PlanOf(task, actions))
    ensures ManualPlan(task, actions) == Some(AllImmediate(PlanOf(task, actions)))
            <==> forall k :: 0 <= k < |actions| && actions[k].kind.SendCard? && !actions[k].enabled ==>
                   !actions[k].config.Null?
    ensures ManualPlan(task, actions) == None
            <==> exists k :: 0 <= k < |actions| && actions[k].kind.SendCard? && !actions[k].enabled
                   && actions[k].config.Null?
  {
    hide PlanOf, MatchesSpec, OrderSpec.Equal, Blank, Kinds, PaidPlan, AllImmediate;
    PaidPlansPutCardsFirst(task, actions);
    forall k | 0 <= k < |PlanOf(task, actions)|
      ensures !Panics(PlanOf(task, actions)[k])
    {
      assert PlanOf(task, actions)[k] in actions;
    }
    ManualPlanIsThePlan(task, actions);
    forall k | 0 <= k < |actions| && Panics(actions[k])
      ensures !actions[k].enabled
    {
    }
  }

  /** A rule with a card for every order and a disabled card with null settings, which the check of a saved
      rule accepts: the automatic plan sends the first card, the manual delivery panics. */
  lemma DisabledNullPanics(task: Task) returns (actions: seq<Action>)
    requires task == Task(true, "", "")
    ensures Storable(actions) && |PlanOf(task, actions)| == 1 && ManualPlan(task, actions) == None
  {
    hide Blank, OrderSpec.Equal, PlanOf;
    assert Blank("") by { BlankIsBlank(); }
    var card, off := Action(SendCard, true, 0, Readable("", "", true)), Action(SendCard, false, 0, Null);
    actions := [card, off];
    TwoActions(task, card, off);
    assert Panics(actions[1]);
  }

  lemma TwoActions(task: Task, a: Action, b: Action)
    requires task.paid && a.kind.SendCard? && b.kind.SendCard?
    ensures PlanOf(task, [a, b]) == (if IsCard(task, a) then [a] else []) + (if IsCard(task, b) then [b] else [])
  {
    var isCard := CardTest(task);
    assert [a, b][..1] == [a] && [a][..0] == [];
    assert Filter([], isCard) == [] && Filter([], IsConfirm) == [];
    assert Filter([a], isCard) == (if isCard(a) then [a] else []) && Filter([a], IsConfirm) == [];
  }
}
