/**
  One action of a run, whatever its kind: what it did outside the server, what its answer says about
  that, and what follows for all tries of a run.
 */
module ActionExecutor {
  import opened CardSending
  import opened CardStock
  import opened DeliveryProof
  import opened PlatformActions
  import opened RunProtocol
  import opened RunTable
  import opened TemplateDelivery
  import opened Wrappers

  /** What an action needs to know; a card action also whether its order matches and its card is usable. */
  datatype Request =
    | Confirm(order: string, autoConfirm: Option<bool>, force: bool)
    | Adjust(order: string, price: Option<int>)
    | Card(matches: bool, usable: bool, card: CardSource, count: nat)
    | Template(matches: bool, bindings: map<string, Binding>, messages: seq<Message>)
    | Text(text: string)

  datatype CardSource = Fixed(card: PlainCard) | Stock(id: nat) | Remote

  function KindOf(request: Request): ActionType {
    match request
    case Confirm(_, _, _) => ConfirmShipment
    case Adjust(_, _) => AdjustPrice
    case Card(_, _, _, _) => SendCard
    case Template(_, _, _) => SendTemplate
    case Text(_) => SendText
  }

  /** What an action did outside: submissions to the platform, messages handed to the sender, or cards
      asked from the remote service. */
  datatype Effect =
    | Submitted(made: seq<Submission>)
    | Messaged(answers: seq<Option<Handed>>)
    | Asked(delivered: seq<string>, end: RemoteEnd)

  const NO_EFFECT := Messaged([])

  /** The sender may have delivered this message. */
  predicate MayBeOut(answer: Option<Handed>) {
    answer.Some? && !answer.value.answer.NotSentError?
  }

  /** Something may have happened outside. */
  predicate MayHaveHappened(effect: Effect) {
    match effect
    case Submitted(made) => !AllTurned(made)
    case Messaged(answers) => exists i :: 0 <= i < |answers| && MayBeOut(answers[i])
    case Asked(delivered, end) => delivered != [] || end != NotFetched(false)
  }

  /** A message went out, and a later one could not be loaded. */
  predicate BrokeOff(effect: Effect) {
    && effect.Messaged? && effect.answers != [] && effect.answers[|effect.answers| - 1].None?
    && exists i :: 0 <= i < |effect.answers| && effect.answers[i].Some? && effect.answers[i].value.answer.Delivered?
  }

  /** A denial is true, but for a template that broke off, and what is counted has an effect. */
  predicate Reports(action: ActionType, result: ActionResult, effect: Effect) {
    && (NotDone(result) && MayHaveHappened(effect) ==> action.SendTemplate? && BrokeOff(effect))
    && (result.sent > 0 ==> MayHaveHappened(effect))
  }

  /** The shipment is to be confirmed: the account's setting is on or overruled. */
  predicate Confirms(request: Request) {
    && request.Confirm? && request.order != "" && request.autoConfirm.Some?
    && (request.autoConfirm.value || request.force)
  }

  /** What the request asks for has been done, exactly when the result says success; where nothing is asked
      for, nothing was done. */
  predicate Performs(request: Request, proof: Proof, result: ActionResult, effect: Effect) {
    match request
    case Confirm(order, autoConfirm, force) =>
      && effect.Submitted? && AllAsk(effect.made, Shipment(order, proof))
      && (order == "" || autoConfirm.None? ==> effect.made == [] && result.err.OtherError?)
      && (order != "" && autoConfirm == Some(false) && !force ==> effect.made == [] && result.err.NoError?)
      && (Confirms(request) && result.err.NoError? ==>
            effect.made != [] && Accepts(effect.made[|effect.made| - 1].reply))
    case Adjust(order, price) =>
      && effect.Submitted? && (order == "" || price.None? ==> effect.made == [] && result.err.NotPerformed?)
      && (order != "" && price.Some? ==> AllAsk(effect.made, Price(order, price.value)))
      && (result.err.NoError? ==> effect.made != [] && Accepts(effect.made[|effect.made| - 1].reply))
    case Card(matches, usable, card, count) =>
      if !matches then effect == NO_EFFECT && result == NOTHING.(err := NoError)
      else if !usable then effect == NO_EFFECT && result == NOTHING
      else (result.err.NoError? <==> result.sent == count) && (card.Remote? <==> effect.Asked?)
    case Template(matches, _, messages) =>
      if !matches then effect == NO_EFFECT && result == NOTHING.(err := NoError)
      else result.err.NoError? ==> result.sent > 0 && messages != []
    case Text(text) =>
      if CardText.Blank(text) then effect == NO_EFFECT && result.err.NoError?
      else
        && effect.Messaged? && |effect.answers| == 1 && effect.answers[0].Some? && effect.answers[0].value.body == text
        && (result.err.NoError? <==> effect.answers[0].value.answer.Delivered?)
  }

  function Answers(log: seq<Handed>): seq<Option<Handed>> {
    seq(|log|, i requires 0 <= i < |log| => Some(log[i]))
  }

  /** The sender's answers one by one. */
  lemma LogReports(action: ActionType, result: ActionResult, log: seq<Handed>)
    requires NotDone(result) ==> log == [] || (|log| == 1 && log[0].answer.NotSentError?)
    requires result.sent > 0 ==> log != [] && log[0].answer.Delivered?
    ensures Reports(action, result, Messaged(Answers(log)))
  {
    if result.sent > 0 {
      assert MayBeOut(Answers(log)[0]);
    }
  }

  lemma TemplateCounts(attempts: seq<Attempt>)
    requires TemplateResult(attempts).sent > 0
    ensures SentTexts(attempts) != []
  {
  }

  /** What the answers of the sender say about a template that denies everything. */
  lemma TemplateReports(attempts: seq<Attempt>, log: seq<Option<Handed>>)
    requires OnlyLastStops(attempts) && |log| == |attempts| && forall i :: 0 <= i < |log| ==> Fits(attempts[i], log[i])
    ensures Reports(SendTemplate, TemplateResult(attempts), Messaged(log))
  {
    SentTextsOf(attempts);
    if TemplateResult(attempts).sent > 0 {
      TemplateCounts(attempts);
      var i :| 0 <= i < |attempts| && attempts[i].Shipped?;
      assert Fits(attempts[i], log[i]);
    }
    if NotDone(TemplateResult(attempts)) && MayHaveHappened(Messaged(log)) {
      var i :| 0 <= i < |log| && MayBeOut(log[i]);
      assert Fits(attempts[i], log[i]);
      assert attempts[i].Shipped?;
      MisreportsExactly(attempts);
      assert Fits(attempts[|log| - 1], log[|log| - 1]);
    }
  }

  /** executeActionWithProof with the branches of its actions; `first` and `second` are what a confirmation
      meets. */
  method Execute(request: Request, proof: Proof, platform: Platform, cards: Cards, render: string -> string,
        fill: Renderer, first: Around, second: Around)
    returns (result: ActionResult, ghost effect: Effect)
    requires cards.Valid()
    modifies platform, cards
    ensures cards.Valid() && Reports(KindOf(request), result, effect) && Performs(request, proof, result, effect)
    // a confirmation that is asked for is submitted as soon as the session opens
    ensures Confirms(request) ==> (effect.made != [] <==> first.opens)
  {
    effect := NO_EFFECT;
    match request
    case Confirm(order, autoConfirm, force) =>
      ghost var made;
      result, made := platform.ConfirmShipment(order, proof, autoConfirm, force, first, second);
      effect := Submitted(made);
    case Adjust(order, price) =>
      ghost var tries, made;
      result, tries, made := platform.AdjustOrderPrice(order, price);
      TurnedDoNotStand(made);
      effect := Submitted(made);
    case Card(matches, usable, card, count) =>
      if !matches {
        result := NOTHING.(err := NoError);
      } else if !usable {
        result := NOTHING;
      } else {
        result, effect := ExecuteCard(card, count, cards, render);
      }
    case Template(matches, bindings, messages) =>
      result, effect := ExecuteTemplate(matches, bindings, messages, cards, fill);
    case Text(text) =>
      var log;
      result, log := SendPlainText(text);
      effect := Messaged(Answers(log));
      LogReports(SendText, result, log);
  }

  method ExecuteTemplate(matches: bool, bindings: map<string, Binding>, messages: seq<Message>, cards: Cards,
        fill: Renderer)
    returns (result: ActionResult, ghost effect: Effect)
    requires cards.Valid()
    modifies cards
    ensures cards.Valid() && Reports(SendTemplate, result, effect)
    ensures Performs(Template(matches, bindings, messages), EMPTY_PROOF, result, effect)
  {
    var action := new TemplateAction(cards, bindings);
    var log, prepared;
    ghost var attempts, handed, end, leaked, stranded;
    result, log, prepared, attempts, handed, end, leaked, stranded := action.SendTemplate(matches, messages, fill);
    effect := Messaged(log);
    TemplateReports(attempts, log);
    if attempts != [] {
      assert Fits(attempts[|attempts| - 1], log[|attempts| - 1]);
      EndsExactly(attempts, attempts[|attempts| - 1]);
    }
  }

  method ExecuteCard(card: CardSource, count: nat, cards: Cards, render: string -> string)
    returns (result: ActionResult, ghost effect: Effect)
    requires cards.Valid()
    modifies cards
    ensures cards.Valid() && Reports(SendCard, result, effect)
    ensures (result.err.NoError? <==> result.sent == count) && (card.Remote? <==> effect.Asked?)
  {
    match card
    case Fixed(plain) =>
      var log;
      result, log := SendPlainCard(plain, count, render);
      effect := Messaged(Answers(log));
      LogReports(SendCard, result, log);
    case Stock(id) =>
      var log;
      ghost var delivered, doubtful, stranded;
      result, log, delivered, doubtful, stranded := cards.SendDataCard(id, count, render);
      effect := Messaged(Answers(log));
      LogReports(SendCard, result, log);
    case Remote =>
      var delivered, end, fetched, log;
      result, delivered, end, fetched, log := SendApiCard(count);
      effect := Asked(delivered, end);
  }

  // ---- all tries of a run ------------------------------------------------------------------------------

  /** The effects belong to the tries: whatever a try answered was an executor's answer. A try that never
      answered may have had any effect. */
  predicate Executed(plan: seq<ActionType>, tries: seq<Try>, effects: seq<Effect>) {
    && |effects| == |tries|
    && forall k :: 0 <= k < |tries| && !tries[k].stage.Open? && tries[k].pos < |plan| ==>
        Reports(plan[tries[k].pos], tries[k].stage.result, effects[k])
  }

  /** In every run, across crashes, lost replies, stale workers, deferrals and the operator, the effect of
      a position happens once; only a template may act again, after a try that broke off. */
  lemma EffectsHappenOnce(plan: seq<ActionType>, lease: int, steps: seq<Step>, t: Sys, effects: seq<Effect>,
        i: nat, j: nat)
    requires Leads(plan, Initial(lease), steps, t) && Executed(plan, t.tries, effects)
    requires i < j < |t.tries| && t.tries[i].pos == t.tries[j].pos < |plan|
    requires MayHaveHappened(effects[i])
    ensures plan[t.tries[i].pos].SendTemplate? && BrokeOff(effects[i])
  {
    AtMostOnce(plan, lease, steps, t, i, j);
  }
}
