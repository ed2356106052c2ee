/** The sending actions that take nothing from stock: the plain text, fixed texts and pictures, and remote cards. */
module CardSending {
  import opened CardText
  import opened DeliveryProof
  import opened GoText
  import opened RunProtocol
  import opened CardStock

  datatype PlainCard = TextCard(content: string) | ImageCard(url: string) | OtherCard

  /** cardContent finds something to send. */
  predicate HasContent(card: PlainCard) {
    match card
    case TextCard(content) => !CardText.Blank(content)
    case ImageCard(url) => !CardText.Blank(url)
    case OtherCard => false
  }

  /** The message is the card's own content. */
  predicate IsUnit(card: PlainCard, render: string -> string, body: string) {
    match card
    case TextCard(content) => body == render(content) && !CardText.Blank(content)
    case ImageCard(url) => body == url && !CardText.Blank(url)
    case OtherCard => false
  }

  /** The proof of delivered messages: a list of pictures or one text. */
  function ProofOf(card: PlainCard, bodies: seq<string>): Proof {
    if card.ImageCard? then Proof("", bodies) else Proof(Accumulate("", bodies), [])
  }

  lemma NoProof(card: PlainCard)
    ensures ProofOf(card, Bodies([])) == EMPTY_PROOF
  {
  }

  lemma ProofOneMore(card: PlainCard, bodies: seq<string>, body: string)
    ensures ProofOf(card, bodies + [body])
            == if card.ImageCard? then ProofOf(card, bodies).(pics := ProofOf(card, bodies).pics + [body])
               else ProofOf(card, bodies).(text := AppendTradeText(ProofOf(card, bodies).text, body))
  {
    AccumulateLast(bodies, body);
  }

  /** What the messages were. */
  function Bodies(log: seq<Handed>): (r: seq<string>)
    ensures |r| == |log| && forall i :: 0 <= i < |r| ==> r[i] == log[i].body
  {
    seq(|log|, i requires 0 <= i < |log| => log[i].body)
  }

  /** The messages that were delivered: all but a last one that was not. */
  function Arrived(log: seq<Handed>): seq<Handed> {
    if log != [] && !log[|log| - 1].answer.Delivered? then log[..|log| - 1] else log
  }

  /** The text action: a blank text counts as done, and the sender is asked once at most. */
  method SendPlainText(text: string) returns (result: ActionResult, log: seq<Handed>)
    ensures log == [] <==> CardText.Blank(text)
    ensures |log| <= 1 && (log != [] ==> log[0].body == text)
    ensures result.proof == EMPTY_PROOF && result.review == EMPTY_PROOF
    ensures result.sent == if log == [Handed(text, Delivered)] then 1 else 0
    ensures result.err.NoError? <==> log == [] || log == [Handed(text, Delivered)]
    ensures NotDone(result) <==> log == [Handed(text, NotSentError)]
  {
    if CardText.Blank(text) {
      return ActionResult(0, EMPTY_PROOF, EMPTY_PROOF, NoError), [];
    }
    var sending: Sending := *;
    log := [Handed(text, sending)];
    result := match sending
      case Delivered => ActionResult(1, EMPTY_PROOF, EMPTY_PROOF, NoError)
      case NotSentError => ActionResult(0, EMPTY_PROOF, EMPTY_PROOF, NotSent)
      case UnknownError => ActionResult(0, EMPTY_PROOF, EMPTY_PROOF, Uncertain);
  }

  /** The loop of sendCardWithProof: `log` is what the sender was handed and reported of each unit. The
      result counts and proves exactly the delivered units, and denies everything only when nothing was
      delivered and nothing is unknown. */
  method SendPlainCard(card: PlainCard, count: nat, render: string -> string)
    returns (result: ActionResult, log: seq<Handed>)
    ensures |log| <= count && forall i :: 0 <= i < |log| ==> IsUnit(card, render, log[i].body)
    ensures forall i :: 0 <= i < |log| - 1 ==> log[i].answer.Delivered?
    ensures result.sent == |Arrived(log)| && result.review == EMPTY_PROOF
    ensures result.proof == ProofOf(card, Bodies(Arrived(log)))
    ensures result.err.NoError? <==> result.sent == count
    ensures result.err.NotSent? <==> log != [] && log[|log| - 1].answer.NotSentError?
    ensures result.err.Uncertain? <==>
              log != [] && !log[|log| - 1].answer.Delivered? && !log[|log| - 1].answer.NotSentError?
    // nothing is sent exactly when there is nothing to send
    ensures log == [] <==>
              || count == 0 || card.OtherCard?
              || (card.TextCard? && CardText.Blank(card.content)) || (card.ImageCard? && CardText.Blank(card.url))
    ensures NotDone(result) ==> log == [] || (|log| == 1 && log[0].answer.NotSentError?)
  {
    hide ProofOf, AppendTradeText, TrimSpace;
    var sent, proof := 0, EMPTY_PROOF;
    log := [];
    NoProof(card);
    for i := 0 to count
      invariant |log| == i == sent && (i > 0 ==> HasContent(card))
      invariant forall k :: 0 <= k < |log| ==> IsUnit(card, render, log[k].body) && log[k].answer.Delivered?
      invariant proof == ProofOf(card, Bodies(log))
    {
      if !HasContent(card) {
        result := ActionResult(sent, proof, EMPTY_PROOF, OtherError);
        return;
      }
      var body := if card.ImageCard? then card.url else render(card.content);
      var sending: Sending := *;
      ghost var before := log;
      log := log + [Handed(body, sending)];
      if !sending.Delivered? {
        assert Arrived(log) == before;
        result := ActionResult(sent, proof, EMPTY_PROOF, if sending.NotSentError? then NotSent else Uncertain);
        return;
      }
      assert Bodies(log) == Bodies(before) + [body];
      ProofOneMore(card, Bodies(before), body);
      proof := if card.ImageCard? then proof.(pics := proof.pics + [body])
               else proof.(text := AppendTradeText(proof.text, body));
      sent := sent + 1;
    }
    result := ActionResult(sent, proof, EMPTY_PROOF, NoError);
  }

  /** How the work on remote units ends. */
  datatype RemoteEnd = AllSent | NotFetched(dispatched: bool) | EmptyAnswer | NotDelivered(content: string)

  /** The loop of sendAPICardWithProof: once a request may have reached the service, a unit that is
      not delivered leaves the outcome open, so it is never fetched again by itself. `fetched` is what the
      service has answered. */
  method SendApiCard(count: nat)
    returns (result: ActionResult, delivered: seq<string>, end: RemoteEnd, fetched: seq<string>, log: seq<Handed>)
    ensures |delivered| <= count && result.sent == |delivered|
    ensures |fetched| == |delivered| + if end.EmptyAnswer? || end.NotDelivered? then 1 else 0
    // each answer with a content is handed to the sender as it is
    ensures Bodies(log) == if end.EmptyAnswer? then fetched[..|delivered|] else fetched
    ensures forall i :: 0 <= i < |fetched| ==> (CardText.Blank(fetched[i]) <==> end.EmptyAnswer? && i == |delivered|)
    ensures forall i :: 0 <= i < |delivered| ==> delivered[i] == fetched[i] && log[i].answer.Delivered?
    ensures end.NotDelivered? ==> !log[|delivered|].answer.Delivered? && end.content == fetched[|delivered|]
    ensures result.proof == Proof(Accumulate("", delivered), [])
    ensures end.AllSent? <==> |delivered| == count
    ensures result.err == match end
                          case AllSent => NoError
                          case NotFetched(dispatched) => if dispatched then Uncertain else DoNotRetry
                          case EmptyAnswer => Uncertain
                          case NotDelivered(_) => Uncertain
    ensures NotDone(result) ==> delivered == [] && end == NotFetched(false)
  {
    hide AppendTradeText, TrimSpace, Bodies;
    NoProof(OtherCard);
    var sent, text := 0, "";
    delivered, fetched, log := [], [], [];
    for unitIndex := 1 to count + 1
      invariant |delivered| == unitIndex - 1 == sent == |log| && text == Accumulate("", delivered)
      invariant fetched == delivered == Bodies(log)
      invariant forall i :: 0 <= i < |log| ==> log[i].answer.Delivered?
      invariant forall i :: 0 <= i < |fetched| ==> !CardText.Blank(fetched[i])
    {
      var fetches: bool := *;
      var dispatched: bool := *;
      var content: string := *;
      if !fetches {
        end := NotFetched(dispatched);
        result := ActionResult(sent, Proof(text, []), EMPTY_PROOF, if dispatched then Uncertain else DoNotRetry);
        return;
      }
      fetched := fetched + [content];
      if CardText.Blank(content) {
        end := EmptyAnswer;
        result := ActionResult(sent, Proof(text, []), EMPTY_PROOF, Uncertain);
        return;
      }
      var sending: Sending := *;
      log := log + [Handed(content, sending)];
      if !sending.Delivered? {
        end := NotDelivered(content);
        result := ActionResult(sent, Proof(text, []), EMPTY_PROOF, Uncertain);
        return;
      }
      AccumulateLast(delivered, content);
      text := AppendTradeText(text, content);
      delivered := delivered + [content];
      sent := sent + 1;
    }
    end := AllSent;
    result := ActionResult(sent, Proof(text, []), EMPTY_PROOF, NoError);
  }
}
