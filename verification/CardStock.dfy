/**
  Data cards taken from stock, handed to the message sender and put back when they were not
  sent. Other processes take and add lines at any time. One line text of one card is watched;
  both are arbitrary, so what holds of the watched line holds of every line of every card.
 */
module CardStock {
  import opened GoText
  import opened CardText
  import opened DeliveryProof
  import opened RunProtocol
  import opened Wrappers

  /** A line taken from a card. */
  datatype Unit = Unit(card: nat, content: string)

  /** What the sender reports about one message. */
  datatype Sending = Delivered | NotSentError | UnknownError

  /** A message handed to the sender, and what it reports. */
  datatype Handed = Handed(body: string, answer: Sending)

  /** How the work on one unit ends. */
  datatype UnitEnd = OutOfStock | PutAgain | Stranded | Doubtful | UnitDelivered

  function IsWatched(u: Unit, card: nat, line: string): nat {
    if u.card == card && TrimSpace(u.content) == line then 1 else 0
  }

  /** How many of the units are the watched line. */
  function Watched(units: seq<Unit>, card: nat, line: string): nat {
    if units == [] then 0 else Watched(units[..|units| - 1], card, line) + IsWatched(units[|units| - 1], card, line)
  }

  lemma WatchedOneMore(units: seq<Unit>, u: Unit, card: nat, line: string)
    ensures Watched(units + [u], card, line) == Watched(units, card, line) + IsWatched(u, card, line)
  {
    assert (units + [u])[..|units|] == units;
  }

  lemma {:induction false} WatchedSplits(a: seq<Unit>, b: seq<Unit>, card: nat, line: string)
    ensures Watched(a + b, card, line) == Watched(a, card, line) + Watched(b, card, line)
  {
    if b == [] {
      assert a + b == a;
    } else {
      assert (a + b)[..|a + b| - 1] == a + b[..|b| - 1];
      WatchedSplits(a, b[..|b| - 1], card, line);
    }
  }

  /** Units as they come out of stock. */
  predicate AllLines(units: seq<Unit>) {
    forall k :: 0 <= k < |units| ==> IsLine(units[k].content)
  }

  predicate IsLine(content: string) {
    !CardText.Blank(content) && NoBreak(content)
  }

  lemma TakingCountsOne(s: string, line: string)
    requires Lines(s) != []
    ensures Count(Lines(s), line) == Count(Lines(WithoutFirst(s)), line) + if TrimSpace(Lines(s)[0]) == line then 1
        else 0
    ensures IsLine(Lines(s)[0])
  {
    TakingRemovesTheFirst(s);
    LinesAreClean(s);
  }

  lemma PuttingBackCountsOne(content: string, s: string, line: string)
    requires IsLine(content)
    ensures Count(Lines(PutBack(content, s)), line) == Count(Lines(s), line) + if TrimSpace(content) == line then 1
        else 0
  {
    PuttingBackAddsInFront(content, s);
    TrimmedStays(TrimSpace(content));
    assert ([TrimSpace(content)] + Lines(s))[1..] == Lines(s);
  }

  /** The cards of the store and the lines this worker has taken. */
  class Cards {
    var data: map<nat, string>
    /** Nobody else works on the cards, and no statement fails. */
    const quiet: bool
    ghost const card: nat
    ghost const line: string
    /** The lines this worker has tried to put back, in order. */
    ghost var putBacks: seq<Unit>
    /** Watched lines this worker has taken and not put back. */
    ghost var held: int
    /** Watched lines there must be in all; only others change it. */
    ghost var expected: int

    constructor (data: map<nat, string>, quiet: bool, ghost card: nat, ghost line: string)
      ensures Valid() && held == 0 && this.card == card && this.line == line && this.quiet == quiet
    {
      this.data := data;
      this.quiet := quiet;
      putBacks := [];
      this.card := card;
      this.line := line;
      held := 0;
      expected := Count(Lines(if card in data then data[card] else ""), line);
    }

    ghost function InStock(): nat
      reads this
    {
      Count(Lines(if card in data then data[card] else ""), line)
    }

    /** Nothing is lost or doubled: the watched lines in stock and those taken add up. */
    ghost predicate Valid()
      reads this
    {
      InStock() + held == expected
    }

    /** Other processes change the cards; `expected` follows them. Callers rely on the contract
        alone. */
    method Others()
      requires Valid()
      modifies this
      ensures Valid() && held == old(held) && putBacks == old(putBacks)
      ensures quiet ==> data == old(data)
    {
    }

    /** The conditional update of one card's stock. */
    method UpdateStock(id: nat, seen: string, next: string, ghost taken: int) returns (ok: bool)
      requires Valid()
      requires id == card ==> Count(Lines(seen), line) == Count(Lines(next), line) + taken
      requires id != card ==> taken == 0
      modifies `data, `held
      ensures Valid()
      ensures ok <==> id in old(data) && old(data)[id] == seen
      ensures held == if ok then old(held) + taken else old(held)
      ensures ok ==> id in old(data) && old(data)[id] == seen && data == old(data)[id := next]
      ensures !ok ==> data == old(data)
    {
      ok := id in data && data[id] == seen;
      if ok {
        data := data[id := next];
        held := held + taken;
      }
    }

    /** ConsumeBatchData: takes the first line of a card. */
    method ConsumeBatchData(id: nat) returns (r: Option<string>, ghost seen: string)
      requires Valid()
      modifies this
      ensures Valid()
      ensures r.Some? ==> Lines(seen) != [] && r.value == Lines(seen)[0] && id in data && data[id] == WithoutFirst(seen)
      ensures r.None? ==> held == old(held)
      ensures putBacks == old(putBacks)
      // with nobody else around a line is taken as long as there is one
      ensures quiet ==> (r.Some? <==> id in old(data) && Lines(old(data)[id]) != [])
      ensures quiet && r.Some? ==> seen == old(data)[id] && data == old(data)[id := WithoutFirst(seen)]
      ensures r.Some? ==> IsLine(r.value) && held == old(held) + IsWatched(Unit(id, r.value), card, line)
    {
      for attempts := 0 to 20
        invariant Valid() && held == old(held) && putBacks == old(putBacks)
        invariant quiet ==> attempts == 0 && data == old(data)
      {
        Others();
        var failed: bool := *;
        failed := failed && !quiet;
        if failed || id !in data || data[id] == "" {
          NoLines();
          return None, "";
        }
        var current := data[id];
        var lines := SplitLines(current);
        if |lines| == 0 {
          return None, "";
        }
        var remaining := JoinLines(lines[1..]);
        TakingCountsOne(current, line);
        Others();
        failed := *;
        if failed && !quiet {
          return None, "";
        }
        var updated := UpdateStock(id, current, remaining, IsWatched(Unit(id, lines[0]), card, line));
        if updated {
          return Some(lines[0]), current;
        }
      }
      r, seen := None, "";
    }

    method PutBackOnto(id: nat, content: string, current: string) returns (ok: bool)
      requires Valid() && IsLine(content)
      modifies `data, `held
      ensures Valid()
      ensures held == if ok then old(held) - IsWatched(Unit(id, content), card, line) else old(held)
      ensures ok <==> id in old(data) && old(data)[id] == current
      ensures ok ==> id in old(data) && old(data)[id] == current && data == old(data)[id := PutBack(content, current)]
    {
      PuttingBackCountsOne(content, current, line);
      ghost var back: int := IsWatched(Unit(id, content), card, line);
      ok := UpdateStock(id, current, PutBack(content, current), 0 - back);
    }

    /** RestoreBatchData: puts an unsent line back in front. */
    method RestoreBatchData(id: nat, content: string) returns (ok: bool, ghost seen: string)
      requires Valid() && IsLine(content)
      modifies this
      ensures Valid()
      ensures ok ==> id in data && data[id] == PutBack(content, seen)
      ensures putBacks == old(putBacks) + [Unit(id, content)]
      ensures quiet ==> (ok <==> id in old(data)) && (ok ==> data == old(data)[id := PutBack(content, old(data)[id])])
      ensures held == if ok then old(held) - IsWatched(Unit(id, content), card, line) else old(held)
    {
      putBacks := putBacks + [Unit(id, content)];
      for attempts := 0 to 20
        invariant Valid() && held == old(held) && putBacks == old(putBacks) + [Unit(id, content)]
        invariant quiet ==> attempts == 0 && data == old(data)
      {
        Others();
        var failed: bool := *;
        if (failed && !quiet) || id !in data {
          return false, "";
        }
        var current := data[id];
        Others();
        failed := *;
        if failed && !quiet {
          return false, "";
        }
        ok := PutBackOnto(id, content, current);
        if ok {
          seen := current;
          return;
        }
      }
      ok, seen := false, "";
    }

    // ---- a data card action --------------------------------------------------------------------------

    /** One unit of a data card action; a unit that was taken stays taken unless it was put back. */
    method SendUnit(id: nat, render: string -> string)
      returns (end: UnitEnd, content: string, sending: Option<Handed>)
      requires Valid()
      modifies this
      ensures Valid()
      ensures end == match sending
                     case None => OutOfStock
                     case Some(handed) =>
                       if handed.answer.Delivered? then UnitDelivered
                       else if !handed.answer.NotSentError? then Doubtful
                       else if end.PutAgain? then PutAgain else Stranded
      ensures sending.Some? ==> IsLine(content) && sending.value.body == render(content)
      ensures end.OutOfStock? || end.PutAgain? ==> held == old(held)
      // a line that was surely not sent is put back, and no other
      ensures putBacks == old(putBacks)
          + if sending.Some? && sending.value.answer.NotSentError? then [Unit(id, content)] else []
      ensures quiet && id in old(data) && Lines(old(data)[id]) != [] ==> !end.OutOfStock? && !end.Stranded?
      ensures !end.OutOfStock? && !end.PutAgain? ==>
                IsLine(content) && held == old(held) + IsWatched(Unit(id, content), card, line)
    {
      var taken, _ := ConsumeBatchData(id);
      if taken.None? {
        return OutOfStock, "", None;
      }
      content := taken.value;
      Others();
      var answer: Sending := *;
      sending := Some(Handed(render(content), answer));
      if answer.NotSentError? {
        var ok, _ := RestoreBatchData(id, content);
        end := if ok then PutAgain else Stranded;
      } else {
        end := if answer.Delivered? then UnitDelivered else Doubtful;
      }
    }

    /** sendDataCardWithProof. Every line taken is `delivered`, or its delivery is unknown
        (`doubtful`), or it was not sent and could not be put back (`stranded`); all others are in
        stock again. */
    method SendDataCard(id: nat, count: nat, render: string -> string)
      returns (result: ActionResult, log: seq<Handed>, ghost delivered: seq<Unit>, ghost doubtful: seq<Unit>,
          ghost stranded: seq<Unit>)
      requires Valid()
      modifies this
      ensures Valid()
      // `log` is what was handed to the sender, unit by unit, with its reports
      ensures |delivered| <= |log| <= |delivered| + 1
      ensures forall k :: 0 <= k < |delivered| ==> log[k] == Handed(render(delivered[k].content), Delivered)
      ensures |log| > |delivered| ==> !log[|delivered|].answer.Delivered?
      ensures forall u :: u in doubtful + stranded ==> |log| > |delivered| && log[|delivered|].body == render(u.content)
      ensures doubtful != [] <==> |log| > |delivered| && !log[|delivered|].answer.NotSentError?
      ensures result.err.NotSent? || stranded != [] ==> |log| > |delivered| && log[|delivered|].answer.NotSentError?
      ensures held == old(held) + Watched(delivered, card, line) + Watched(doubtful, card, line)
          + Watched(stranded, card, line)
      ensures AllLines(delivered) && |delivered| <= count && forall k :: 0 <= k < |delivered| ==>
          delivered[k].card == id
      ensures result.sent == |delivered| && result.proof == Proof(Accumulate("", Texts(delivered, render)), [])
      ensures result.err.NoError? <==> |delivered| == count
      ensures result.err.OtherError? <==> |log| == |delivered| < count
      ensures doubtful + stranded != [] ==> result.err.Uncertain? && |doubtful + stranded| == 1
      ensures result.err.NotSent? || result.err.NoError? ==> doubtful == [] && stranded == []
      // the one line that was surely not sent is put back
      ensures if |log| > |delivered| && log[|delivered|].answer.NotSentError?
              then && |putBacks| == |old(putBacks)| + 1 && old(putBacks) <= putBacks
                   && putBacks[|old(putBacks)|].card == id
                   && log[|delivered|].body == render(putBacks[|old(putBacks)|].content)
              else putBacks == old(putBacks)
      // a report that nothing was done is true, and all lines are in stock again
      ensures NotDone(result) ==> delivered == [] && doubtful == [] && stranded == []
    {
      hide Accumulate, AppendTradeText, Watched, IsLine;
      NothingSent(card, line, render);
      var sent, text := 0, "";
      log, delivered, doubtful, stranded := [], [], [], [];
      for i := 0 to count
        invariant Valid() && sent == |delivered| == |log| == i
        invariant forall k :: 0 <= k < |log| ==> log[k] == Handed(render(delivered[k].content), Delivered)
        invariant doubtful == [] && stranded == [] && putBacks == old(putBacks)
        invariant held == old(held) + Watched(delivered, card, line)
        invariant AllLines(delivered) && forall k :: 0 <= k < |delivered| ==> delivered[k].card == id
        invariant text == Accumulate("", Texts(delivered, render))
      {
        var end, content, sending := SendUnit(id, render);
        log := if sending.Some? then log + [sending.value] else log;
        ghost var unit := Unit(id, content);
        OneUnit(unit, card, line);
        if !end.UnitDelivered? {
          stranded := if end.Stranded? then [unit] else [];
          doubtful := if end.Doubtful? then [unit] else [];
          result := ActionResult(sent, Proof(text, []), EMPTY_PROOF,
                                 match end
                                 case OutOfStock => OtherError
                                 case PutAgain => NotSent
                                 case _ => Uncertain);
          return;
        }
        DeliveredOneMore(delivered, unit, card, line, render);
        text := AppendTradeText(text, render(content));
        delivered := delivered + [unit];
        sent := sent + 1;
      }
      result := ActionResult(sent, Proof(text, []), EMPTY_PROOF, NoError);
    }
  }

  lemma OneUnit(u: Unit, card: nat, line: string)
    ensures Watched([u], card, line) == IsWatched(u, card, line)
    ensures Watched([], card, line) == 0
  {
    assert [u] == [] + [u];
    WatchedOneMore([], u, card, line);
  }

  /** The texts handed to the sender for the units. */
  function Texts(units: seq<Unit>, render: string -> string): seq<string> {
    seq(|units|, k requires 0 <= k < |units| => render(units[k].content))
  }

  lemma NothingSent(card: nat, line: string, render: string -> string)
    ensures Watched([], card, line) == 0 && Accumulate("", Texts([], render)) == ""
  {
  }

  lemma DeliveredOneMore(units: seq<Unit>, u: Unit, card: nat, line: string, render: string -> string)
    ensures Watched(units + [u], card, line) == Watched(units, card, line) + IsWatched(u, card, line)
    ensures Accumulate("", Texts(units + [u], render)) == AppendTradeText(Accumulate("", Texts(units, render)),
        render(u.content))
  {
    WatchedOneMore(units, u, card, line);
    assert Texts(units + [u], render) == Texts(units, render) + [render(u.content)];
    AccumulateLast(Texts(units, render), render(u.content));
  }
}
