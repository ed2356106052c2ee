/**
  The template action: several messages, each rendered from card lines that are taken from
  stock when a message first needs them and put back when the message was surely not sent.
 */
module TemplateDelivery {
  import opened DeliveryProof
  import opened RunProtocol
  import opened CardStock
  import opened Wrappers

  datatype CardKind = TextCard(content: string) | DataCard | ApiCard

  datatype Binding = Binding(kind: CardKind, card: nat, count: nat)

  /** A message with the card keys it mentions. */
  datatype Message = Message(body: string, keys: seq<string>)

  type Renderer = (Message, map<string, string>) -> string

  // ---- the result of the action --------------------------------------------------------------------

  /** What became of one message. */
  datatype Attempt =
    | LoadFailed(err: ActionError)
    | Empty(restored: bool)                                        // nothing to send; lines put back
    | Shipped(text: string)
    | Refused(text: string, apiFetched: bool, restored: bool)      // surely not sent
    | Unclear(text: string)

  predicate Goes(a: Attempt) {
    a.Shipped? || a == Empty(true)
  }

  function SentTexts(attempts: seq<Attempt>): seq<string> {
    if attempts == [] then []
    else
      var front, last := attempts[..|attempts| - 1], attempts[|attempts| - 1];
      if last.Shipped? then SentTexts(front) + [last.text] else SentTexts(front)
  }

  const NOTHING := ActionResult(0, EMPTY_PROOF, EMPTY_PROOF, OtherError)

  /** The result of messages that went well so far. */
  function SoFar(attempts: seq<Attempt>): ActionResult {
    ActionResult(|SentTexts(attempts)|, Proof(Accumulate("", SentTexts(attempts)), []), EMPTY_PROOF, NoError)
  }

  /** The lines of a refused message are put back only when nothing was sent or fetched before. */
  predicate PutsBack(sent: nat, apiFetched: bool) {
    sent == 0 && !apiFetched
  }

  /** What the action reports when it stops at `last`. */
  function Stopped(sofar: ActionResult, last: Attempt): ActionResult {
    match last
    case LoadFailed(e) => NOTHING.(err := e)
    case Empty(_) => NOTHING.(err := Uncertain)
    case Refused(text, apiFetched, restored) =>
      if PutsBack(sofar.sent, apiFetched) then NOTHING.(err := if restored then NotSent else Uncertain)
      else sofar.(review := Proof(AppendTradeText("", text), []), err := Uncertain)
    case Unclear(text) => sofar.(review := Proof(AppendTradeText("", text), []), err := Uncertain)
    case Shipped(_) => sofar
  }

  /** sendTemplate as a function of what became of its messages. */
  function TemplateResult(attempts: seq<Attempt>): ActionResult {
    if attempts != [] && !Goes(attempts[|attempts| - 1])
    then Stopped(SoFar(attempts[..|attempts| - 1]), attempts[|attempts| - 1])
    else if SentTexts(attempts) == [] then NOTHING.(err := NotSent)
    else SoFar(attempts)
  }

  /** A run of the action: only the last message may stop it. */
  predicate OnlyLastStops(attempts: seq<Attempt>) {
    forall i :: 0 <= i < |attempts| - 1 ==> Goes(attempts[i])
  }

  /** The result claims that nothing was done although a message went out. */
  predicate Misreports(attempts: seq<Attempt>) {
    NotDone(TemplateResult(attempts)) && SentTexts(attempts) != []
  }

  lemma {:induction false} SentTextsOf(attempts: seq<Attempt>)
    ensures SentTexts(attempts) != [] <==> exists i :: 0 <= i < |attempts| && attempts[i].Shipped?
    decreases |attempts|
  {
    if attempts != [] {
      var front := attempts[..|attempts| - 1];
      SentTextsOf(front);
      assert forall i :: 0 <= i < |front| ==> front[i] == attempts[i];
      if i :| 0 <= i < |attempts| && attempts[i].Shipped? {
        assert i == |front| || front[i].Shipped?;
      }
    }
  }

  /** The action denies having sent anything although it has, exactly when a message could not be
      loaded, for a reason that is not an unknown outcome, after an earlier message went out. */
  lemma MisreportsExactly(attempts: seq<Attempt>)
    requires OnlyLastStops(attempts)
    ensures Misreports(attempts)
            <==> && attempts != [] && attempts[|attempts| - 1].LoadFailed?
                 && !attempts[|attempts| - 1].err.Uncertain? && !attempts[|attempts| - 1].err.NoError?
                 && exists i :: 0 <= i < |attempts| && attempts[i].Shipped?
  {
    SentTextsOf(attempts);
  }

  /** How the action ends: with success exactly when every message went well and one was sent; safe to retry
      exactly when nothing was sent or fetched and every line is back; for review, with the text in question,
      after an unknown delivery or a refusal behind something sent or fetched. */
  lemma EndsExactly(attempts: seq<Attempt>, last: Attempt)
    requires attempts != [] && OnlyLastStops(attempts) && last == attempts[|attempts| - 1]
    requires last.LoadFailed? ==> !last.err.NoError? && !SafeToRetry(last.err)
    ensures var result, front := TemplateResult(attempts), attempts[..|attempts| - 1];
            && (result.err.NoError? <==> (last.Shipped? || last == Empty(true)) && SentTexts(attempts) != [])
            && (SafeToRetry(result.err) <==>
                  && SentTexts(attempts) == []
                  && (last == Empty(true) || (last.Refused? && !last.apiFetched && last.restored)))
            && (last.Unclear? || (last.Refused? && (SentTexts(front) != [] || last.apiFetched)) ==>
                  && result.err.Uncertain? && result.review == Proof(AppendTradeText("", last.text), [])
                  && result.sent == |SentTexts(front)| && result.proof.text == Accumulate("", SentTexts(front)))
            && (last == Empty(false) || (last.Refused? && !last.restored) ==> result.err.Uncertain?)
            && (last.LoadFailed? ==> result.err == last.err && result.sent == 0)
  {
  }

  /** In every other run the result is honest: the count is the number of messages sent, and the
      proof is their texts. */
  lemma HonestOtherwise(attempts: seq<Attempt>)
    requires OnlyLastStops(attempts) && !(attempts != []
        && (attempts[|attempts| - 1].LoadFailed? || attempts[|attempts| - 1].Empty?))
    ensures TemplateResult(attempts).sent == |SentTexts(attempts)|
    ensures TemplateResult(attempts).proof.text == Accumulate("", SentTexts(attempts))
    ensures NotDone(TemplateResult(attempts)) ==> SentTexts(attempts) == []
  {
  }

  lemma OneMoreAttempt(attempts: seq<Attempt>, last: Attempt)
    ensures SentTexts(attempts + [last]) == if last.Shipped? then SentTexts(attempts) + [last.text]
        else SentTexts(attempts)
    ensures !Goes(last) ==> TemplateResult(attempts + [last]) == Stopped(SoFar(attempts), last)
    ensures last.Shipped? ==>
              Accumulate("", SentTexts(attempts + [last]))
              == AppendTradeText(Accumulate("", SentTexts(attempts)), last.text)
  {
    assert (attempts + [last])[..|attempts|] == attempts;
    if last.Shipped? {
      AccumulateLast(SentTexts(attempts), last.text);
    }
  }

  // ---- lines lost to a key without a binding ----------------------------------------------------------

  /** The data lines taken for keys[i..] before the first one that has no binding. */
  function TakenBeforeMissing(bindings: map<string, Binding>, loaded: set<string>, keys: seq<string>, i: nat): nat
    requires i <= |keys|
    decreases |keys| - i
  {
    if i == |keys| then 0
    else if keys[i] in loaded then TakenBeforeMissing(bindings, loaded, keys, i + 1)
    else if keys[i] !in bindings then 0
    else LinesOf(bindings[keys[i]]) + TakenBeforeMissing(bindings, loaded + {keys[i]}, keys, i + 1)
  }

  function LinesOf(b: Binding): nat {
    if b.kind.DataCard? then b.count else 0
  }

  /** Keys that are loaded already take no lines. */
  lemma {:induction false} LoadedTakesLess(bindings: map<string, Binding>, few: set<string>, many: set<string>,
        keys: seq<string>, i: nat)
    requires i <= |keys| && few <= many <= bindings.Keys
    ensures TakenBeforeMissing(bindings, many, keys, i) <= TakenBeforeMissing(bindings, few, keys, i)
    decreases |keys| - i
  {
    if i == |keys| || keys[i] !in bindings {
    } else if keys[i] in few {
      LoadedTakesLess(bindings, few, many, keys, i + 1);
    } else if keys[i] in many {
      LoadedTakesLess(bindings, few + {keys[i]}, many, keys, i + 1);
    } else {
      LoadedTakesLess(bindings, few + {keys[i]}, many + {keys[i]}, keys, i + 1);
    }
  }

  /** None of the keys asks the remote card service. */
  predicate NoApi(bindings: map<string, Binding>, keys: seq<string>) {
    forall k :: 0 <= k < |keys| && keys[k] in bindings ==> !bindings[keys[k]].kind.ApiCard?
  }

  predicate AllBound(bindings: map<string, Binding>, keys: seq<string>) {
    forall k :: 0 <= k < |keys| ==> keys[k] in bindings
  }

  /** A message whose first key has no binding takes nothing and cannot be loaded. */
  predicate StartsUnbound(bindings: map<string, Binding>, keys: seq<string>) {
    keys != [] && keys[0] !in bindings
  }

  /** How the loading of a message ends: a key has no binding, or a line could not be taken or fetched. */
  datatype LoadEnd = AllLoaded | KeyMissing | LoadBroke

  /** What the end of loading means for the message: lines are lost exactly when a key without a
      binding is met behind keys that took some; when a line cannot be taken, fewer lines than the
      message needs can be stranded. */
  predicate Accounted(bindings: map<string, Binding>, loaded: set<string>, keys: seq<string>,
                      attempt: Attempt, end: LoadEnd, leaked: seq<Unit>, stranded: seq<Unit>) {
    && (attempt.LoadFailed? <==> !end.AllLoaded?)
    && (end.KeyMissing? ==> attempt == LoadFailed(OtherError))
    && (leaked != [] <==> end.KeyMissing? && TakenBeforeMissing(bindings, loaded, keys, 0) > 0)
    && (StartsUnbound(bindings, keys) ==> end.KeyMissing?)
    && (end.AllLoaded? ==> AllBound(bindings, keys))
    && (end.KeyMissing? ==> !AllBound(bindings, keys))
    && (end.LoadBroke? && NoApi(bindings, keys) ==>
          && |stranded| < TakenBeforeMissing(bindings, loaded, keys, 0)
          && attempt == LoadFailed(if stranded == [] then OtherError else Uncertain))
  }

  /** The same over all messages, of which only the last one may lose lines. */
  predicate AllAccounted(bindings: map<string, Binding>, messages: seq<Message>,
                         attempts: seq<Attempt>, end: LoadEnd, leaked: seq<Unit>, stranded: seq<Unit>)
    requires |attempts| <= |messages|
  {
    && (forall i :: 0 <= i < |attempts| && !attempts[i].LoadFailed? ==> AllBound(bindings, messages[i].keys))
    && (forall i :: 0 <= i < |attempts| && StartsUnbound(bindings, messages[i].keys) ==>
        attempts[i] == LoadFailed(OtherError))
    && (leaked != [] ==> end.KeyMissing?)
    && (end.KeyMissing? ==>
          && attempts != [] && attempts[|attempts| - 1] == LoadFailed(OtherError)
          && !AllBound(bindings, messages[|attempts| - 1].keys))
    && (end.LoadBroke? ==> attempts != [] && attempts[|attempts| - 1].LoadFailed?)
    && (end.LoadBroke? && NoApi(bindings, messages[|attempts| - 1].keys) ==>
          && |stranded| < TakenBeforeMissing(bindings, {}, messages[|attempts| - 1].keys, 0)
          && attempts[|attempts| - 1] == LoadFailed(if stranded == [] then OtherError else Uncertain))
  }

  lemma AccountedOneMore(bindings: map<string, Binding>, messages: seq<Message>, attempts: seq<Attempt>,
                         loaded: set<string>, attempt: Attempt, end: LoadEnd, leaked: seq<Unit>, stranded: seq<Unit>)
    requires |attempts| < |messages| && AllAccounted(bindings, messages, attempts, AllLoaded, [], [])
    requires Accounted(bindings, loaded, messages[|attempts|].keys, attempt, end, leaked, stranded)
    requires loaded <= bindings.Keys
    ensures AllAccounted(bindings, messages, attempts + [attempt], end, leaked, stranded)
    ensures Goes(attempt) ==> end == AllLoaded && leaked == []
  {
    LoadedTakesLess(bindings, {}, loaded, messages[|attempts|].keys, 0);
    if Goes(attempt) {
      assert !attempt.LoadFailed?;
    }
  }

  /** Without a missing binding nothing is lost. */
  lemma BoundLosesNothing(bindings: map<string, Binding>, messages: seq<Message>, attempts: seq<Attempt>,
        end: LoadEnd, leaked: seq<Unit>, stranded: seq<Unit>)
    requires |attempts| <= |messages| && AllAccounted(bindings, messages, attempts, end, leaked, stranded)
    ensures (forall i :: 0 <= i < |messages| ==> AllBound(bindings, messages[i].keys)) ==> leaked == []
  {
  }

  lemma NothingAccounted(bindings: map<string, Binding>, messages: seq<Message>)
    ensures AllAccounted(bindings, messages, [], AllLoaded, [], [])
  {
  }

  // ---- the action --------------------------------------------------------------------------------------

  function Contents(units: seq<Unit>): seq<string> {
    seq(|units|, k requires 0 <= k < |units| => units[k].content)
  }

  function Copies(content: string, n: nat): (r: seq<string>)
    ensures |r| == n && forall i :: 0 <= i < n ==> r[i] == content
  {
    seq(n, _ => content)
  }

  /** The lines are what the binding asks for: copies of its text, or as many lines as it counts, none of
      them blank. */
  predicate FromBinding(binding: Binding, lines: seq<string>) {
    && |lines| == binding.count
    && forall i :: 0 <= i < |lines| ==>
         if binding.kind.TextCard? then lines[i] == binding.kind.content else !CardText.Blank(lines[i])
  }

  function Reversed(units: seq<Unit>): seq<Unit> {
    if units == [] then [] else [units[|units| - 1]] + Reversed(units[..|units| - 1])
  }

  /** Every stranded line is among those that were tried to be put back since. */
  predicate TriedBack(before: seq<Unit>, after: seq<Unit>, stranded: seq<Unit>) {
    before <= after && forall u :: u in stranded ==> u in after[|before|..]
  }

  lemma NothingTried(before: seq<Unit>)
    ensures TriedBack(before, before, []) && before + Reversed([]) == before
  {
  }

  lemma LastComesFirst(before: seq<Unit>, rest: seq<Unit>)
    requires rest != []
    ensures before + Reversed(rest) == (before + [rest[|rest| - 1]]) + Reversed(rest[..|rest| - 1])
  {
    OneFromTheRight(before, rest[|rest| - 1], Reversed(rest[..|rest| - 1]));
  }

  lemma OneFromTheRight(a: seq<Unit>, u: Unit, b: seq<Unit>)
    ensures a + ([u] + b) == (a + [u]) + b
  {
  }

  lemma TriedOneMore(before: seq<Unit>, after: seq<Unit>, stranded: seq<Unit>, u: Unit)
    requires TriedBack(before, after, stranded)
    ensures TriedBack(before, after + [u], stranded) && TriedBack(before, after + [u], stranded + [u])
  {
    assert (after + [u])[|before|..] == after[|before|..] + [u];
  }

  lemma TriedLater(first: seq<Unit>, before: seq<Unit>, after: seq<Unit>, stranded: seq<Unit>)
    requires first <= before && TriedBack(before, after, stranded)
    ensures TriedBack(first, after, stranded)
  {
    assert after[|first|..] == after[|first|..|before|] + after[|before|..];
  }

  datatype Load = Load(lines: seq<string>, added: seq<Unit>, apiFetched: bool, apiFailure: bool, dispatched: bool,
      empty: bool, failed: bool)

  /** The units of all messages that were handed to the sender and not put back. */
  function WatchedIn(handed: seq<seq<Unit>>, card: nat, line: string): nat {
    if handed == [] then 0
    else WatchedIn(handed[..|handed| - 1], card, line) + Watched(handed[|handed| - 1], card, line)
  }

  lemma WatchedInOneMore(handed: seq<seq<Unit>>, units: seq<Unit>, card: nat, line: string)
    ensures WatchedIn(handed + [units], card, line) == WatchedIn(handed, card, line) + Watched(units, card, line)
  {
    assert (handed + [units])[..|handed|] == handed;
  }

  predicate HandedOver(a: Attempt) {
    a.Shipped? || a.Refused? || a.Unclear?
  }

  /** What became of a message with this text after the sender's answer. */
  predicate Answers(attempt: Attempt, handed: Handed, text: string) {
    && handed.body == text
    && if handed.answer.Delivered? then attempt == Shipped(text)
       else if handed.answer.NotSentError? then attempt.Refused? && attempt.text == text
       else attempt == Unclear(text)
  }

  /** The attempt is the one the sender's answer, if it was asked, stands for. */
  predicate Fits(attempt: Attempt, sending: Option<Handed>) {
    match sending
    case None => attempt.Empty? || (attempt.LoadFailed? && !attempt.err.NoError? && !SafeToRetry(attempt.err))
    case Some(handed) =>
      && (attempt.Shipped? <==> handed.answer.Delivered?)
      && (attempt.Refused? <==> handed.answer.NotSentError?)
      && (attempt.Shipped? || attempt.Refused? || attempt.Unclear?)
      && attempt.text == handed.body
  }

  /** Lines stay taken only for messages that were handed to the sender. */
  predicate Paired(attempts: seq<Attempt>, handed: seq<seq<Unit>>) {
    |handed| == |attempts| && forall i :: 0 <= i < |handed| && handed[i] != [] ==> HandedOver(attempts[i])
  }

  /** The value a binding asks for, made of the lines taken or fetched for it. */
  predicate ValueOk(binding: Binding, value: string, lines: seq<string>, units: seq<Unit>) {
    && value == JoinLines(lines) && FromBinding(binding, lines)
    && if binding.kind.DataCard? then lines == Contents(units) else units == []
  }

  predicate ValuesOk(bindings: map<string, Binding>, values: map<string, string>, loaded: set<string>,
                     lines: map<string, seq<string>>, origin: map<string, seq<Unit>>) {
    && loaded <= values.Keys && loaded <= bindings.Keys && lines.Keys == loaded == origin.Keys
    && forall k :: k in loaded ==> ValueOk(bindings[k], values[k], lines[k], origin[k])
  }

  lemma OneMoreValue(bindings: map<string, Binding>, values: map<string, string>, loaded: set<string>,
        lines: map<string, seq<string>>, origin: map<string, seq<Unit>>, key: string, value: string,
        added: seq<string>, units: seq<Unit>)
    requires ValuesOk(bindings, values, loaded, lines, origin)
    requires key in bindings && key !in loaded && ValueOk(bindings[key], value, added, units)
    ensures key !in origin
    ensures ValuesOk(bindings, values[key := value], loaded + {key}, lines[key := added], origin[key := units])
  {
    hide ValueOk;
  }

  lemma FewerValues(bindings: map<string, Binding>, values: map<string, string>, loaded: set<string>,
        lines: map<string, seq<string>>, origin: map<string, seq<Unit>>, gone: set<string>)
    requires ValuesOk(bindings, values, loaded, lines, origin)
    ensures ValuesOk(bindings, values - gone, loaded - gone, lines - gone, origin - gone)
  {
    hide ValueOk;
  }

  /** The content of each unit is part of the value of one of the keys. */
  predicate Shown(origin: map<string, seq<Unit>>, home: map<Unit, string>, units: seq<Unit>, keys: seq<string>) {
    forall u :: u in units ==> u in home && home[u] in keys && home[u] in origin && u in origin[home[u]]
  }

  lemma OneMoreShown(origin: map<string, seq<Unit>>, home: map<Unit, string>, units: seq<Unit>, keys: seq<string>,
        key: string, added: seq<Unit>)
    requires Shown(origin, home, units, keys) && key !in origin && key in keys
    ensures Shown(origin[key := added], home + map u | u in added :: key, units + added, keys)
  {
  }

  class TemplateAction {
    const cards: Cards
    const bindings: map<string, Binding>
    var values: map<string, string>
    var loadedKeys: set<string>
    var apiFetched: bool
    /** The units behind the value of each loaded key. */
    ghost var origin: map<string, seq<Unit>>
    /** The last key a unit was loaded for. */
    ghost var home: map<Unit, string>
    /** The lines behind the value of each loaded key. */
    ghost var lines: map<string, seq<string>>
    /** What the remote service has answered, in order. */
    ghost var fetched: seq<string>

    constructor (cards: Cards, bindings: map<string, Binding>)
      requires cards.Valid()
      ensures Valid() && this.cards == cards && this.bindings == bindings && loadedKeys == {}
    {
      this.cards := cards;
      this.bindings := bindings;
      values := map[];
      loadedKeys := {};
      apiFetched := false;
      origin, home, lines, fetched := map[], map[], map[], [];
    }

    ghost predicate Valid()
      reads this, cards
    {
      && cards.Valid()
      && ValuesOk(bindings, values, loadedKeys, lines, origin)
      && (forall k :: k in loadedKeys && bindings[k].kind.ApiCard? && bindings[k].count > 0 ==> apiFetched)
      && (apiFetched ==> fetched != [])
    }

    ghost predicate AllShown(units: seq<Unit>, keys: seq<string>)
      reads this
    {
      Shown(origin, home, units, keys)
    }

    /** restoreTemplateReservations: puts the lines back in reverse order, all of them. */
    method RestoreReservations(units: seq<Unit>) returns (ok: bool, ghost stranded: seq<Unit>)
      requires cards.Valid() && AllLines(units)
      modifies cards
      ensures cards.Valid()
      ensures cards.held + Watched(units, cards.card, cards.line)
          == old(cards.held) + Watched(stranded, cards.card, cards.line)
      ensures |stranded| <= |units| && (ok <==> stranded == [])
      ensures cards.putBacks == old(cards.putBacks) + Reversed(units)
      ensures TriedBack(old(cards.putBacks), cards.putBacks, stranded)
    {
      hide TriedBack, Reversed, IsWatched, CardText.Lines, CardText.Count;
      NothingTried(cards.putBacks);
      ok, stranded := true, [];
      var rest := units;
      while rest != []
        invariant cards.Valid() && AllLines(rest)
        invariant cards.held + Watched(units, cards.card, cards.line)
                  == old(cards.held) + Watched(rest, cards.card, cards.line) + Watched(stranded, cards.card, cards.line)
        invariant |stranded| + |rest| <= |units| && (ok <==> stranded == [])
        invariant cards.putBacks + Reversed(rest) == old(cards.putBacks) + Reversed(units)
        invariant TriedBack(old(cards.putBacks), cards.putBacks, stranded)
        decreases |rest|
      {
        var unit := rest[|rest| - 1];
        TriedOneMore(old(cards.putBacks), cards.putBacks, stranded, unit);
        LastComesFirst(cards.putBacks, rest);
        var restored, _ := cards.RestoreBatchData(unit.card, unit.content);
        if !restored {
          WatchedOneMore(stranded, unit, cards.card, cards.line);
          ok, stranded := false, stranded + [unit];
        }
        rest := rest[..|rest| - 1];
      }
    }

    /** loadTemplateBatchLines. */
    method LoadBatchLines(id: nat, count: nat) returns (load: Load)
      requires cards.Valid()
      modifies cards
      ensures cards.Valid()
      ensures cards.held == old(cards.held) + Watched(load.added, cards.card, cards.line)
      ensures AllLines(load.added) && load.lines == Contents(load.added)
      ensures if load.failed then |load.added| < count else |load.added| == count
      ensures !load.apiFailure && !load.apiFetched && cards.putBacks == old(cards.putBacks)
    {
      var added: seq<Unit> := [];
      for index := 0 to count
        invariant cards.Valid() && AllLines(added) && |added| == index && cards.putBacks == old(cards.putBacks)
        invariant cards.held == old(cards.held) + Watched(added, cards.card, cards.line)
      {
        var content, _ := cards.ConsumeBatchData(id);
        if content.None? {
          return Load(Contents(added), added, false, false, false, false, true);
        }
        WatchedOneMore(added, Unit(id, content.value), cards.card, cards.line);
        added := added + [Unit(id, content.value)];
      }
      load := Load(Contents(added), added, false, false, false, false, false);
    }

    /** loadTemplateAPILines: the remote service decides. */
    method LoadApiLines(count: nat) returns (load: Load)
      requires cards.Valid()
      modifies `fetched
      ensures old(fetched) <= fetched && (!load.failed ==> fetched == old(fetched) + load.lines)
      // a failure tells whether the service has answered before, and whether its last answer was empty
      ensures load.failed ==>
                && (load.apiFetched <==> load.lines != [])
                && (load.empty <==> |fetched| == |old(fetched)| + |load.lines| + 1)
                && (!load.empty ==> fetched == old(fetched) + load.lines)
      ensures !load.failed ==> forall i :: 0 <= i < |load.lines| ==> !CardText.Blank(load.lines[i])
      ensures load.added == [] && (load.failed <==> load.apiFailure)
      ensures !load.failed ==> |load.lines| == count && (load.apiFetched <==> count > 0)
    {
      var lines: seq<string> := [];
      for index := 0 to count
        invariant |lines| == index && fetched == old(fetched) + lines
        invariant forall i :: 0 <= i < index ==> !CardText.Blank(lines[i])
      {
        var dispatched: bool := *;
        var failed: bool := *;
        var content: string := *;
        if !failed {
          fetched := fetched + [content];
        }
        if failed || CardText.Blank(content) {
          return Load(lines, [], index > 0, true, dispatched, !failed, true);
        }
        lines := lines + [content];
      }
      load := Load(lines, [], count > 0, false, false, false, false);
    }

    method LoadBinding(binding: Binding) returns (load: Load)
      requires cards.Valid()
      modifies cards, `fetched
      ensures cards.Valid()
      ensures cards.held == old(cards.held) + Watched(load.added, cards.card, cards.line)
      ensures AllLines(load.added) && cards.putBacks == old(cards.putBacks)
      ensures binding.kind.DataCard? ==> load.lines == Contents(load.added)
      ensures !binding.kind.DataCard? ==> load.added == []
      ensures binding.kind.TextCard? ==> !load.failed
      ensures !load.failed ==> FromBinding(binding, load.lines)
      ensures if binding.kind.ApiCard? && !load.failed
              then fetched == old(fetched) + load.lines && (load.apiFetched <==> binding.count > 0)
              else old(fetched) <= fetched && (!load.failed ==> !load.apiFetched)
      ensures load.failed && binding.kind.ApiCard? ==>
                load.apiFailure && (fetched != old(fetched) <==> load.apiFetched || load.empty)
      ensures load.failed && !binding.kind.ApiCard? ==> fetched == old(fetched)
      ensures !load.failed ==> |load.added| == LinesOf(binding)
      ensures load.failed && !binding.kind.ApiCard? ==> !load.apiFailure && |load.added| < LinesOf(binding)
    {
      match binding.kind
      case TextCard(content) => load := Load(Copies(content, binding.count), [], false, false, false, false, false);
      case DataCard => load := LoadBatchLines(binding.card, binding.count);
      case ApiCard => load := LoadApiLines(binding.count);
    }

    /** The error after a failed load; `stranded` lines could not be put back. */
    method FailLoad(units: seq<Unit>, load: Load) returns (err: ActionError, ghost stranded: seq<Unit>)
      requires cards.Valid() && AllLines(units)
      modifies cards
      ensures cards.Valid()
      ensures cards.held + Watched(units, cards.card, cards.line)
          == old(cards.held) + Watched(stranded, cards.card, cards.line)
      ensures |stranded| <= |units| && (stranded != [] ==> err.Uncertain?)
      ensures TriedBack(old(cards.putBacks), cards.putBacks, stranded)
      ensures stranded == [] ==>
                err == if !load.apiFailure then OtherError
                       else if load.empty || load.dispatched || apiFetched || load.apiFetched then Uncertain
                       else DoNotRetry
    {
      var ok;
      ok, stranded := RestoreReservations(units);
      err := if !ok then Uncertain
             else if !load.apiFailure then OtherError
             else if load.empty || load.dispatched || apiFetched || load.apiFetched then Uncertain
             else DoNotRetry;
    }

    /** The lines of the message so far and of the key that failed are put back. */
    method FailKey(shown: seq<Unit>, load: Load) returns (err: ActionError, ghost stranded: seq<Unit>)
      requires cards.Valid() && AllLines(shown) && AllLines(load.added)
      modifies cards
      ensures cards.Valid() && TriedBack(old(cards.putBacks), cards.putBacks, stranded)
      ensures cards.held + Watched(shown, cards.card, cards.line) + Watched(load.added, cards.card, cards.line)
          == old(cards.held) + Watched(stranded, cards.card, cards.line)
      ensures |stranded| <= |shown| + |load.added| && (stranded != [] ==> err.Uncertain?)
      ensures !err.NoError? && !SafeToRetry(err) && (err.DoNotRetry? ==> load.apiFailure)
      ensures stranded == [] && !load.apiFailure ==> err.OtherError?
      ensures load.apiFailure && (load.empty || apiFetched || load.apiFetched) ==> err.Uncertain?
    {
      WatchedSplits(shown, load.added, cards.card, cards.line);
      err, stranded := FailLoad(shown + load.added, load);
    }

    /** Stores the value of a key that has been loaded. */
    method StoreValue(key: string, load: Load, ghost shown: seq<Unit>, ghost keys: seq<string>)
      requires Valid() && key in bindings && key !in loadedKeys
      requires ValueOk(bindings[key], JoinLines(load.lines), load.lines, load.added)
      requires bindings[key].kind.ApiCard? && bindings[key].count > 0 ==> load.apiFetched
      requires load.apiFetched ==> fetched != []
      requires AllShown(shown, keys) && key in keys
      modifies this
      ensures Valid() && loadedKeys == old(loadedKeys) + {key} && apiFetched == (old(apiFetched) || load.apiFetched)
      ensures AllShown(shown + load.added, keys)
      ensures values == old(values)[key := JoinLines(load.lines)]
    {
      hide ValuesOk, ValueOk, Shown, JoinLines;
      NoteLines(key, load, shown, keys);
      apiFetched := apiFetched || load.apiFetched;
      values := values[key := JoinLines(load.lines)];
      loadedKeys := loadedKeys + {key};
    }

    /** The lines behind the value that is about to be stored. */
    ghost method NoteLines(key: string, load: Load, shown: seq<Unit>, keys: seq<string>)
      requires ValuesOk(bindings, values, loadedKeys, lines, origin) && key in bindings && key !in loadedKeys
      requires ValueOk(bindings[key], JoinLines(load.lines), load.lines, load.added)
      requires AllShown(shown, keys) && key in keys
      modifies `lines, `origin, `home
      ensures ValuesOk(bindings, values[key := JoinLines(load.lines)], loadedKeys + {key}, lines, origin)
      ensures AllShown(shown + load.added, keys)
    {
      hide ValuesOk, ValueOk, Shown, JoinLines;
      OneMoreValue(bindings, values, loadedKeys, lines, origin, key, JoinLines(load.lines), load.lines, load.added);
      OneMoreShown(origin, home, shown, keys, key, load.added);
      lines, origin := lines[key := load.lines], origin[key := load.added];
      home := home + map u | u in load.added :: key;
    }

    /** One key that has not been loaded yet; `shown` are the units of the message so far. */
    method LoadKey(key: string, shown: seq<Unit>, ghost keys: seq<string>)
      returns (added: seq<Unit>, err: ActionError, ghost stranded: seq<Unit>)
      requires Valid() && key in bindings && key !in loadedKeys && AllLines(shown)
      requires AllShown(shown, keys) && key in keys
      modifies this, cards
      ensures Valid() && AllLines(added) && TriedBack(old(cards.putBacks), cards.putBacks, stranded)
      ensures err.NoError? ==>
                && stranded == [] && |added| == LinesOf(bindings[key])
                && cards.held == old(cards.held) + Watched(added, cards.card, cards.line)
                && loadedKeys == old(loadedKeys) + {key} && values.Keys == old(values).Keys + {key}
                && AllShown(shown + added, keys)
      ensures !err.NoError? ==>
                && !SafeToRetry(err) && (stranded != [] ==> err.Uncertain?)
                && cards.held + Watched(shown, cards.card, cards.line)
                    == old(cards.held) + Watched(stranded, cards.card, cards.line)
                // once the service has answered, the outcome is open
                && (bindings[key].kind.ApiCard? && (fetched != old(fetched) || apiFetched) ==> err.Uncertain?)
                && (err.DoNotRetry? ==> bindings[key].kind.ApiCard?)
                && (!bindings[key].kind.ApiCard? ==>
                      |stranded| < |shown| + LinesOf(bindings[key]) && (stranded == [] ==> err.OtherError?))
    {
      hide ValuesOk, FromBinding, Shown, JoinLines, Contents;
      var load := LoadBinding(bindings[key]);
      added := load.added;
      if load.failed {
        err, stranded := FailKey(shown, load);
        return;
      }
      StoreValue(key, load, shown, keys);
      err, stranded := NoError, [];
    }

    /** The first i keys of a message are loaded and `units` were taken for them. */
    ghost predicate LoadProgress(start: int, all: nat, keys: seq<string>, i: nat, units: seq<Unit>)
      reads this, cards
    {
      && Valid() && AllLines(units) && AllShown(units, keys)
      && cards.held == start + Watched(units, cards.card, cards.line)
      && i <= |keys| && (forall k :: 0 <= k < i ==> keys[k] in loadedKeys)
      && |units| + TakenBeforeMissing(bindings, loadedKeys, keys, i) == all
    }

    /** The next key of a message: it has a binding and has not been loaded. */
    method LoadNext(keys: seq<string>, i: nat, units: seq<Unit>, ghost start: int, ghost all: nat)
      returns (now: seq<Unit>, err: ActionError, ghost stranded: seq<Unit>)
      requires i < |keys| && LoadProgress(start, all, keys, i, units) && keys[i] !in loadedKeys && keys[i] in bindings
      modifies this, cards
      ensures TriedBack(old(cards.putBacks), cards.putBacks, stranded)
      ensures err.NoError? ==> LoadProgress(start, all, keys, i + 1, now) && stranded == []
      ensures !err.NoError? ==>
                && Valid() && !SafeToRetry(err) && (stranded != [] ==> err.Uncertain?)
                && cards.held == start + Watched(stranded, cards.card, cards.line)
                && (!bindings[keys[i]].kind.ApiCard? ==> |stranded| < all && (stranded == [] ==> err.OtherError?))
    {
      ghost var loaded := loadedKeys;
      var added;
      added, err, stranded := LoadKey(keys[i], units, keys);
      now := units + added;
      if err.NoError? {
        WatchedSplits(units, added, cards.card, cards.line);
        assert TakenBeforeMissing(bindings, loaded, keys, i)
            == |added| + TakenBeforeMissing(bindings, loadedKeys, keys, i + 1);
      }
    }

    /** loadTemplateMessageValues: `leaked` lines were taken before a key without a binding was met
        and stay taken, `stranded` lines could not be put back after a failed load. */
    method LoadMessageValues(keys: seq<string>)
      returns (units: seq<Unit>, err: ActionError, ghost end: LoadEnd, ghost leaked: seq<Unit>,
          ghost stranded: seq<Unit>)
      requires Valid()
      modifies this, cards
      ensures Valid() && AllLines(units) && AllShown(units, keys)
      // what is stranded could not be put back, not for want of trying
      ensures TriedBack(old(cards.putBacks), cards.putBacks, stranded)
      ensures cards.held == old(cards.held) + Watched(units, cards.card, cards.line)
                            + Watched(leaked, cards.card, cards.line) + Watched(stranded, cards.card, cards.line)
      ensures err.NoError? <==> end.AllLoaded?
      // every key of the message then has the value its binding asks for
      ensures err.NoError? ==>
                && leaked == [] && stranded == []
                && forall k :: 0 <= k < |keys| ==>
                     && keys[k] in loadedKeys && values[keys[k]] == JoinLines(lines[keys[k]])
                     && FromBinding(bindings[keys[k]], lines[keys[k]])
      ensures err.NoError? ==> AllBound(bindings, keys)
      ensures !err.NoError? ==> keys != [] && units == [] && !SafeToRetry(err)
      ensures stranded != [] ==> err.Uncertain?
      // when a key without a binding is met, every line taken for the keys before it is lost
      ensures end.KeyMissing? ==>
                && err.OtherError? && stranded == [] && !AllBound(bindings, keys)
                && |leaked| == TakenBeforeMissing(bindings, old(loadedKeys), keys, 0)
      ensures leaked != [] <==> end.KeyMissing? && TakenBeforeMissing(bindings, old(loadedKeys), keys, 0) > 0
      ensures StartsUnbound(bindings, keys) ==> end.KeyMissing?
      ensures end.LoadBroke? && NoApi(bindings, keys) ==>
                && |stranded| < TakenBeforeMissing(bindings, old(loadedKeys), keys, 0)
                && (stranded == [] ==> err.OtherError?)
    {
      units, err, end, leaked, stranded := [], NoError, AllLoaded, [], [];
      ghost var start: int := cards.held;
      ghost var all: nat := TakenBeforeMissing(bindings, loadedKeys, keys, 0);
      for i := 0 to |keys|
        invariant LoadProgress(start, all, keys, i, units)
        invariant err.NoError? && end.AllLoaded? && leaked == [] && stranded == []
        invariant i > 0 ==> !StartsUnbound(bindings, keys)
        invariant old(cards.putBacks) <= cards.putBacks
      {
        if keys[i] !in loadedKeys && keys[i] !in bindings {
          units, err, end, leaked := [], OtherError, KeyMissing, units;
          return;
        }
        if keys[i] !in loadedKeys {
          ghost var before := cards.putBacks;
          units, err, stranded := LoadNext(keys, i, units, start, all);
          TriedLater(old(cards.putBacks), before, cards.putBacks, stranded);
          if !err.NoError? {
            units, end := [], LoadBroke;
            return;
          }
        }
      }
    }

    /** One message of sendTemplate after `sent` others went out; `kept` are the lines that stay
        taken because the message was handed to the sender. */
    method SendMessage(message: Message, render: Renderer, sent: nat)
      returns (attempt: Attempt, sending: Option<Handed>, ghost end: LoadEnd,
               ghost kept: seq<Unit>, ghost leaked: seq<Unit>, ghost stranded: seq<Unit>)
      requires Valid()
      modifies this, cards
      ensures Valid()
      ensures old(loadedKeys) <= bindings.Keys
      ensures TriedBack(old(cards.putBacks), cards.putBacks, stranded)
      // the sender is asked exactly when there is something to send, and its answer decides
      ensures sending.None? <==> attempt.LoadFailed? || attempt.Empty?
      ensures sending.Some? ==>
                Answers(attempt, sending.value, render(message, values)) && !CardText.Blank(render(message, values))
      ensures cards.held == old(cards.held) + Watched(kept, cards.card, cards.line)
                            + Watched(leaked, cards.card, cards.line) + Watched(stranded, cards.card, cards.line)
      ensures kept != [] ==> HandedOver(attempt)
      ensures attempt.Refused? ==> attempt.apiFetched == apiFetched
      ensures attempt.Refused? && PutsBack(sent, attempt.apiFetched) ==> kept == []
      ensures Accounted(bindings, old(loadedKeys), message.keys, attempt, end, leaked, stranded)
      ensures stranded != [] ==> Stopped(SoFar([]).(sent := sent), attempt).err.Uncertain? && !Goes(attempt)
      ensures attempt.LoadFailed? ==> !attempt.err.NoError? && !SafeToRetry(attempt.err)
      // the lines of a blank message that went back to the stock are not used by a later one
      ensures attempt == Empty(true) ==> forall k :: k in message.keys ==> k !in loadedKeys && k !in values
    {
      var units, err;
      units, err, end, leaked, stranded := LoadMessageValues(message.keys);
      kept, sending := [], None;
      if !err.NoError? {
        attempt := LoadFailed(err);
        return;
      }
      var text := render(message, values);
      if CardText.Blank(text) {
        var restored;
        ghost var before := cards.putBacks;
        restored, stranded := RestoreReservations(units);
        TriedLater(old(cards.putBacks), before, cards.putBacks, stranded);
        attempt := Empty(restored);
        if restored {
          ClearValues(message.keys);
        }
        return;
      }
      var answer: Sending := *;
      sending := Some(Handed(text, answer));
      if answer.Delivered? {
        attempt, kept := Shipped(text), units;
      } else if answer.NotSentError? {
        var restored := true;
        if PutsBack(sent, apiFetched) {
          ghost var before := cards.putBacks;
          restored, stranded := RestoreReservations(units);
          TriedLater(old(cards.putBacks), before, cards.putBacks, stranded);
        } else {
          kept := units;
        }
        attempt := Refused(text, apiFetched, restored);
      } else {
        attempt, kept := Unclear(text), units;
      }
    }

    /** clearTemplateMessageValues. */
    method ClearValues(keys: seq<string>)
      requires Valid()
      modifies `values, `loadedKeys, `lines, `origin
      ensures Valid() && apiFetched == old(apiFetched)
      ensures loadedKeys == old(loadedKeys) - (set k | k in keys)
      ensures values == old(values) - (set k | k in keys)
      ensures lines == old(lines) - (set k | k in keys)
    {
      hide ValuesOk, ValueOk;
      ghost var gone := set k | k in keys;
      FewerValues(bindings, values, loadedKeys, lines, origin, gone);
      for i := 0 to |keys|
        invariant loadedKeys == old(loadedKeys) - (set k | k in keys[..i])
        invariant values == old(values) - (set k | k in keys[..i])
        invariant origin == old(origin) && lines == old(lines)
      {
        values := values - {keys[i]};
        loadedKeys := loadedKeys - {keys[i]};
        assert keys[..i + 1] == keys[..i] + [keys[i]];
      }
      assert keys[..|keys|] == keys;
      origin, lines := origin - gone, lines - gone;
    }

    /** The state of the action after messages that went well. */
    ghost predicate Progress(start: int, attempts: seq<Attempt>, handed: seq<seq<Unit>>, sent: nat, text: string)
      reads this, cards
    {
      && Valid()
      && cards.held == start + WatchedIn(handed, cards.card, cards.line)
      && (sent == 0 ==> WatchedIn(handed, cards.card, cards.line) == 0)
      && Paired(attempts, handed) && (forall k :: 0 <= k < |attempts| ==> Goes(attempts[k]))
      && sent == |SentTexts(attempts)| && text == Accumulate("", SentTexts(attempts))
    }

    method SendNext(message: Message, render: Renderer, sent: nat, text: string, ghost start: int,
                    ghost attempts: seq<Attempt>, ghost handed: seq<seq<Unit>>)
      returns (attempt: Attempt, sending: Option<Handed>, sentNow: nat, textNow: string, ghost end: LoadEnd,
               ghost kept: seq<Unit>, ghost leaked: seq<Unit>, ghost stranded: seq<Unit>)
      requires Progress(start, attempts, handed, sent, text)
      modifies this, cards
      ensures old(loadedKeys) <= bindings.Keys
      ensures Fits(attempt, sending)
      ensures Goes(attempt) ==>
                && Progress(start, attempts + [attempt], handed + [kept], sentNow, textNow)
                && leaked == [] && stranded == []
      ensures !Goes(attempt) ==>
                && Valid() && Paired(attempts + [attempt], handed + [kept])
                && cards.held == start + WatchedIn(handed + [kept], cards.card, cards.line)
                                 + Watched(leaked, cards.card, cards.line) + Watched(stranded, cards.card, cards.line)
                && TemplateResult(attempts + [attempt])
                    == Stopped(ActionResult(sent, Proof(text, []), EMPTY_PROOF, NoError), attempt)
                && (TemplateResult(attempts + [attempt]).err.NotSent? ==>
                      WatchedIn(handed + [kept], cards.card, cards.line) == 0 && SentTexts(attempts + [attempt]) == [])
      ensures Accounted(bindings, old(loadedKeys), message.keys, attempt, end, leaked, stranded)
      ensures stranded != [] ==> !Goes(attempt) && TemplateResult(attempts + [attempt]).err.Uncertain?
    {
      hide ValuesOk, Accounted, AppendTradeText, TakenBeforeMissing;
      attempt, sending, end, kept, leaked, stranded := SendMessage(message, render, sent);
      WatchedInOneMore(handed, kept, cards.card, cards.line);
      OneMoreAttempt(attempts, attempt);
      sentNow, textNow := sent, text;
      if attempt.Shipped? {
        sentNow, textNow := sent + 1, AppendTradeText(text, attempt.text);
      }
    }

    /** The loop of sendTemplate. At every end each line taken is back in stock, belongs to a message that was
        handed to the sender, was stranded by a failed restore, or was lost to a missing binding. */
    method SendMessages(messages: seq<Message>, render: Renderer)
      returns (result: ActionResult, log: seq<Option<Handed>>, ghost attempts: seq<Attempt>,
          ghost handed: seq<seq<Unit>>,
               ghost end: LoadEnd, ghost leaked: seq<Unit>, ghost stranded: seq<Unit>)
      requires Valid()
      modifies this, cards
      ensures Valid()
      // `log` is what the sender answered, message by message
      ensures |log| == |attempts| && forall i :: 0 <= i < |log| ==> Fits(attempts[i], log[i])
      ensures cards.held == old(cards.held) + WatchedIn(handed, cards.card, cards.line)
                            + Watched(leaked, cards.card, cards.line) + Watched(stranded, cards.card, cards.line)
      ensures |attempts| <= |messages| && Paired(attempts, handed)
      ensures OnlyLastStops(attempts) && result == TemplateResult(attempts)
      ensures |attempts| == |messages| || (attempts != [] && !Goes(attempts[|attempts| - 1]))
      ensures AllAccounted(bindings, messages, attempts, end, leaked, stranded)
      // a template that is read with its rule has a binding for every key, and then no line is lost
      ensures (forall i :: 0 <= i < |messages| ==> AllBound(bindings, messages[i].keys)) ==> leaked == []
      ensures stranded != [] ==> result.err.Uncertain?
      ensures result.err.NotSent? ==> WatchedIn(handed, cards.card, cards.line) == 0 && SentTexts(attempts) == []
    {
      hide AllAccounted, Accounted, AllBound, ValuesOk, Fits;
      NothingAccounted(bindings, messages);
      var sent, text := 0, "";
      log, attempts, handed, end, leaked, stranded := [], [], [], AllLoaded, [], [];
      for i := 0 to |messages|
        invariant |log| == |attempts| && forall k :: 0 <= k < |log| ==> Fits(attempts[k], log[k])
        invariant Progress(old(cards.held), attempts, handed, sent, text)
        invariant |attempts| == i && leaked == [] && stranded == [] && end == AllLoaded
        invariant AllAccounted(bindings, messages, attempts, end, leaked, stranded)
      {
        var attempt, sending, sentNow, textNow;
        ghost var kept;
        ghost var loaded := loadedKeys;
        attempt, sending, sentNow, textNow, end, kept, leaked, stranded :=
          SendNext(messages[i], render, sent, text, old(cards.held), attempts, handed);
        AccountedOneMore(bindings, messages, attempts, loaded, attempt, end, leaked, stranded);
        log, attempts, handed := log + [sending], attempts + [attempt], handed + [kept];
        if !Goes(attempt) {
          BoundLosesNothing(bindings, messages, attempts, end, leaked, stranded);
          result := Stopped(ActionResult(sent, Proof(text, []), EMPTY_PROOF, NoError), attempt);
          return;
        }
        sent, text := sentNow, textNow;
      }
      result := if sent == 0 then NOTHING.(err := NotSent)
          else ActionResult(sent, Proof(text, []), EMPTY_PROOF, NoError);
    }

    /** sendTemplate: nothing is done for an order of another specification, without messages, or when a
        card cannot be prepared. */
    method SendTemplate(matches: bool, messages: seq<Message>, render: Renderer)
      returns (result: ActionResult, log: seq<Option<Handed>>, prepared: bool, ghost attempts: seq<Attempt>,
               ghost handed: seq<seq<Unit>>, ghost end: LoadEnd, ghost leaked: seq<Unit>, ghost stranded: seq<Unit>)
      requires Valid()
      modifies this, cards
      ensures Valid()
      ensures !matches ==> result == NOTHING.(err := NoError)
      ensures matches && (messages == [] || !prepared) ==> result == NOTHING
      ensures !matches || messages == [] || !prepared ==> log == [] && cards.held == old(cards.held)
      ensures matches && messages != [] && prepared ==> result == TemplateResult(attempts)
      ensures |attempts| <= |messages| && Paired(attempts, handed) && OnlyLastStops(attempts)
      ensures |log| == |attempts| && forall i :: 0 <= i < |log| ==> Fits(attempts[i], log[i])
      ensures cards.held == old(cards.held) + WatchedIn(handed, cards.card, cards.line)
                            + Watched(leaked, cards.card, cards.line) + Watched(stranded, cards.card, cards.line)
      ensures log != [] ==> |attempts| == |messages| || !Goes(attempts[|attempts| - 1])
      ensures AllAccounted(bindings, messages, attempts, end, leaked, stranded)
      ensures (forall i :: 0 <= i < |messages| ==> AllBound(bindings, messages[i].keys)) ==> leaked == []
      ensures stranded != [] ==> result.err.Uncertain?
      ensures result.err.NotSent? ==> WatchedIn(handed, cards.card, cards.line) == 0 && SentTexts(attempts) == []
    {
      log, prepared, attempts, handed, end, leaked, stranded := [], true, [], [], AllLoaded, [], [];
      if !matches {
        return NOTHING.(err := NoError), log, prepared, attempts, handed, end, leaked, stranded;
      }
      prepared := *;
      if messages == [] || !prepared {
        return NOTHING, log, prepared, attempts, handed, end, leaked, stranded;
      }
      result, log, attempts, handed, end, leaked, stranded := SendMessages(messages, render);
    }
  }

  // ---- a concrete template --------------------------------------------------------------------------------

  /** The first message goes out, the second needs one line of a card that is out of stock: the action reports
      that nothing was done, so the checkpoint is released and a retry sends the first message again. */
  method MisreportedTemplate(action: TemplateAction, card: nat, render: Renderer)
    returns (result: ActionResult, log: seq<Option<Handed>>, ghost end: LoadEnd)
    requires action.Valid() && action.bindings == map["b" := Binding(DataCard, card, 1)]
    modifies action, action.cards
    ensures log != [] && log[0].Some? && log[0].value.answer.Delivered? && end.LoadBroke? ==>
              |log| == 2 && log[1] == None && result == NOTHING && NotDone(result)
  {
    var prepared;
    ghost var attempts, handed, leaked, stranded;
    var messages := [Message("hello", []), Message("{b}", ["b"])];
    result, log, prepared, attempts, handed, end, leaked, stranded := action.SendTemplate(true, messages, render);
    if log != [] && log[0].Some? && log[0].value.answer.Delivered? && end.LoadBroke? {
      assert Fits(attempts[0], log[0]);
      assert TakenBeforeMissing(action.bindings, {"b"}, ["b"], 1) == 0;
      assert Fits(attempts[1], log[1]);
    }
  }
}
