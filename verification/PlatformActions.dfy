/**
  Changing the price of an order and confirming its shipment: submissions to the platform, with
  one repetition after the login was restored and, for the price, up to five tries while the
  platform says it is busy.
 */
module PlatformActions {
  import opened DeliveryProof
  import opened RunProtocol
  import opened Wrappers

  /** How the platform answers one submission. */
  datatype Reply =
    | Accepted
    | AlreadyShipped        // ORDER_ALREADY_DELIVERY
    | Rejected              // any other business answer
    | SessionExpired
    | NoAnswer              // transport or decoding error

  /** What a submission asks for. */
  datatype Ask = Price(order: string, cents: int) | Shipment(order: string, proof: Proof)

  datatype Submission = Submission(ask: Ask, reply: Reply)

  /** What one try meets besides the answer: whether the session opens, whether the cookies and for a
      shipment the order are stored, whether the login is restored, and whether the platform's text says
      that it is busy. */
  datatype Around = Around(opens: bool, kept: bool, stored: bool, recovers: bool, busy: bool)

  /** The submission surely changed nothing. */
  predicate Turned(s: Submission) {
    s.reply.Rejected? || s.reply.SessionExpired?
  }

  /** A submission may have taken effect only if it is the last one. */
  predicate OnlyLastMayStand(log: seq<Submission>) {
    forall i :: 0 <= i < |log| - 1 ==> Turned(log[i])
  }

  predicate AllTurned(log: seq<Submission>) {
    forall i :: 0 <= i < |log| ==> Turned(log[i])
  }

  predicate AllAsk(log: seq<Submission>, ask: Ask) {
    forall i :: 0 <= i < |log| ==> log[i].ask == ask
  }

  /** How many submissions may have taken effect. */
  function MayStand(log: seq<Submission>): nat {
    if log == [] then 0 else MayStand(log[..|log| - 1]) + if Turned(log[|log| - 1]) then 0 else 1
  }

  lemma {:induction false} TurnedDoNotStand(log: seq<Submission>)
    ensures MayStand(log) == 0 <==> AllTurned(log)
  {
    if log != [] {
      var front := log[..|log| - 1];
      TurnedDoNotStand(front);
      assert AllTurned(log) <==> AllTurned(front) && Turned(log[|log| - 1]);
    }
  }

  lemma AtMostOneStands(log: seq<Submission>)
    requires OnlyLastMayStand(log)
    ensures MayStand(log) <= 1
  {
    if log != [] {
      TurnedDoNotStand(log[..|log| - 1]);
    }
  }

  /** The error of one try. Whether its text says that the platform is busy is up to the platform. */
  datatype TryError = Fine | Plain(busy: bool) | NotDoneNow(busy: bool) | Unsettled

  const TRY_LIMIT := 5

  /** What the result of a try says about its submissions. */
  predicate Truthful(err: TryError, log: seq<Submission>) {
    match err
    case Fine => log != [] && (log[|log| - 1].reply.Accepted? || log[|log| - 1].reply.AlreadyShipped?)
    case Plain(_) => AllTurned(log)
    case NotDoneNow(_) => AllTurned(log)
    case Unsettled => log != [] && !Turned(log[|log| - 1])
  }

  /** The first submission is repeated exactly after its session expired, the cookies were stored and the
      login was restored, and never twice. */
  predicate Submits(made: seq<Submission>, allowRecovery: bool, first: Around, second: Around) {
    && |made| <= 2 && (made != [] <==> first.opens)
    && (|made| == 2 <==>
          && first.opens && made[0].reply.SessionExpired? && first.kept && allowRecovery && first.recovers
          && second.opens)
  }

  /** The try succeeds exactly when the platform has accepted and everything was stored, and is unsettled
      exactly when there was no answer or something was not stored. */
  predicate Settles(err: TryError, made: seq<Submission>, first: Around, second: Around, shipment: bool) {
    var last := if |made| == 2 then second else first;
    var stored := last.kept && (shipment ==> last.stored);
    && (err.Fine? <==> made != [] && Accepts(made[|made| - 1].reply) && stored)
    && (err.Unsettled? <==> made != [] && !Turned(made[|made| - 1]) && !(Accepts(made[|made| - 1].reply) && stored))
  }

  predicate Accepts(r: Reply) {
    r.Accepted? || r.AlreadyShipped?
  }

  /** The failure says that nothing was performed exactly when the session had expired, the cookies were
      stored, and the login was not or no longer to be restored. */
  predicate Expires(err: TryError, made: seq<Submission>, allowRecovery: bool, first: Around, second: Around) {
    var last := if |made| == 2 then second else first;
    err.NotDoneNow? <==>
      && made != [] && made[|made| - 1].reply.SessionExpired? && last.kept
      && (|made| == 2 || !allowRecovery || !first.recovers)
  }

  lemma MoreTurned(a: seq<Submission>, b: seq<Submission>)
    requires AllTurned(a) && OnlyLastMayStand(b)
    ensures OnlyLastMayStand(a + b) && (AllTurned(b) ==> AllTurned(a + b))
  {
  }

  /** Another try is due: nothing was changed, and the platform says that it is busy. */
  predicate Again(err: TryError) {
    (err.Plain? || err.NotDoneNow?) && err.busy
  }

  class Platform {
    /** Everything submitted, in order. */
    ghost var log: seq<Submission>

    constructor ()
      ensures log == []
    {
      log := [];
    }

    /** One submission; only for a shipment is one answer read as "done before". */
    method Submit(ask: Ask) returns (reply: Reply)
      modifies this
      ensures log == old(log) + [Submission(ask, reply)]
      ensures reply.AlreadyShipped? ==> ask.Shipment?
    {
      reply := *;
      if reply.AlreadyShipped? && !ask.Shipment? {
        reply := Reply.Rejected;
      }
      log := log + [Submission(ask, reply)];
    }

    /** adjustOrderPriceAttempt. */
    method AdjustOrderPriceAttempt(order: string, cents: int, allowRecovery: bool, first: Around, second: Around)
      returns (err: TryError, ghost made: seq<Submission>)
      modifies this
      ensures log == old(log) + made && AllAsk(made, Price(order, cents))
      ensures OnlyLastMayStand(made) && Truthful(err, made)
      ensures Submits(made, allowRecovery, first, second)
      ensures Settles(err, made, first, second, false) && Expires(err, made, allowRecovery, first, second)
      decreases allowRecovery
    {
      made := [];
      if !first.opens {
        err := Plain(first.busy);
        return;
      }
      var reply := Submit(Price(order, cents));
      made := [Submission(Price(order, cents), reply)];
      if reply.SessionExpired? {
        if !first.kept {
          err := Plain(first.busy);
          return;
        }
        if allowRecovery && first.recovers {
          ghost var again;
          err, again := AdjustOrderPriceAttempt(order, cents, false, second, second);
          MoreTurned(made, again);
          made := made + again;
          return;
        }
        err := NotDoneNow(first.busy);
        return;
      }
      if reply.NoAnswer? {
        err := Unsettled;
        return;
      }
      if reply.Rejected? {
        err := Plain(first.busy);
        return;
      }
      err := if first.kept then Fine else Unsettled;
    }

    /** adjustOrderPriceWithRetry: at most ten submissions, and nothing is submitted after one that may have
        taken effect. `tries` are the results of the tries: another one follows exactly while the platform
        is busy, five have not been made and nobody cancels. */
    method AdjustOrderPriceWithRetry(order: string, cents: int)
      returns (err: TryError, canceled: bool, ghost tries: seq<TryError>, ghost made: seq<Submission>)
      modifies this
      ensures log == old(log) + made && |made| <= 10 && AllAsk(made, Price(order, cents))
      ensures OnlyLastMayStand(made) && MayStand(made) <= 1 && Truthful(err, made)
      ensures 1 <= |tries| <= 5 && forall i :: 0 <= i < |tries| - 1 ==> Again(tries[i])
      ensures if canceled then Again(tries[|tries| - 1]) && err == NotDoneNow(false)
              else err == tries[|tries| - 1] && (Again(err) ==> |tries| == 5)
    {
      made, tries, canceled := [], [], false;
      for attempt := 1 to TRY_LIMIT + 1
        invariant log == old(log) + made && |made| <= 2 * (attempt - 1) && |tries| == attempt - 1 < TRY_LIMIT
        invariant AllTurned(made) && AllAsk(made, Price(order, cents))
        invariant forall i :: 0 <= i < |tries| ==> Again(tries[i])
      {
        var first: Around, second: Around := *, *;
        ghost var more;
        err, more := AdjustOrderPriceAttempt(order, cents, true, first, second);
        MoreTurned(made, more);
        made, tries := made + more, tries + [err];
        AtMostOneStands(made);
        if err.Fine? || err.Unsettled? || !err.busy || attempt == TRY_LIMIT {
          return;
        }
        canceled := *;
        if canceled {
          err := NotDoneNow(false);
          return;
        }
      }
      assert false;
    }

    /** adjustOrderPrice: a report that nothing was done is true, and with an order and a price the platform
        is tried. */
    method AdjustOrderPrice(orderId: string, price: Option<int>)
      returns (result: ActionResult, ghost tries: seq<TryError>, ghost made: seq<Submission>)
      modifies this
      ensures log == old(log) + made && |made| <= 10
      ensures NotDone(result) <==> AllTurned(made)
      ensures result.sent == if result.err.NoError? then 1 else 0
      ensures result.err.NoError? ==> MayStand(made) == 1 && made != [] && Accepts(made[|made| - 1].reply)
      ensures orderId == "" || price.None? ==> made == [] && tries == [] && result.err.NotPerformed?
      ensures orderId != "" && price.Some? ==> tries != [] && AllAsk(made, Price(orderId, price.value))
      ensures tries != [] && tries[|tries| - 1].Fine? <==> result.err.NoError?
    {
      made, tries := [], [];
      if orderId == "" || price.None? {
        result := ActionResult(0, EMPTY_PROOF, EMPTY_PROOF, NotPerformed);
        return;
      }
      var err, canceled;
      err, canceled, tries, made := AdjustOrderPriceWithRetry(orderId, price.value);
      TurnedDoNotStand(made);
      result := ActionResult(if err.Fine? then 1 else 0, EMPTY_PROOF, EMPTY_PROOF,
                             match err
                             case Fine => NoError
                             case Plain(_) => OtherError
                             case NotDoneNow(_) => NotPerformed
                             case Unsettled => Uncertain);
    }

    /** confirmShipmentAttempt. */
    method ConfirmShipmentAttempt(order: string, proof: Proof, allowRecovery: bool, first: Around, second: Around)
      returns (err: TryError, ghost made: seq<Submission>)
      modifies this
      ensures log == old(log) + made && AllAsk(made, Shipment(order, proof))
      ensures OnlyLastMayStand(made) && Truthful(err, made)
      ensures Submits(made, allowRecovery, first, second)
      ensures Settles(err, made, first, second, true) && Expires(err, made, allowRecovery, first, second)
      decreases allowRecovery
    {
      made := [];
      if !first.opens {
        err := Plain(false);
        return;
      }
      var reply := Submit(Shipment(order, proof));
      made := [Submission(Shipment(order, proof), reply)];
      if reply.SessionExpired? {
        if !first.kept {
          err := Plain(false);
          return;
        }
        if allowRecovery && first.recovers {
          ghost var again;
          err, again := ConfirmShipmentAttempt(order, proof, false, second, second);
          MoreTurned(made, again);
          made := made + again;
          return;
        }
        err := NotDoneNow(false);
        return;
      }
      if reply.NoAnswer? {
        err := Unsettled;
        return;
      }
      if reply.Rejected? {
        err := Plain(false);
        return;
      }
      err := if first.kept && first.stored then Fine else Unsettled;
    }

    /** confirmShipmentWithProof: a report that nothing was done is true; without the setting and
        the force flag the action succeeds without a submission, and otherwise one is made, with the proof,
        as soon as the session opens. */
    method ConfirmShipment(orderId: string, proof: Proof, autoConfirm: Option<bool>, force: bool, first: Around,
          second: Around)
      returns (result: ActionResult, ghost made: seq<Submission>)
      modifies this
      ensures log == old(log) + made && |made| <= 2 && MayStand(made) <= 1 && AllAsk(made, Shipment(orderId, proof))
      ensures orderId == "" || autoConfirm.None? ==> made == [] && result.err.OtherError?
      ensures orderId != "" && autoConfirm == Some(false) && !force ==> made == [] && result.err.NoError?
      ensures orderId != "" && autoConfirm.Some? && (autoConfirm.value || force) ==>
                && Submits(made, true, first, second)
                && var last := if |made| == 2 then second else first;
                   result.err.NoError? <==> made != [] && Accepts(made[|made| - 1].reply) && last.kept && last.stored
      ensures NotDone(result) ==> AllTurned(made)
      ensures Unsure(result) ==> MayStand(made) == 1
      ensures result.err.NoError? ==> if made == [] then autoConfirm == Some(false) && !force else MayStand(made) == 1
      ensures result.sent == 0
    {
      made := [];
      if orderId == "" || autoConfirm.None? {
        result := ActionResult(0, EMPTY_PROOF, EMPTY_PROOF, OtherError);
        return;
      }
      if !autoConfirm.value && !force {
        result := ActionResult(0, EMPTY_PROOF, EMPTY_PROOF, NoError);
        return;
      }
      var err;
      err, made := ConfirmShipmentAttempt(orderId, proof, true, first, second);
      AtMostOneStands(made);
      TurnedDoNotStand(made);
      result := ActionResult(0, EMPTY_PROOF, EMPTY_PROOF,
                             match err
                             case Fine => NoError
                             case Plain(_) => OtherError
                             case NotDoneNow(_) => NotPerformed
                             case Unsettled => Uncertain);
    }
  }
}
