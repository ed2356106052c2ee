/** Calls made in deferred and resumed pieces, compared with those of one undelayed pass. */
module RunPieces {
  import opened DeliveryProof
  import opened RunTable
  import opened RunProtocol
  import opened RunCalls

  /** What an action answers at a position when it is given a proof. */
  type Executor = (nat, Proof) -> ActionResult

  predicate Answers(exec: Executor, calls: seq<Call>) {
    forall i :: 0 <= i < |calls| ==> calls[i].result == exec(calls[i].pos, calls[i].proof)
  }

  /** The calls of one undelayed pass from `cursor` to the end of the plan. */
  function Pass(plan: seq<ActionType>, exec: Executor, cursor: nat, proof: Proof): seq<Call>
    decreases |plan| - cursor
  {
    if cursor >= |plan| then []
    else
      var r := exec(cursor, proof);
      [Call(cursor, plan[cursor], proof, r)] + Pass(plan, exec, cursor + 1, NextProof(plan[cursor], proof, r.proof))
  }

  // ---- pieces as lists of calls ----------------------------------------------------------------------

  /** Calls in pieces: every piece but the last stops for a delay, and the next one goes on where it
      stopped, with that position as the one already waited for. */
  predicate Resumed(plan: seq<ActionType>, delays: seq<nat>, exec: Executor, cursor: nat, proof: Proof, waited: int,
        pieces: seq<seq<Call>>)
    requires |delays| == |plan|
    decreases |pieces|
  {
    && pieces != []
    && Follows(plan, cursor, proof, pieces[0]) && Answers(exec, pieces[0])
    && DelaysRespected(delays, false, waited, pieces[0])
    && var stop := cursor + |pieces[0]|;
       if |pieces| == 1 then stop >= |plan|
       else
         && StopsForDelay(delays, false, cursor, waited, pieces[0])
         && Resumed(plan, delays, exec, stop, ProofAfter(proof, pieces[0]), stop, pieces[1..])
  }

  function AllCalls(pieces: seq<seq<Call>>): seq<Call> {
    if pieces == [] then [] else pieces[0] + AllCalls(pieces[1..])
  }

  /** The positions at which the pieces before the last one stopped. */
  function Stops(cursor: nat, pieces: seq<seq<Call>>): seq<nat>
    decreases |pieces|
  {
    if |pieces| <= 1 then [] else [cursor + |pieces[0]|] + Stops(cursor + |pieces[0]|, pieces[1..])
  }

  /** The positions from `cursor` on that have a delay. */
  function Delayed(delays: seq<nat>, cursor: nat): seq<nat>
    decreases |delays| - cursor
  {
    if cursor >= |delays| then []
    else if delays[cursor] > 0 then [cursor] + Delayed(delays, cursor + 1)
    else Delayed(delays, cursor + 1)
  }

  lemma {:induction false} PassGoesOn(plan: seq<ActionType>, exec: Executor, cursor: nat, proof: Proof,
        calls: seq<Call>)
    requires Follows(plan, cursor, proof, calls) && Answers(exec, calls)
    ensures Pass(plan, exec, cursor, proof) == calls + Pass(plan, exec, cursor + |calls|, ProofAfter(proof, calls))
    decreases |calls|
  {
    if calls != [] {
      var front, last := calls[..|calls| - 1], calls[|calls| - 1];
      PassGoesOn(plan, exec, cursor, proof, front);
      assert last == calls[|calls| - 1];
      assert last.result == exec(last.pos, last.proof);
      assert calls == front + [last];
    }
  }

  lemma {:induction false} CallsMakeOnePass(plan: seq<ActionType>, delays: seq<nat>, exec: Executor, cursor: nat,
        proof: Proof, waited: int, pieces: seq<seq<Call>>)
    requires |delays| == |plan| && Resumed(plan, delays, exec, cursor, proof, waited, pieces)
    ensures AllCalls(pieces) == Pass(plan, exec, cursor, proof)
    decreases |pieces|
  {
    PassGoesOn(plan, exec, cursor, proof, pieces[0]);
    if |pieces| > 1 {
      var stop := cursor + |pieces[0]|;
      CallsMakeOnePass(plan, delays, exec, stop, ProofAfter(proof, pieces[0]), stop, pieces[1..]);
    } else {
      assert AllCalls(pieces[1..]) == [];
    }
  }

  /** The count and the proof after all pieces. */
  function SentOver(sent: nat, pieces: seq<seq<Call>>): nat
    decreases |pieces|
  {
    if pieces == [] then sent else SentOver(SentAfter(sent, pieces[0]), pieces[1..])
  }

  function ProofOver(proof: Proof, pieces: seq<seq<Call>>): Proof
    decreases |pieces|
  {
    if pieces == [] then proof else ProofOver(ProofAfter(proof, pieces[0]), pieces[1..])
  }

  lemma {:induction false} SplitAfter(sent: nat, proof: Proof, a: seq<Call>, b: seq<Call>)
    ensures SentAfter(sent, a + b) == SentAfter(SentAfter(sent, a), b)
    ensures ProofAfter(proof, a + b) == ProofAfter(ProofAfter(proof, a), b)
    decreases |b|
  {
    if b == [] {
      assert a + b == a;
    } else {
      var front := b[..|b| - 1];
      SplitAfter(sent, proof, a, front);
      assert (a + b)[..|a + b| - 1] == a + front;
    }
  }

  lemma {:induction false} OverAllCalls(sent: nat, proof: Proof, pieces: seq<seq<Call>>)
    ensures SentOver(sent, pieces) == SentAfter(sent, AllCalls(pieces))
    ensures ProofOver(proof, pieces) == ProofAfter(proof, AllCalls(pieces))
    decreases |pieces|
  {
    if pieces != [] {
      OverAllCalls(SentAfter(sent, pieces[0]), ProofAfter(proof, pieces[0]), pieces[1..]);
      SplitAfter(sent, proof, pieces[0], AllCalls(pieces[1..]));
    }
  }

  /** Every position of a piece carries no delay, except the first when its delay is over. */
  lemma {:induction false} PieceSkipsNoDelay(plan: seq<ActionType>, delays: seq<nat>, cursor: nat, proof: Proof,
        waited: int, calls: seq<Call>)
    requires |delays| == |plan| && Follows(plan, cursor, proof, calls) && DelaysRespected(delays, false, waited, calls)
    ensures cursor + |calls| <= |plan| || calls == []
    ensures forall p :: cursor <= p < cursor + |calls| ==>
        p < |delays| && (delays[p] == 0 || (p == cursor && waited == cursor))
    decreases |calls|
  {
    if calls != [] {
      var front := calls[..|calls| - 1];
      PieceSkipsNoDelay(plan, delays, cursor, proof, waited, front);
    }
  }

  lemma {:induction false} NoDelayBetween(delays: seq<nat>, lo: nat, hi: nat)
    requires lo <= hi <= |delays| && forall p :: lo <= p < hi ==> delays[p] == 0
    ensures Delayed(delays, lo) == Delayed(delays, hi)
    decreases hi
  {
    if lo < hi {
      NoDelayBetween(delays, lo, hi - 1);
    }
  }

  lemma {:induction false} CallsStopOncePerDelay(plan: seq<ActionType>, delays: seq<nat>, exec: Executor, cursor: nat,
        proof: Proof, waited: int, pieces: seq<seq<Call>>)
    requires |delays| == |plan| && Resumed(plan, delays, exec, cursor, proof, waited, pieces)
    ensures Stops(cursor, pieces) == Delayed(delays, if waited == cursor < |plan| then cursor + 1 else cursor)
    decreases |pieces|
  {
    var calls := pieces[0];
    var stop := cursor + |calls|;
    var start := if waited == cursor < |plan| then cursor + 1 else cursor;
    PieceSkipsNoDelay(plan, delays, cursor, proof, waited, calls);
    if |pieces| > 1 {
      CallsStopOncePerDelay(plan, delays, exec, stop, ProofAfter(proof, calls), stop, pieces[1..]);
      assert calls == [] ==> waited != cursor;
      NoDelayBetween(delays, start, stop);
    } else if start <= |plan| {
      NoDelayBetween(delays, start, |plan|);
    }
  }

  lemma {:induction false} DelayedIncreases(delays: seq<nat>, cursor: nat)
    ensures forall i :: 0 <= i < |Delayed(delays, cursor)| ==> cursor <= Delayed(delays, cursor)[i] < |delays|
    ensures forall i, j :: 0 <= i < j < |Delayed(delays, cursor)| ==>
        Delayed(delays, cursor)[i] < Delayed(delays, cursor)[j]
    decreases |delays| - cursor
  {
    if cursor < |delays| {
      DelayedIncreases(delays, cursor + 1);
    }
  }

  /** A run that is resumed without the position it waited for stops there again and does nothing. */
  lemma ForgottenDelayStopsAgain(plan: seq<ActionType>, delays: seq<nat>, cursor: nat, proof: Proof, calls: seq<Call>)
    requires |delays| == |plan| && cursor < |plan| && delays[cursor] > 0
    requires Follows(plan, cursor, proof, calls) && DelaysRespected(delays, false, -1, calls)
    ensures calls == []
  {
    PieceSkipsNoDelay(plan, delays, cursor, proof, -1, calls);
  }
}
