/** The calls one worker has made for a run, in the order of the plan. */
module RunCalls {
  import opened DeliveryProof
  import opened RunTable
  import opened RunProtocol

  datatype Call = Call(pos: nat, action: ActionType, proof: Proof, result: ActionResult)

  function ProofAfter(proof: Proof, calls: seq<Call>): Proof {
    if calls == [] then proof
    else
      var last := calls[|calls| - 1];
      NextProof(last.action, ProofAfter(proof, calls[..|calls| - 1]), last.result.proof)
  }

  function SentAfter(sent: nat, calls: seq<Call>): nat {
    if calls == [] then sent else SentAfter(sent, calls[..|calls| - 1]) + calls[|calls| - 1].result.sent
  }

  /** The calls take the positions from `cursor` on one by one, and each gets the proof left by
      the ones before it. */
  predicate Follows(plan: seq<ActionType>, cursor: nat, proof: Proof, calls: seq<Call>) {
    calls == [] ||
    var front, last := calls[..|calls| - 1], calls[|calls| - 1];
    && Follows(plan, cursor, proof, front)
    && last.pos == cursor + |front| < |plan|
    && last.action == plan[last.pos]
    && last.proof == ProofAfter(proof, front)
  }

  predicate AllSucceeded(calls: seq<Call>) {
    forall i :: 0 <= i < |calls| ==> calls[i].result.err.NoError?
  }

  /** A call is made without delay, after its delay, or with delays switched off. */
  predicate DelaysRespected(delays: seq<nat>, skipDelays: bool, delayCursor: int, calls: seq<Call>) {
    forall i :: 0 <= i < |calls| ==>
      && calls[i].pos < |delays|
      && (skipDelays || delays[calls[i].pos] == 0 || (i == 0 && delayCursor == calls[i].pos))
  }

  /** The loop has reached a position whose delay is still to be waited for. */
  predicate StopsForDelay(delays: seq<nat>, skipDelays: bool, cursor: nat, delayCursor: int, calls: seq<Call>) {
    && !skipDelays && cursor + |calls| < |delays| && delays[cursor + |calls|] > 0
    && (calls == [] ==> delayCursor != cursor)
  }

  /** What a worker that read `run` knows after successful `calls`. */
  predicate Trace(plan: seq<ActionType>, run: Run, calls: seq<Call>, sent: nat, proof: Proof) {
    && Follows(plan, run.cursor, run.proof, calls) && AllSucceeded(calls)
    && sent == SentAfter(run.sent, calls) && proof == ProofAfter(run.proof, calls)
    && (run.cursor <= |plan| ==> run.cursor + |calls| <= |plan|)
  }

  lemma TraceGrows(plan: seq<ActionType>, run: Run, calls: seq<Call>, sent: nat, proof: Proof, answer: ActionResult)
    requires Trace(plan, run, calls, sent, proof) && run.cursor + |calls| < |plan| && answer.err.NoError?
    ensures var c := run.cursor + |calls|;
            Trace(plan, run, calls + [Call(c, plan[c], proof, answer)], sent + answer.sent,
                NextProof(plan[c], proof, answer.proof))
  {
    var c := run.cursor + |calls|;
    assert (calls + [Call(c, plan[c], proof, answer)])[..|calls|] == calls;
  }

  lemma DelaysStayRespected(delays: seq<nat>, skipDelays: bool, delayCursor: int, calls: seq<Call>, call: Call)
    requires DelaysRespected(delays, skipDelays, delayCursor, calls)
    requires call.pos < |delays|
    requires skipDelays || delays[call.pos] == 0 || (calls == [] && delayCursor == call.pos)
    ensures DelaysRespected(delays, skipDelays, delayCursor, calls + [call])
  {
  }
}
