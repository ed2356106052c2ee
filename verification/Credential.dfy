/**
  Conditional write-back of an account's credential: a worker reads it under the lock, calls the
  platform without the lock, and writes what the answer brought only if the credential is unchanged.
 */
module Credential {
  import opened Wrappers

  datatype Cred = Cred(value: string, metadata: string)

  /** The places that write a credential back. */
  datatype Path = Shipment | OrderDetail | BatchPublish

  /** What a platform call leaves: the cookie session, and the flat cookie of older answers. */
  datatype Response = Response(changed: bool, snapshot: Option<string>, value: string, updated: string, failed: bool)

  /** The functions on stored texts that lie outside this model. */
  datatype Codec = Codec(withSnapshot: (string, string) -> string, withoutSnapshot: string -> string,
      digest: string -> string)

  /** The text whose digest is the fingerprint of a credential. */
  function Joined(c: Cred): string {
    c.value + "\0" + c.metadata
  }

  /** The check before a write. */
  predicate Unchanged(path: Path, codec: Codec, base: Cred, current: Cred) {
    if path.Shipment? then codec.digest(Joined(current)) == codec.digest(Joined(base)) else current == base
  }

  function Rewritten(codec: Codec, current: Cred, r: Response): Cred {
    Cred(r.value, if r.snapshot.Some? then codec.withSnapshot(current.metadata, r.snapshot.value)
        else codec.withoutSnapshot(current.metadata))
  }

  /** What is written over `current` when the check passes: the session's cookies, or a flat cookie
      from a call without a cookie jar. */
  function Update(codec: Codec, base: Cred, current: Cred, r: Response): Option<Cred> {
    if r.changed then Some(Rewritten(codec, current, r))
    else if r.snapshot.None? && !r.failed && r.updated != "" && r.updated != base.value
        && r.updated != current.value then
      Some(Cred(r.updated, codec.withoutSnapshot(current.metadata)))
    else None
  }

  /** The answer brings something to store: a changed session, or another flat cookie from a call that
      succeeded without a cookie jar. */
  predicate BringsNews(base: Cred, current: Cred, r: Response) {
    || r.changed
    || (r.snapshot.None? && !r.failed && r.updated != "" && r.updated != base.value && r.updated != current.value)
  }

  /** `after` is the new cookie; of the metadata only the snapshot is replaced or removed. */
  predicate StoresAnswer(codec: Codec, before: Cred, r: Response, after: Cred) {
    && after.value == (if r.changed then r.value else r.updated)
    && (r.changed && r.snapshot.Some? ==> after.metadata == codec.withSnapshot(before.metadata, r.snapshot.value))
    && (!r.changed || r.snapshot.None? ==> after.metadata == codec.withoutSnapshot(before.metadata))
  }

  lemma UpdateStoresTheAnswer(codec: Codec, base: Cred, current: Cred, r: Response)
    ensures Update(codec, base, current, r).Some? <==> BringsNews(base, current, r)
    ensures Update(codec, base, current, r).Some? ==> StoresAnswer(codec, current, r,
        Update(codec, base, current, r).value)
  {
  }

  // ---- any number of workers ---------------------------------------------------------------------------------

  datatype Worker =
    | Calling(path: Path, base: Cred)
    | Answered(path: Path, base: Cred, response: Response)
    | Over

  /** One committed write: what it replaced, what it wrote, what its request started from, and the
      answer it stores. */
  datatype Write = Write(path: Path, before: Cred, after: Cred, base: Cred, response: Response)

  datatype State = State(cred: Cred, workers: map<nat, Worker>, log: seq<Write>)

  datatype Step =
    | Take(w: nat, path: Path)
    | Answer(w: nat, response: Response)
    | Commit(w: nat, fails: bool)

  predicate Enabled(s: State, step: Step) {
    match step
    case Take(w, _) => w !in s.workers
    case Answer(w, _) => w in s.workers && s.workers[w].Calling?
    case Commit(w, _) => w in s.workers && s.workers[w].Answered?
  }

  /** The locked section after the call: read again, compare, write. */
  function ApplyCommit(codec: Codec, s: State, w: nat, fails: bool): State
    requires Enabled(s, Commit(w, fails))
  {
    var me := s.workers[w];
    var ended := s.(workers := s.workers[w := Over]);
    if fails || !Unchanged(me.path, codec, me.base, s.cred) then ended
    else match Update(codec, me.base, s.cred, me.response)
      case None => ended
      case Some(next) => ended.(cred := next, log := s.log + [Write(me.path, s.cred, next, me.base, me.response)])
  }

  function Apply(codec: Codec, s: State, step: Step): State
    requires Enabled(s, step)
  {
    match step
    case Take(w, path) => s.(workers := s.workers[w := Calling(path, s.cred)])
    case Answer(w, response) => s.(workers := s.workers[w := Answered(s.workers[w].path, s.workers[w].base, response)])
    case Commit(w, fails) => ApplyCommit(codec, s, w, fails)
  }

  ghost predicate Leads(codec: Codec, s: State, steps: seq<Step>, t: State)
    decreases |steps|
  {
    if steps == [] then s == t
    else Enabled(s, steps[0]) && Leads(codec, Apply(codec, s, steps[0]), steps[1..], t)
  }

  /** The digest has no collisions. */
  ghost predicate Distinguishes(codec: Codec) {
    forall x: string, y: string :: codec.digest(x) == codec.digest(y) ==> x == y
  }

  /** What the writes before the i-th one left. */
  function Previous(first: Cred, log: seq<Write>, i: nat): Cred
    requires i <= |log|
  {
    if i == 0 then first else log[i - 1].after
  }

  /** A write stored what its answer brought, over a credential that its check could not tell from
      the one its request had read. */
  predicate Checked(codec: Codec, write: Write) {
    && Some(write.after) == Update(codec, write.base, write.before, write.response)
    && Joined(write.before) == Joined(write.base)
    && (write.path.Shipment? || write.before == write.base)
  }

  /** The writes follow each other without a gap. */
  predicate Chained(codec: Codec, first: Cred, s: State) {
    && s.cred == Previous(first, s.log, |s.log|)
    && (forall i :: 0 <= i < |s.log| ==> Checked(codec, s.log[i]))
    && (forall i :: 0 <= i < |s.log| ==> s.log[i].before == Previous(first, s.log, i))
  }

  /** A commit leaves the log alone or adds one checked write. */
  lemma CommitIsChecked(codec: Codec, s: State, w: nat, fails: bool)
    requires Distinguishes(codec) && Enabled(s, Commit(w, fails))
    ensures var n := ApplyCommit(codec, s, w, fails);
            || (n.log == s.log && n.cred == s.cred)
            || (&& |n.log| == |s.log| + 1 && n.log[..|s.log|] == s.log && Checked(codec, n.log[|s.log|])
                && n.log[|s.log|].before == s.cred && n.log[|s.log|].after == n.cred)
  {
    hide Update;
    var me := s.workers[w];
    if Unchanged(me.path, codec, me.base, s.cred) {
      assert Joined(s.cred) == Joined(me.base);
    }
  }

  lemma StepKeepsChain(codec: Codec, first: Cred, s: State, step: Step)
    requires Distinguishes(codec) && Chained(codec, first, s) && Enabled(s, step)
    ensures Chained(codec, first, Apply(codec, s, step))
  {
    hide ApplyCommit, Checked, Distinguishes;
    if step.Commit? {
      var n := Apply(codec, s, step);
      CommitIsChecked(codec, s, step.w, step.fails);
      forall i | 0 <= i < |n.log|
        ensures Checked(codec, n.log[i]) && n.log[i].before == Previous(first, n.log, i)
      {
        assert i < |s.log| ==> n.log[i] == s.log[i];
        assert 0 < i <= |s.log| ==> n.log[i - 1] == s.log[i - 1];
      }
    }
  }

  lemma {:induction false} ReachableChain(codec: Codec, first: Cred, s: State, steps: seq<Step>, t: State)
    requires Distinguishes(codec) && Chained(codec, first, s) && Leads(codec, s, steps, t)
    ensures Chained(codec, first, t)
    decreases |steps|
  {
    if steps != [] {
      StepKeepsChain(codec, first, s, steps[0]);
      ReachableChain(codec, first, Apply(codec, s, steps[0]), steps[1..], t);
    }
  }

  // ---- fingerprints -------------------------------------------------------------------------------------------

  predicate NoNul(s: string) {
    forall k :: 0 <= k < |s| ==> s[k] != '\0'
  }

  lemma SameBorderSameCred(a: Cred, b: Cred)
    requires Joined(a) == Joined(b)
    ensures a == b <==> |a.value| == |b.value|
  {
    if |a.value| == |b.value| {
      assert a.value == Joined(a)[..|a.value|] == b.value;
      assert a.metadata == Joined(a)[|a.value| + 1..] == b.metadata;
    }
  }

  /** Metadata is empty or JSON, which escapes NUL, so the last NUL of a fingerprint text is the border:
      the text tells credentials apart whatever their cookies hold. */
  lemma FingerprintTellsApart(a: Cred, b: Cred)
    requires NoNul(a.metadata) && NoNul(b.metadata) && Joined(a) == Joined(b)
    ensures a == b
  {
    var s := Joined(a);
    assert s[|a.value|] == '\0' && s[|b.value|] == '\0';
    assert forall k :: |a.value| < k < |s| ==> s[k] == a.metadata[k - |a.value| - 1];
    assert forall k :: |b.value| < k < |s| ==> s[k] == b.metadata[k - |b.value| - 1];
    SameBorderSameCred(a, b);
  }

  /** So does the text of credentials whose cookies hold no NUL, whatever their metadata. */
  lemma JoinedTellsApart(a: Cred, b: Cred)
    requires NoNul(a.value) && NoNul(b.value) && Joined(a) == Joined(b)
    ensures a == b
  {
    var s := Joined(a);
    assert s[|a.value|] == '\0' && s[|b.value|] == '\0';
    assert forall k :: 0 <= k < |a.value| ==> s[k] == a.value[k];
    assert forall k :: 0 <= k < |b.value| ==> s[k] == b.value[k];
    SameBorderSameCred(a, b);
  }

  /** Without either condition the border is lost. */
  lemma NulHidesBorder()
    ensures Cred("a\0b", "c") != Cred("a", "b\0c")
    ensures Joined(Cred("a\0b", "c")) == Joined(Cred("a", "b\0c"))
  {
  }

  // ---- no update is lost ----------------------------------------------------------------------------------------

  /** The metadata that is written back is JSON, or text that was there before. */
  ghost predicate WritesJson(codec: Codec) {
    && (forall m: string, snapshot: string :: NoNul(codec.withSnapshot(m, snapshot)))
    && (forall m: string :: NoNul(m) ==> NoNul(codec.withoutSnapshot(m)))
  }

  /** No credential in sight has a NUL in its metadata. */
  predicate Clean(s: State) {
    && NoNul(s.cred.metadata)
    && (forall w :: w in s.workers && !s.workers[w].Over? ==> NoNul(s.workers[w].base.metadata))
  }

  /** Each write replaces the credential its request has read. */
  predicate Exact(s: State) {
    forall i :: 0 <= i < |s.log| ==> s.log[i].before == s.log[i].base
  }

  lemma StepKeepsExact(codec: Codec, s: State, step: Step)
    requires Distinguishes(codec) && WritesJson(codec) && Clean(s) && Exact(s) && Enabled(s, step)
    ensures Clean(Apply(codec, s, step)) && Exact(Apply(codec, s, step))
  {
    if step.Commit? {
      var me := s.workers[step.w];
      if Unchanged(me.path, codec, me.base, s.cred) {
        FingerprintTellsApart(s.cred, me.base);
      }
    }
  }

  lemma {:induction false} ReachableExact(codec: Codec, s: State, steps: seq<Step>, t: State)
    requires Distinguishes(codec) && WritesJson(codec) && Clean(s) && Exact(s) && Leads(codec, s, steps, t)
    ensures Exact(t)
    decreases |steps|
  {
    if steps != [] {
      StepKeepsExact(codec, s, steps[0]);
      ReachableExact(codec, Apply(codec, s, steps[0]), steps[1..], t);
    }
  }

  /** In every interleaving each committed write of each path replaces exactly the credential its request
      started from, which is the one written last before it, and stores what its answer brought: no
      committed update is overwritten unseen, whatever cookies the platform sends. */
  lemma NoUpdateIsLost(codec: Codec, first: Cred, steps: seq<Step>, t: State, i: nat)
    requires Distinguishes(codec) && WritesJson(codec) && NoNul(first.metadata)
    requires Leads(codec, State(first, map[], []), steps, t) && i < |t.log|
    ensures t.log[i].base == t.log[i].before == Previous(first, t.log, i)
    ensures BringsNews(t.log[i].base, t.log[i].before, t.log[i].response)
    ensures StoresAnswer(codec, t.log[i].before, t.log[i].response, t.log[i].after)
    ensures t.cred == Previous(first, t.log, |t.log|)
  {
    ReachableChain(codec, first, State(first, map[], []), steps, t);
    ReachableExact(codec, State(first, map[], []), steps, t);
    assert Checked(codec, t.log[i]);
    UpdateStoresTheAnswer(codec, t.log[i].base, t.log[i].before, t.log[i].response);
  }

  function Digit(n: nat): char
    requires n < 16
  {
    "0123456789abcdef"[n]
  }

  /** A character in a JSON text. */
  function Escaped(c: char): string {
    if c == '"' || c == '\\' then ['\\', c]
    else if c as int < 0x20 then "\\u00" + [Digit(c as int / 16), Digit(c as int % 16)]
    else [c]
  }

  function EscapedText(s: string): string {
    if s == "" then "" else EscapedText(s[..|s| - 1]) + Escaped(s[|s| - 1])
  }

  lemma {:induction false} EscapedHasNoNul(s: string)
    ensures NoNul(EscapedText(s))
  {
    if s != "" {
      EscapedHasNoNul(s[..|s| - 1]);
    }
  }

  /** A codec that writes the snapshot as a JSON object and has no collisions. */
  function JsonCodec(): Codec {
    Codec((metadata, snapshot) => "{\"cookies_refresh_snapshot\":\"" + EscapedText(snapshot) + "\"}",
          metadata => if metadata == "" then "" else "{}", text => text)
  }

  /** The assumptions on the codec can be met. */
  lemma JsonCodecIsGood()
    ensures Distinguishes(JsonCodec()) && WritesJson(JsonCodec())
  {
    var codec := JsonCodec();
    forall m: string, snapshot: string
      ensures NoNul(codec.withSnapshot(m, snapshot))
    {
      EscapedHasNoNul(snapshot);
    }
  }

  // ---- the stored credential ------------------------------------------------------------------------------------

  class Store {
    var cred: Cred

    constructor (cred: Cred)
      ensures this.cred == cred
    {
      this.cred := cred;
    }

    /** The section that writes, when the store takes it. */
    method UpdateCookie(next: Cred, stores: bool) returns (ok: bool)
      modifies this
      ensures ok == stores && cred == if ok then next else old(cred)
    {
      ok := stores;
      if ok {
        cred := next;
      }
    }

    /** persistShipmentConsignCookies; `readable` and `stores` are what the database does. */
    method PersistShipment(codec: Codec, base: Cred, r: Response, readable: bool, stores: bool)
      returns (written: bool, conflict: bool)
      modifies this
      // written exactly when the answer brings something and the fingerprint is the one the request read
      ensures written <==>
                && BringsNews(base, old(cred), r) && readable && stores
                && codec.digest(Joined(old(cred))) == codec.digest(Joined(base))
      ensures written ==> StoresAnswer(codec, old(cred), r, cred)
      // what is replaced is what the request read
      ensures written && Distinguishes(codec) && NoNul(base.metadata) && NoNul(old(cred).metadata) ==> old(cred) == base
      ensures !written ==> cred == old(cred)
      ensures conflict <==>
                && readable && codec.digest(Joined(old(cred))) != codec.digest(Joined(base))
                && BringsNews(base, base, r)
    {
      written, conflict := false, false;
      var flat := r.snapshot.None? && !r.failed && r.updated != "" && r.updated != base.value;
      if (!r.changed && !flat) || !readable {
        return;
      }
      if codec.digest(Joined(cred)) != codec.digest(Joined(base)) {
        conflict := true;
        return;
      }
      if Joined(cred) == Joined(base) && NoNul(base.metadata) && NoNul(cred.metadata) {
        FingerprintTellsApart(cred, base);
      }
      if r.changed {
        var metadata := codec.withoutSnapshot(cred.metadata);
        if r.snapshot.Some? {
          metadata := codec.withSnapshot(cred.metadata, r.snapshot.value);
        }
        written := UpdateCookie(Cred(r.value, metadata), stores);
      } else if !r.failed && r.updated != "" && r.updated != cred.value {
        written := UpdateCookie(Cred(r.updated, codec.withoutSnapshot(cred.metadata)), stores);
      }
    }

    /** The section of fetchOrderDetailAttempt after the call. */
    method PersistOrderDetail(codec: Codec, base: Cred, r: Response, readable: bool, stores: bool)
      returns (written: bool)
      modifies this
      ensures written <==> BringsNews(base, base, r) && readable && stores && old(cred) == base
      ensures written ==> StoresAnswer(codec, base, r, cred)
      ensures !written ==> cred == old(cred)
    {
      written := false;
      if !readable || cred != base {
        return;
      }
      var cookie, failed := base.value, r.failed;
      if r.changed {
        var metadata := codec.withoutSnapshot(cred.metadata);
        if r.snapshot.Some? {
          metadata := codec.withSnapshot(cred.metadata, r.snapshot.value);
        }
        written := UpdateCookie(Cred(r.value, metadata), stores);
        failed := failed || !written;
      }
      if failed {
        return;
      }
      if !r.changed && r.snapshot.None? && r.updated != "" && r.updated != cookie {
        written := UpdateCookie(Cred(r.updated, codec.withoutSnapshot(cred.metadata)), stores);
      }
    }

    /** persistBatchSession. */
    method PersistBatch(codec: Codec, base: Cred, r: Response, sameOwner: bool, readable: bool, stores: bool)
      returns (written: bool)
      modifies this
      ensures written <==> BringsNews(base, base, r) && sameOwner && readable && stores && old(cred) == base
      ensures written ==> StoresAnswer(codec, base, r, cred)
      ensures !written ==> cred == old(cred)
    {
      written := false;
      if !readable || !sameOwner || cred.value != base.value || cred.metadata != base.metadata {
        return;
      }
      if r.changed {
        var metadata := codec.withoutSnapshot(cred.metadata);
        if r.snapshot.Some? {
          metadata := codec.withSnapshot(cred.metadata, r.snapshot.value);
        }
        written := UpdateCookie(Cred(r.value, metadata), stores);
        return;
      }
      if r.snapshot.None? && !r.failed && r.updated != "" && r.updated != cred.value {
        written := UpdateCookie(Cred(r.updated, codec.withoutSnapshot(cred.metadata)), stores);
      }
    }
  }
}
