/**
  The browser pool: leases, eviction, single-flight creation and shutdown, as steps of any number
  of operations that interleave freely. Each step is one section under a lock of the manager.
 */
module BrowserPool {
  import opened Wrappers

  /** A pooled browser; entries are told apart by number. */
  datatype Entry = Entry(key: string, active: nat, initial: bool, lastUsed: int)

  /** Where one operation stands. `again` is its second attempt after a broken page. */
  datatype Op =
    | Ready(key: string, again: bool)                  // registered, looks into the pool next
    | Seeking(key: string, again: bool)                // found nothing, asks for the flight of its key
    | Joined(key: string, flight: nat, again: bool)    // waits for another operation's flight
    | Leading(key: string, flight: nat, again: bool)   // runs the flight, looks again next
    | Evicting(key: string, flight: nat, again: bool)  // evictIfNeeded comes next
    | Making(key: string, flight: nat, again: bool)    // launches a browser
    | Landing(key: string, flight: nat, id: nat, again: bool) // the flight returns this entry
    | Offered(key: string, id: nat, again: bool)       // has an entry, claims it if still current
    | Leased(key: string, id: nat, again: bool)
    | Broken(key: string, again: bool)                 // page failed, lease returned, evict comes next
    | Ending                                           // endOperation comes next
    | Over

  /** Where the one call that may close the manager stands. */
  datatype Closer = Idle | Waiting | Draining | Drained

  datatype State = State(
    closing: bool, closed: bool, inFlight: nat,
    pool: map<string, nat>, entries: map<nat, Entry>,
    connected: set<nat>, shut: set<nat>,
    ops: map<nat, Op>,
    flying: map<string, nat>, landed: map<nat, Option<nat>>, flights: nat,
    closer: Closer)

  function Start(): State {
    State(false, false, 0, map[], map[], {}, {}, map[], map[], map[], 0, Idle)
  }

  datatype Step =
    | Begin(t: nat, key: string)
    | InitFails(t: nat)
    | Look(t: nat, now: int)
    | Fly(t: nat)
    | LeaderLooks(t: nat)
    | EvictOldest(t: nat, victim: Option<string>)
    | MakeFails(t: nat)
    | Insert(t: nat, id: nat, now: int)
    | Land(t: nat)
    | Receive(t: nat)
    | ClaimOffered(t: nat, now: int)
    | PageFails(t: nat, now: int)
    | EvictBroken(t: nat)
    | Release(t: nat, now: int)
    | End(t: nat)
    | Cleanup(idle: set<string>)
    | Disconnect(id: nat)
    | CloseBegin
    | CloseTimeout
    | ClosePoll
    | Drain
    | CloseFinish

  // ---- sections under the pool lock ---------------------------------------------------------------------

  /** claimEntryLocked: the first claim takes over the lease the entry was created with. */
  function Claimed(e: Entry, now: int): Entry {
    if e.initial then e.(initial := false, lastUsed := now) else e.(active := e.active + 1, lastUsed := now)
  }

  /** The pool holds a connected entry for the key. */
  predicate Usable(s: State, key: string) {
    key in s.pool && s.pool[key] in s.entries && s.pool[key] in s.connected
  }

  function Claim(s: State, key: string, now: int): State
    requires key in s.pool && s.pool[key] in s.entries
  {
    s.(entries := s.entries[s.pool[key] := Claimed(s.entries[s.pool[key]], now)])
  }

  /** releaseEntry: an entry that is no longer current is left alone. */
  function Returned(s: State, key: string, id: nat, now: int): State {
    if key in s.pool && s.pool[key] == id && id in s.entries then
      var e := s.entries[id];
      s.(entries := s.entries[id := e.(active := if e.active > 0 then e.active - 1 else 0, lastUsed := now)])
    else s
  }

  predicate IsIdle(s: State, key: string) {
    key in s.pool && s.pool[key] in s.entries && s.entries[s.pool[key]].active == 0
  }

  /** Removes a key from the pool; the entry is closed after the lock is given up. */
  function Removed(s: State, key: string): State
    requires key in s.pool
  {
    s.(pool := s.pool - {key}, shut := s.shut + {s.pool[key]})
  }

  /** evict: a leased entry stays. */
  function Evicted(s: State, key: string): State {
    if IsIdle(s, key) then Removed(s, key) else s
  }

  /** The choice of evictIfNeeded: the least recently used idle entry of a full pool. */
  predicate IsVictim(s: State, maxSize: nat, victim: Option<string>) {
    if |s.pool| < maxSize then victim.None?
    else match victim
      case None => forall k :: k in s.pool ==> !IsIdle(s, k)
      case Some(key) =>
        && IsIdle(s, key)
        && forall k :: k in s.pool && IsIdle(s, k) ==> s.entries[s.pool[key]].lastUsed <= s.entries[s.pool[k]].lastUsed
  }

  function AllRemoved(s: State, keys: set<string>): State {
    s.(pool := s.pool - keys, shut := s.shut + set k | k in keys && k in s.pool :: s.pool[k])
  }

  // ---- steps ----------------------------------------------------------------------------------------------

  function OpOf(s: State, t: nat): Op {
    if t in s.ops then s.ops[t] else Over
  }

  predicate Enabled(maxSize: nat, s: State, step: Step) {
    match step
    case Begin(t, _) => t !in s.ops
    case InitFails(t) => OpOf(s, t).Ready?
    case Look(t, _) => OpOf(s, t).Ready?
    case Fly(t) => OpOf(s, t).Seeking?
    case LeaderLooks(t) => OpOf(s, t).Leading?
    case EvictOldest(t, victim) => OpOf(s, t).Evicting? && IsVictim(s, maxSize, victim)
    case MakeFails(t) => OpOf(s, t).Making?
    case Insert(t, id, _) => OpOf(s, t).Making? && id !in s.entries
    case Land(t) => OpOf(s, t).Landing?
    case Receive(t) => OpOf(s, t).Joined? && OpOf(s, t).flight in s.landed
    case ClaimOffered(t, _) => OpOf(s, t).Offered?
    case PageFails(t, _) => OpOf(s, t).Leased?
    case EvictBroken(t) => OpOf(s, t).Broken?
    case Release(t, _) => OpOf(s, t).Leased?
    case End(t) => OpOf(s, t).Ending?
    case Cleanup(idle) => forall k :: k in idle ==> IsIdle(s, k)
    case Disconnect(_) => true
    case CloseBegin => s.closer.Idle? && !s.closed
    case CloseTimeout => s.closer.Waiting?
    case ClosePoll => s.closer.Waiting?
    case Drain => s.closer.Draining?
    case CloseFinish => s.closer.Drained?
  }

  function Go(s: State, t: nat, op: Op): State {
    s.(ops := s.ops[t := op])
  }

  /** The flight of a key is over and its result is there for those who joined it. */
  function LandFlight(s: State, key: string, flight: nat, result: Option<nat>): State {
    s.(flying := s.flying - {key}, landed := s.landed[flight := result])
  }

  /** endOperation. */
  function OneLess(s: State): State {
    s.(inFlight := if s.inFlight > 0 then s.inFlight - 1 else 0)
  }

  function ApplyLook(s: State, t: nat, key: string, again: bool, now: int): State {
    if Usable(s, key) then Go(Claim(s, key, now), t, Leased(key, s.pool[key], again)) else Go(s, t, Seeking(key, again))
  }

  function ApplyFly(s: State, t: nat, key: string, again: bool): State {
    if key in s.flying then Go(s, t, Joined(key, s.flying[key], again))
    else Go(s.(flying := s.flying[key := s.flights], flights := s.flights + 1), t, Leading(key, s.flights, again))
  }

  function ApplyInsert(s: State, t: nat, id: nat, now: int): State
    requires OpOf(s, t).Making?
  {
    var op := OpOf(s, t);
    Go(s.(entries := s.entries[id := Entry(op.key, 1, true, now)], pool := s.pool[op.key := id],
        connected := s.connected + {id}),
       t, Landing(op.key, op.flight, id, op.again))
  }

  function ApplyClaimOffered(s: State, t: nat, now: int): State
    requires OpOf(s, t).Offered?
  {
    var op := OpOf(s, t);
    if op.key in s.pool && s.pool[op.key] == op.id && op.id in s.entries
    then Go(Claim(s, op.key, now), t, Leased(op.key, op.id, op.again))
    else Go(s, t, Ending)
  }

  function Apply(maxSize: nat, s: State, step: Step): State
    requires Enabled(maxSize, s, step)
  {
    match step
    case Begin(t, key) =>
      if s.closing || s.closed then Go(s, t, Over)
      else Go(s.(inFlight := s.inFlight + 1), t, Ready(key, false))
    case InitFails(t) => Go(s, t, Ending)
    case Look(t, now) => ApplyLook(s, t, OpOf(s, t).key, OpOf(s, t).again, now)
    case Fly(t) => ApplyFly(s, t, OpOf(s, t).key, OpOf(s, t).again)
    case LeaderLooks(t) =>
      var op := OpOf(s, t);
      if Usable(s, op.key) then Go(s, t, Landing(op.key, op.flight, s.pool[op.key], op.again))
      else Go(s, t, Evicting(op.key, op.flight, op.again))
    case EvictOldest(t, victim) =>
      var op := OpOf(s, t);
      Go(if victim.Some? then Evicted(s, victim.value) else s, t, Making(op.key, op.flight, op.again))
    case MakeFails(t) => Go(LandFlight(s, OpOf(s, t).key, OpOf(s, t).flight, None), t, Ending)
    case Insert(t, id, now) => ApplyInsert(s, t, id, now)
    case Land(t) =>
      var op := OpOf(s, t);
      Go(LandFlight(s, op.key, op.flight, Some(op.id)), t, Offered(op.key, op.id, op.again))
    case Receive(t) =>
      var op := OpOf(s, t);
      var result := s.landed[op.flight];
      Go(s, t, if result.Some? then Offered(op.key, result.value, op.again) else Ending)
    case ClaimOffered(t, now) => ApplyClaimOffered(s, t, now)
    case PageFails(t, now) =>
      var op := OpOf(s, t);
      Go(Returned(s, op.key, op.id, now), t, Broken(op.key, op.again))
    case EvictBroken(t) =>
      var op := OpOf(s, t);
      Go(Evicted(s, op.key), t, if op.again then Ending else Ready(op.key, true))
    case Release(t, now) => Go(Returned(s, OpOf(s, t).key, OpOf(s, t).id, now), t, Ending)
    case End(t) => Go(OneLess(s), t, Over)
    case Cleanup(idle) => AllRemoved(s, idle)
    case Disconnect(id) => s.(connected := s.connected - {id})
    case CloseBegin => s.(closing := true, closer := Waiting)
    case CloseTimeout => s.(closer := Idle)
    case ClosePoll => if s.inFlight == 0 then s.(closer := Draining) else s
    case Drain => AllRemoved(s, s.pool.Keys).(closer := Drained)
    case CloseFinish => s.(closed := true, closer := Idle)
  }

  ghost predicate Leads(maxSize: nat, s: State, steps: seq<Step>, t: State)
    decreases |steps|
  {
    if steps == [] then s == t
    else Enabled(maxSize, s, steps[0]) && Leads(maxSize, Apply(maxSize, s, steps[0]), steps[1..], t)
  }

  // ---- what every step keeps --------------------------------------------------------------------------------

  function Holders(ops: map<nat, Op>, id: nat): set<nat> {
    set t | t in ops && ops[t].Leased? && ops[t].id == id
  }

  function Running(ops: map<nat, Op>): set<nat> {
    set t | t in ops && !ops[t].Over?
  }

  predicate IsLeader(op: Op) {
    op.Leading? || op.Evicting? || op.Making? || op.Landing?
  }

  /** A pooled entry counts its leases, and the one it was created with while nobody has taken it. */
  predicate Counted(s: State, key: string)
    requires key in s.pool
  {
    var id := s.pool[key];
    && id in s.entries && s.entries[id].key == key && id !in s.shut
    && s.entries[id].active == |Holders(s.ops, id)| + if s.entries[id].initial then 1 else 0
  }

  /** The entry of a lease exists, belongs to its key, and has not been closed. */
  predicate LeaseOk(s: State, op: Op) {
    op.Leased? ==> op.id in s.entries && s.entries[op.id].key == op.key && op.id !in s.shut
  }

  /** A leader holds the flight of its key; before it inserts, the pool has no live entry for it. */
  predicate LeaderOk(s: State, t: nat)
    requires t in s.ops
  {
    var op := s.ops[t];
    IsLeader(op) ==>
      && op.key in s.flying && s.flying[op.key] == op.flight < s.flights
      && (op.Evicting? || op.Making? ==> !Usable(s, op.key))
      && forall u :: u in s.ops && IsLeader(s.ops[u]) && s.ops[u].key == op.key ==> u == t
  }

  predicate CloserOk(s: State) {
    && (s.closer.Draining? || s.closer.Drained? || s.closed ==> s.closing && Running(s.ops) == {})
    && (s.closer.Drained? || s.closed ==> s.pool == map[])
    && (s.closer.Waiting? ==> s.closing)
  }

  predicate CountsOk(s: State) {
    forall key :: key in s.pool ==> Counted(s, key)
  }

  predicate OpsOk(s: State) {
    forall t :: t in s.ops ==> LeaseOk(s, s.ops[t]) && LeaderOk(s, t)
  }

  predicate Inv(s: State) {
    && CountsOk(s)
    && OpsOk(s)
    && s.inFlight == |Running(s.ops)|
    && CloserOk(s)
    && s.shut <= s.entries.Keys
  }

  lemma HoldersAfter(ops: map<nat, Op>, t: nat, op: Op, id: nat)
    ensures Holders(ops[t := op], id) == Holders(ops, id) - {t} + (if op.Leased? && op.id == id then {t} else {})
  {
  }

  lemma RunningAfter(ops: map<nat, Op>, t: nat, op: Op)
    ensures Running(ops[t := op]) == Running(ops) - {t} + (if op.Over? then {} else {t})
  {
  }

  /** The operation takes part and holds no lease. */
  predicate Plain(s: State, t: nat) {
    t in s.ops && !s.ops[t].Leased? && !s.ops[t].Over?
  }

  lemma RunningStays(s: State, t: nat, op: Op)
    requires t in s.ops && !s.ops[t].Over? && !op.Over? && s.inFlight == |Running(s.ops)| && CloserOk(s)
    ensures s.inFlight == |Running(s.ops[t := op])| && CloserOk(Go(s, t, op))
  {
    RunningAfter(s.ops, t, op);
    assert t in Running(s.ops);
    assert Running(s.ops) - {t} + {t} == Running(s.ops);
  }

  lemma HoldersStay(ops: map<nat, Op>, t: nat, op: Op, id: nat)
    requires t in ops && !(ops[t].Leased? && ops[t].id == id) && !(op.Leased? && op.id == id)
    ensures Holders(ops[t := op], id) == Holders(ops, id)
  {
    HoldersAfter(ops, t, op, id);
    assert t !in Holders(ops, id);
  }

  lemma HoldersGrow(ops: map<nat, Op>, t: nat, op: Op)
    requires t in ops && !ops[t].Leased? && op.Leased?
    ensures |Holders(ops[t := op], op.id)| == |Holders(ops, op.id)| + 1
  {
    HoldersAfter(ops, t, op, op.id);
    assert t !in Holders(ops, op.id);
    assert Holders(ops[t := op], op.id) == Holders(ops, op.id) + {t};
  }

  lemma HoldersShrink(ops: map<nat, Op>, t: nat, op: Op)
    requires t in ops && ops[t].Leased? && !op.Leased?
    ensures |Holders(ops[t := op], ops[t].id)| == |Holders(ops, ops[t].id)| - 1
  {
    HoldersAfter(ops, t, op, ops[t].id);
    assert t in Holders(ops, ops[t].id);
    assert Holders(ops[t := op], ops[t].id) == Holders(ops, ops[t].id) - {t};
  }

  /** The operation may become a leader only by going on as one, before it inserts only while the
      pool has no live entry. */
  predicate LeadsOn(s: State, t: nat, op: Op) {
    && (IsLeader(op) ==> t in s.ops && IsLeader(s.ops[t]) && op.key == s.ops[t].key && op.flight == s.ops[t].flight)
    && (op.Evicting? || op.Making? ==> !Usable(s, op.key))
  }

  /** Same flights, entries at least as before, and no key becomes usable. */
  ghost predicate Quieter(s: State, n: State) {
    && n.flying == s.flying && n.flights == s.flights && n.shut == s.shut
    && (forall id :: id in s.entries ==> id in n.entries && n.entries[id].key == s.entries[id].key)
    && (forall key :: Usable(n, key) ==> Usable(s, key))
  }

  lemma OpsStayOk(s: State, n: State, t: nat, op: Op)
    requires OpsOk(s) && Quieter(s, n) && n.ops == s.ops[t := op] && t in s.ops && LeadsOn(s, t, op) && LeaseOk(s, op)
    ensures OpsOk(n)
  {
    forall u | u in n.ops
      ensures LeaseOk(n, n.ops[u]) && LeaderOk(n, u)
    {
      assert LeaderOk(s, t);
      assert u in s.ops ==> LeaderOk(s, u) && LeaseOk(s, s.ops[u]);
    }
  }

  /** An operation goes on without touching a lease. */
  lemma MoveKeepsInv(s: State, t: nat, op: Op)
    requires Inv(s) && Plain(s, t) && !op.Leased? && !op.Over? && LeadsOn(s, t, op)
    ensures Inv(Go(s, t, op))
  {
    var n := Go(s, t, op);
    RunningStays(s, t, op);
    OpsStayOk(s, n, t, op);
    MoveKeepsCounts(s, t, op);
  }

  lemma MoveKeepsCounts(s: State, t: nat, op: Op)
    requires CountsOk(s) && Plain(s, t) && !op.Leased?
    ensures CountsOk(Go(s, t, op))
  {
    forall key | key in s.pool
      ensures Counted(Go(s, t, op), key)
    {
      assert Counted(s, key);
      HoldersStay(s.ops, t, op, s.pool[key]);
    }
  }

  /** A claim turns an operation without a lease into a holder, and the count follows. */
  lemma ClaimKeepsInv(s: State, t: nat, key: string, again: bool, now: int)
    requires Inv(s) && Plain(s, t) && key in s.pool
    ensures s.pool[key] in s.entries
    ensures Inv(Go(Claim(s, key, now), t, Leased(key, s.pool[key], again)))
  {
    assert Counted(s, key);
    var op := Leased(key, s.pool[key], again);
    var n := Go(Claim(s, key, now), t, op);
    RunningStays(s, t, op);
    OpsStayOk(s, n, t, op);
    forall k | k in s.pool
      ensures Counted(n, k)
    {
      ClaimKeepsCount(s, t, key, again, now, k);
    }
  }

  lemma ClaimKeepsCount(s: State, t: nat, key: string, again: bool, now: int, k: string)
    requires Plain(s, t) && key in s.pool && k in s.pool && Counted(s, key) && Counted(s, k)
    ensures Counted(Go(Claim(s, key, now), t, Leased(key, s.pool[key], again)), k)
  {
    var op := Leased(key, s.pool[key], again);
    if k == key {
      HoldersGrow(s.ops, t, op);
    } else {
      HoldersStay(s.ops, t, op, s.pool[k]);
    }
  }

  /** Giving a lease back: the count follows, and the entry stays open. */
  lemma ReturnKeepsInv(s: State, t: nat, op: Op, now: int)
    requires Inv(s) && OpOf(s, t).Leased? && (op.Ending? || op.Broken?)
    ensures Inv(Go(Returned(s, OpOf(s, t).key, OpOf(s, t).id, now), t, op))
  {
    hide Counted, LeaderOk;
    RunningStays(s, t, op);
    OpsStayOk(s, Go(Returned(s, OpOf(s, t).key, OpOf(s, t).id, now), t, op), t, op);
    ReturnKeepsCounts(s, t, op, now);
  }

  lemma ReturnKeepsCounts(s: State, t: nat, op: Op, now: int)
    requires CountsOk(s) && OpsOk(s) && OpOf(s, t).Leased? && !op.Leased?
    ensures CountsOk(Go(Returned(s, OpOf(s, t).key, OpOf(s, t).id, now), t, op))
  {
    hide Counted;
    assert LeaseOk(s, s.ops[t]);
    forall k | k in s.pool
      ensures Counted(Go(Returned(s, OpOf(s, t).key, OpOf(s, t).id, now), t, op), k)
    {
      ReturnKeepsCount(s, t, op, now, k);
    }
  }

  lemma ReturnKeepsCount(s: State, t: nat, op: Op, now: int, k: string)
    requires k in s.pool && Counted(s, k) && OpOf(s, t).Leased? && !op.Leased? && LeaseOk(s, s.ops[t])
    ensures Counted(Go(Returned(s, OpOf(s, t).key, OpOf(s, t).id, now), t, op), k)
  {
    if s.pool[k] == s.ops[t].id {
      HoldersShrink(s.ops, t, op);
    } else {
      HoldersStay(s.ops, t, op, s.pool[k]);
    }
  }

  lemma IdleHasNoHolder(s: State, k: string)
    requires k in s.pool && Counted(s, k) && IsIdle(s, k)
    ensures Holders(s.ops, s.pool[k]) == {}
  {
  }

  lemma KeysApart(s: State, j: string, k: string)
    requires j in s.pool && k in s.pool && Counted(s, j) && Counted(s, k) && j != k
    ensures s.pool[j] != s.pool[k]
  {
  }

  /** Entries without a lease may be taken out of the pool and closed. */
  lemma RemovalKeepsInv(s: State, keys: set<string>)
    requires Inv(s) && forall k :: k in keys ==> k in s.pool && Holders(s.ops, s.pool[k]) == {}
    ensures Inv(AllRemoved(s, keys))
  {
    var n := AllRemoved(s, keys);
    forall u | u in n.ops
      ensures LeaseOk(n, n.ops[u]) && LeaderOk(n, u)
    {
      assert LeaderOk(s, u) && LeaseOk(s, s.ops[u]);
      forall k | k in keys
        ensures !(s.ops[u].Leased? && s.ops[u].id == s.pool[k])
      {
        assert u !in Holders(s.ops, s.pool[k]);
      }
    }
    forall k | k in n.pool
      ensures Counted(n, k)
    {
      assert Counted(s, k);
      forall j | j in keys
        ensures s.pool[j] != s.pool[k]
      {
        assert Counted(s, j);
        KeysApart(s, j, k);
      }
    }
    forall k | k in keys
      ensures s.pool[k] in s.entries
    {
      assert Counted(s, k);
    }
  }

  lemma EvictionKeepsInv(s: State, key: string)
    requires Inv(s)
    ensures Inv(Evicted(s, key)) && Evicted(s, key).ops == s.ops
    ensures forall k :: Usable(Evicted(s, key), k) ==> Usable(s, k)
  {
    if IsIdle(s, key) {
      assert Counted(s, key);
      IdleHasNoHolder(s, key);
      RemovalKeepsInv(s, {key});
      assert AllRemoved(s, {key}) == Removed(s, key);
    }
  }

  // ---- the steps one by one ---------------------------------------------------------------------------------

  lemma BeginKeepsCounts(s: State, t: nat, op: Op)
    requires CountsOk(s) && t !in s.ops && !op.Leased?
    ensures CountsOk(Go(s, t, op))
  {
    forall k | k in s.pool
      ensures Counted(Go(s, t, op), k)
    {
      assert Counted(s, k);
      HoldersAfter(s.ops, t, op, s.pool[k]);
      assert Holders(s.ops[t := op], s.pool[k]) == Holders(s.ops, s.pool[k]);
    }
  }

  lemma BeginKeepsOps(s: State, t: nat, op: Op)
    requires OpsOk(s) && t !in s.ops && (op.Ready? || op.Over?)
    ensures OpsOk(Go(s, t, op))
  {
    var n := Go(s, t, op);
    forall u | u in n.ops
      ensures LeaseOk(n, n.ops[u]) && LeaderOk(n, u)
    {
      assert u != t ==> LeaderOk(s, u) && LeaseOk(s, s.ops[u]);
    }
  }

  /** Counts and operations do not depend on the other fields. */
  lemma OtherFields(s: State, n: State)
    requires n.pool == s.pool && n.entries == s.entries && n.shut == s.shut && n.ops == s.ops
    ensures CountsOk(s) ==> CountsOk(n)
    ensures OpsOk(s) && n.flying == s.flying && n.flights == s.flights && n.connected <= s.connected ==> OpsOk(n)
  {
    if CountsOk(s) {
      assert forall k :: k in s.pool && Counted(s, k) ==> Counted(n, k);
    }
    if OpsOk(s) && n.flying == s.flying && n.flights == s.flights && n.connected <= s.connected {
      forall u | u in n.ops
        ensures LeaseOk(n, n.ops[u]) && LeaderOk(n, u)
      {
        assert LeaderOk(s, u) && LeaseOk(s, s.ops[u]);
      }
    }
  }

  lemma BeginKeepsInv(s: State, t: nat, key: string)
    requires Inv(s) && t !in s.ops && !s.closing && !s.closed
    ensures Inv(Go(s.(inFlight := s.inFlight + 1), t, Ready(key, false)))
  {
    var op := Ready(key, false);
    RunningAfter(s.ops, t, op);
    assert t !in Running(s.ops);
    assert Running(s.ops) - {t} == Running(s.ops);
    BeginKeepsCounts(s, t, op);
    BeginKeepsOps(s, t, op);
    OtherFields(Go(s, t, op), Go(s.(inFlight := s.inFlight + 1), t, op));
  }

  lemma RefusalKeepsInv(s: State, t: nat)
    requires Inv(s) && t !in s.ops
    ensures Inv(Go(s, t, Over))
  {
    RunningAfter(s.ops, t, Over);
    assert t !in Running(s.ops);
    assert Running(s.ops) - {t} == Running(s.ops);
    BeginKeepsCounts(s, t, Over);
    BeginKeepsOps(s, t, Over);
  }

  lemma EndKeepsInv(s: State, t: nat)
    requires Inv(s) && OpOf(s, t).Ending?
    ensures Inv(Go(OneLess(s), t, Over))
  {
    hide Counted, LeaderOk, LeaseOk;
    RunningAfter(s.ops, t, Over);
    assert t in Running(s.ops);
    OpsStayOk(s, Go(s, t, Over), t, Over);
    MoveKeepsCounts(s, t, Over);
    OtherFields(Go(s, t, Over), Go(OneLess(s), t, Over));
  }

  lemma TakeOffKeepsOps(s: State, t: nat)
    requires OpsOk(s) && OpOf(s, t).Seeking? && OpOf(s, t).key !in s.flying
    ensures OpsOk(ApplyFly(s, t, OpOf(s, t).key, OpOf(s, t).again))
  {
    var n := ApplyFly(s, t, OpOf(s, t).key, OpOf(s, t).again);
    forall u | u in n.ops
      ensures LeaseOk(n, n.ops[u]) && LeaderOk(n, u)
    {
      assert LeaderOk(s, u) && LeaseOk(s, s.ops[u]);
    }
  }

  /** A new flight: no leader has the key yet. */
  lemma TakeOffKeepsInv(s: State, t: nat)
    requires Inv(s) && OpOf(s, t).Seeking? && OpOf(s, t).key !in s.flying
    ensures Inv(ApplyFly(s, t, OpOf(s, t).key, OpOf(s, t).again))
  {
    hide Counted, LeaderOk, LeaseOk;
    var op := Leading(OpOf(s, t).key, s.flights, OpOf(s, t).again);
    RunningStays(s, t, op);
    MoveKeepsCounts(s, t, op);
    TakeOffKeepsOps(s, t);
    OtherFields(Go(s, t, op), ApplyFly(s, t, OpOf(s, t).key, OpOf(s, t).again));
  }

  lemma LandKeepsOps(s: State, t: nat, result: Option<nat>, op: Op)
    requires OpsOk(s) && IsLeader(OpOf(s, t)) && (op.Offered? || op.Ending?)
    ensures OpsOk(Go(LandFlight(s, OpOf(s, t).key, OpOf(s, t).flight, result), t, op))
  {
    hide Usable;
    var n := Go(LandFlight(s, OpOf(s, t).key, OpOf(s, t).flight, result), t, op);
    assert LeaderOk(s, t);
    forall u | u in n.ops
      ensures LeaseOk(n, n.ops[u]) && LeaderOk(n, u)
    {
      assert LeaderOk(s, u) && LeaseOk(s, s.ops[u]);
      UsableLook(s, n, n.ops[u]);
    }
  }

  lemma UsableLook(s: State, n: State, op: Op)
    requires n.pool == s.pool && n.entries == s.entries && n.connected == s.connected
    ensures IsLeader(op) ==> Usable(n, op.key) == Usable(s, op.key)
  {
  }

  lemma LandKeepsInv(s: State, t: nat, result: Option<nat>, op: Op)
    requires Inv(s) && IsLeader(OpOf(s, t)) && (op.Offered? || op.Ending?)
    ensures Inv(Go(LandFlight(s, OpOf(s, t).key, OpOf(s, t).flight, result), t, op))
  {
    hide Counted, LeaderOk, LeaseOk;
    RunningStays(s, t, op);
    MoveKeepsCounts(s, t, op);
    LandKeepsOps(s, t, result, op);
    OtherFields(Go(s, t, op), Go(LandFlight(s, OpOf(s, t).key, OpOf(s, t).flight, result), t, op));
  }

  lemma InsertKeepsCounts(s: State, t: nat, id: nat, now: int)
    requires CountsOk(s) && OpsOk(s) && OpOf(s, t).Making? && id !in s.entries && s.shut <= s.entries.Keys
    ensures CountsOk(ApplyInsert(s, t, id, now))
  {
    var op := Landing(OpOf(s, t).key, OpOf(s, t).flight, id, OpOf(s, t).again);
    var n := ApplyInsert(s, t, id, now);
    MoveKeepsCounts(s, t, op);
    FreshHasNoHolder(s, id);
    HoldersStay(s.ops, t, op, id);
    forall k | k in n.pool
      ensures Counted(n, k)
    {
      assert k != op.key ==> Counted(Go(s, t, op), k);
    }
  }

  lemma InsertKeepsOps(s: State, t: nat, id: nat, now: int)
    requires CountsOk(s) && OpsOk(s) && OpOf(s, t).Making? && id !in s.entries
    ensures OpsOk(ApplyInsert(s, t, id, now))
  {
    var n := ApplyInsert(s, t, id, now);
    assert LeaderOk(s, t);
    forall u | u in n.ops
      ensures LeaseOk(n, n.ops[u]) && LeaderOk(n, u)
    {
      assert LeaderOk(s, u) && LeaseOk(s, s.ops[u]);
      if IsLeader(s.ops[u]) && s.ops[u].key in s.pool {
        assert Counted(s, s.ops[u].key);
      }
    }
  }

  /** A new entry starts with one lease that nobody has taken. */
  lemma InsertKeepsInv(s: State, t: nat, id: nat, now: int)
    requires Inv(s) && OpOf(s, t).Making? && id !in s.entries
    ensures Inv(ApplyInsert(s, t, id, now))
  {
    hide Counted, LeaderOk, LeaseOk;
    assert t in Running(s.ops);
    RunningStays(s, t, Landing(OpOf(s, t).key, OpOf(s, t).flight, id, OpOf(s, t).again));
    InsertKeepsCounts(s, t, id, now);
    InsertKeepsOps(s, t, id, now);
  }

  lemma FreshHasNoHolder(s: State, id: nat)
    requires OpsOk(s) && id !in s.entries
    ensures Holders(s.ops, id) == {}
  {
    forall u | u in s.ops
      ensures u !in Holders(s.ops, id)
    {
      assert LeaseOk(s, s.ops[u]);
    }
  }

  lemma DrainKeepsInv(s: State)
    requires Inv(s) && s.closer.Draining?
    ensures Inv(AllRemoved(s, s.pool.Keys).(closer := Drained))
  {
    forall k | k in s.pool.Keys
      ensures Holders(s.ops, s.pool[k]) == {}
    {
      assert Holders(s.ops, s.pool[k]) <= Running(s.ops);
    }
    RemovalKeepsInv(s, s.pool.Keys);
    var n := AllRemoved(s, s.pool.Keys);
    OtherFields(n, n.(closer := Drained));
  }

  lemma StepKeepsInv(maxSize: nat, s: State, step: Step)
    requires Inv(s) && Enabled(maxSize, s, step)
    ensures Inv(Apply(maxSize, s, step))
  {
    hide Counted, LeaseOk, CountsOk, OpsOk, CloserOk, Holders, Running, IsVictim;
    match step
    case Begin(t, key) =>
      if s.closing || s.closed {
        RefusalKeepsInv(s, t);
      } else {
        BeginKeepsInv(s, t, key);
      }
    case InitFails(t) => MoveKeepsInv(s, t, Ending);
    case Look(t, now) => LookKeepsInv(s, t, now);
    case Fly(t) =>
      if OpOf(s, t).key in s.flying {
        MoveKeepsInv(s, t, Joined(OpOf(s, t).key, s.flying[OpOf(s, t).key], OpOf(s, t).again));
      } else {
        TakeOffKeepsInv(s, t);
      }
    case LeaderLooks(t) => LeaderLooksKeepsInv(maxSize, s, t);
    case EvictOldest(t, victim) => EvictOldestKeepsInv(maxSize, s, t, victim);
    case MakeFails(t) => LandKeepsInv(s, t, None, Ending);
    case Insert(t, id, now) => InsertKeepsInv(s, t, id, now);
    case Land(t) => LandKeepsInv(s, t, Some(OpOf(s, t).id), Offered(OpOf(s, t).key, OpOf(s, t).id, OpOf(s, t).again));
    case Receive(t) => MoveKeepsInv(s, t, Apply(maxSize, s, step).ops[t]);
    case ClaimOffered(t, now) => ClaimOfferedKeepsInv(s, t, now);
    case PageFails(t, now) => ReturnKeepsInv(s, t, Broken(OpOf(s, t).key, OpOf(s, t).again), now);
    case EvictBroken(t) =>
      EvictionKeepsInv(s, OpOf(s, t).key);
      MoveKeepsInv(Evicted(s, OpOf(s, t).key), t, if OpOf(s, t).again then Ending else Ready(OpOf(s, t).key, true));
    case Release(t, now) => ReturnKeepsInv(s, t, Ending, now);
    case End(t) => EndKeepsInv(s, t);
    case Cleanup(idle) => CleanupKeepsInv(s, idle);
    case Drain => DrainKeepsInv(s);
    case Disconnect(_) => CloserStepKeepsInv(maxSize, s, step);
    case CloseBegin => CloserStepKeepsInv(maxSize, s, step);
    case CloseTimeout => CloserStepKeepsInv(maxSize, s, step);
    case ClosePoll => CloserStepKeepsInv(maxSize, s, step);
    case CloseFinish => CloserStepKeepsInv(maxSize, s, step);
  }

  lemma LookKeepsInv(s: State, t: nat, now: int)
    requires Inv(s) && OpOf(s, t).Ready?
    ensures Inv(ApplyLook(s, t, OpOf(s, t).key, OpOf(s, t).again, now))
  {
    hide Counted, LeaseOk, LeaderOk, CloserOk, Running;
    var op := OpOf(s, t);
    if Usable(s, op.key) {
      ClaimKeepsInv(s, t, op.key, op.again, now);
    } else {
      MoveKeepsInv(s, t, Seeking(op.key, op.again));
    }
  }

  lemma ClaimOfferedKeepsInv(s: State, t: nat, now: int)
    requires Inv(s) && OpOf(s, t).Offered?
    ensures Inv(ApplyClaimOffered(s, t, now))
  {
    hide Counted, LeaseOk, LeaderOk, CloserOk, Running;
    var op := OpOf(s, t);
    if op.key in s.pool && s.pool[op.key] == op.id && op.id in s.entries {
      ClaimKeepsInv(s, t, op.key, op.again, now);
    } else {
      MoveKeepsInv(s, t, Ending);
    }
  }

  lemma LeaderLooksKeepsInv(maxSize: nat, s: State, t: nat)
    requires Inv(s) && OpOf(s, t).Leading?
    ensures Inv(Apply(maxSize, s, LeaderLooks(t)))
  {
    hide Counted, LeaseOk, LeaderOk, CloserOk, Running;
    MoveKeepsInv(s, t, Apply(maxSize, s, LeaderLooks(t)).ops[t]);
  }

  lemma EvictOldestKeepsInv(maxSize: nat, s: State, t: nat, victim: Option<string>)
    requires Inv(s) && OpOf(s, t).Evicting? && IsVictim(s, maxSize, victim)
    ensures Inv(Apply(maxSize, s, EvictOldest(t, victim)))
  {
    hide Counted, LeaseOk, CloserOk, Running, IsVictim;
    assert LeaderOk(s, t);
    var m := if victim.Some? then Evicted(s, victim.value) else s;
    if victim.Some? {
      EvictionKeepsInv(s, victim.value);
    }
    MoveKeepsInv(m, t, Making(OpOf(s, t).key, OpOf(s, t).flight, OpOf(s, t).again));
  }

  lemma CleanupKeepsInv(s: State, idle: set<string>)
    requires Inv(s) && forall k :: k in idle ==> IsIdle(s, k)
    ensures Inv(AllRemoved(s, idle))
  {
    forall k | k in idle
      ensures k in s.pool && Holders(s.ops, s.pool[k]) == {}
    {
      assert Counted(s, k);
      IdleHasNoHolder(s, k);
    }
    RemovalKeepsInv(s, idle);
  }

  lemma CloserStepKeepsInv(maxSize: nat, s: State, step: Step)
    requires Inv(s) && Enabled(maxSize, s, step)
    requires step.Disconnect? || step.CloseBegin? || step.CloseTimeout? || step.ClosePoll? || step.CloseFinish?
    ensures Inv(Apply(maxSize, s, step))
  {
    hide Counted, LeaseOk, LeaderOk;
    OtherFields(s, Apply(maxSize, s, step));
  }

  lemma {:induction false} ReachableInv(maxSize: nat, s: State, steps: seq<Step>, t: State)
    requires Inv(s) && Leads(maxSize, s, steps, t)
    ensures Inv(t)
    decreases |steps|
  {
    if steps != [] {
      StepKeepsInv(maxSize, s, steps[0]);
      ReachableInv(maxSize, Apply(maxSize, s, steps[0]), steps[1..], t);
    }
  }

  // ---- what holds in every reachable state ------------------------------------------------------------------

  /** A pooled entry's count is the number of operations that hold a lease on it, plus one while
      the lease it was created with has not been taken. */
  lemma LeasesAreCounted(maxSize: nat, steps: seq<Step>, t: State, key: string)
    requires Leads(maxSize, Start(), steps, t) && key in t.pool
    ensures t.pool[key] in t.entries
    ensures var e := t.entries[t.pool[key]];
            e.active == |Holders(t.ops, t.pool[key])| + if e.initial then 1 else 0
  {
    ReachableInv(maxSize, Start(), steps, t);
    assert Counted(t, key);
  }

  /** No entry has been closed, or is about to be, while an operation holds a lease on it. */
  lemma NeverClosedWhileLeased(maxSize: nat, steps: seq<Step>, t: State, u: nat)
    requires Leads(maxSize, Start(), steps, t) && OpOf(t, u).Leased?
    ensures OpOf(t, u).id !in t.shut
  {
    ReachableInv(maxSize, Start(), steps, t);
    assert LeaseOk(t, t.ops[u]);
  }

  /** Two operations never create a browser for one key at the same time, and a new entry never
      takes the place of one whose browser still works. */
  lemma InsertTakesNoLivePlace(maxSize: nat, steps: seq<Step>, t: State, u: nat, v: nat)
    requires Leads(maxSize, Start(), steps, t) && OpOf(t, u).Making? && OpOf(t, v).Making?
    ensures OpOf(t, u).key == OpOf(t, v).key ==> u == v
    ensures OpOf(t, u).key in t.pool ==> t.pool[OpOf(t, u).key] !in t.connected
  {
    ReachableInv(maxSize, Start(), steps, t);
    assert LeaderOk(t, u) && LeaderOk(t, v);
    if OpOf(t, u).key in t.pool {
      assert Counted(t, OpOf(t, u).key);
    }
  }

  lemma ClosedStep(maxSize: nat, s: State, step: Step)
    requires Inv(s) && s.closed && Enabled(maxSize, s, step)
    ensures Apply(maxSize, s, step).closed && Apply(maxSize, s, step).entries == s.entries
  {
    hide Counted, LeaseOk, LeaderOk;
    forall t | t in s.ops
      ensures s.ops[t].Over?
    {
      assert t !in Running(s.ops);
    }
  }

  /** Once closed, the manager stays closed: the pool stays empty, no operation runs, and no browser
      is ever created again. */
  lemma {:induction false} ClosedForGood(maxSize: nat, s: State, steps: seq<Step>, t: State)
    requires Inv(s) && s.closed && Leads(maxSize, s, steps, t)
    ensures t.closed && t.pool == map[] && Running(t.ops) == {} && t.entries == s.entries
    decreases |steps|
  {
    if steps != [] {
      ClosedStep(maxSize, s, steps[0]);
      StepKeepsInv(maxSize, s, steps[0]);
      ClosedForGood(maxSize, Apply(maxSize, s, steps[0]), steps[1..], t);
    }
  }

  predicate Displaced(s: State, id: nat) {
    id in s.entries && id !in s.shut && forall k :: k in s.pool ==> s.pool[k] != id
  }

  /** The steps that change neither the pool nor what is closed. */
  predicate LeavesPool(step: Step) {
    !step.EvictOldest? && !step.EvictBroken? && !step.Cleanup? && !step.Drain? && !step.Insert?
  }

  predicate IsLeaseStep(step: Step) {
    step.Look? || step.ClaimOffered? || step.PageFails? || step.Release?
  }

  lemma ClaimLeavesPool(s: State, key: string, now: int)
    requires key in s.pool && s.pool[key] in s.entries
    ensures Claim(s, key, now).pool == s.pool && Claim(s, key, now).shut == s.shut
    ensures Claim(s, key, now).entries.Keys == s.entries.Keys && Claim(s, key, now).connected == s.connected
  {
  }

  lemma ReturnLeavesPool(s: State, key: string, id: nat, now: int)
    ensures Returned(s, key, id, now).pool == s.pool && Returned(s, key, id, now).shut == s.shut
    ensures Returned(s, key, id, now).entries.Keys == s.entries.Keys
        && Returned(s, key, id, now).connected == s.connected
  {
  }

  lemma LeaseStepLeavesPool(maxSize: nat, s: State, step: Step)
    requires Enabled(maxSize, s, step) && IsLeaseStep(step)
    ensures var n := Apply(maxSize, s, step);
            n.pool == s.pool && n.shut == s.shut && n.entries.Keys == s.entries.Keys && n.connected <= s.connected
  {
    hide Removed, AllRemoved, IsIdle, IsVictim, Evicted, Claim, Returned;
    var op := OpOf(s, step.t);
    if step.Look? || step.ClaimOffered? {
      if op.key in s.pool && s.pool[op.key] in s.entries {
        ClaimLeavesPool(s, op.key, step.now);
      }
    } else {
      ReturnLeavesPool(s, op.key, op.id, step.now);
    }
  }

  lemma PoolIsLeft(maxSize: nat, s: State, step: Step)
    requires Enabled(maxSize, s, step) && LeavesPool(step)
    ensures var n := Apply(maxSize, s, step);
            n.pool == s.pool && n.shut == s.shut && n.entries.Keys == s.entries.Keys && n.connected <= s.connected
  {
    hide Removed, AllRemoved, IsIdle, IsVictim, Evicted;
    if IsLeaseStep(step) {
      LeaseStepLeavesPool(maxSize, s, step);
    } else {
      assert Apply(maxSize, s, step).entries == s.entries;
    }
  }

  lemma DisplacedStays(maxSize: nat, s: State, step: Step, id: nat)
    requires Displaced(s, id) && Enabled(maxSize, s, step)
    ensures Displaced(Apply(maxSize, s, step), id)
  {
    if LeavesPool(step) {
      PoolIsLeft(maxSize, s, step);
    } else {
      PoolStepKeepsDisplaced(maxSize, s, step, id);
    }
  }

  lemma PoolStepKeepsDisplaced(maxSize: nat, s: State, step: Step, id: nat)
    requires Displaced(s, id) && Enabled(maxSize, s, step) && !LeavesPool(step)
    ensures Displaced(Apply(maxSize, s, step), id)
  {
    hide Removed, AllRemoved, IsIdle, IsVictim, Evicted;
    match step
    case EvictOldest(_, victim) =>
      if victim.Some? {
        DisplacedAfterRemoval(s, {}, victim.value, id);
      }
    case EvictBroken(t) => DisplacedAfterRemoval(s, {}, OpOf(s, t).key, id);
    case Cleanup(idle) => DisplacedAfterRemoval(s, idle, "", id);
    case Drain => DisplacedAfterRemoval(s, s.pool.Keys, "", id);
    case Insert(_, _, _) =>
  }

  lemma DisplacedAfterRemoval(s: State, keys: set<string>, key: string, id: nat)
    requires Displaced(s, id)
    ensures Displaced(AllRemoved(s, keys), id) && Displaced(Evicted(s, key), id)
    ensures AllRemoved(s, keys).entries == s.entries && Evicted(s, key).entries == s.entries
  {
  }

  /** An entry that lost its place in the pool to a new one is never closed by the manager. */
  lemma {:induction false} DisplacedIsNeverClosed(maxSize: nat, s: State, steps: seq<Step>, t: State, id: nat)
    requires Displaced(s, id) && Leads(maxSize, s, steps, t)
    ensures Displaced(t, id)
    decreases |steps|
  {
    if steps != [] {
      DisplacedStays(maxSize, s, steps[0], id);
      DisplacedIsNeverClosed(maxSize, Apply(maxSize, s, steps[0]), steps[1..], t, id);
    }
  }

  /** An insert displaces the entry its key had. */
  lemma InsertDisplaces(maxSize: nat, s: State, t: nat, id: nat, now: int)
    requires Inv(s) && Enabled(maxSize, s, Insert(t, id, now)) && OpOf(s, t).key in s.pool
    ensures Displaced(Apply(maxSize, s, Insert(t, id, now)), s.pool[OpOf(s, t).key])
  {
    var key := OpOf(s, t).key;
    forall k | k in s.pool && k != key
      ensures s.pool[k] != s.pool[key]
    {
      assert Counted(s, k) && Counted(s, key);
      KeysApart(s, k, key);
    }
    assert Counted(s, key);
  }

  /** The entry that a step puts out of its place without taking it out of the pool. */
  function Displacing(s: State, step: Step): set<nat> {
    if step.Insert? && OpOf(s, step.t).Making? && OpOf(s, step.t).key in s.pool then {s.pool[OpOf(s, step.t).key]}
        else {}
  }

  /** The entries whose key was pooled when a step of the run inserted another one for it. */
  ghost function DisplacedBy(maxSize: nat, s: State, steps: seq<Step>, t: State): set<nat>
    requires Leads(maxSize, s, steps, t)
    decreases |steps|
  {
    if steps == [] then {}
    else Displacing(s, steps[0]) + DisplacedBy(maxSize, Apply(maxSize, s, steps[0]), steps[1..], t)
  }

  lemma RemovalDisplacesNone(s: State, keys: set<string>, key: string, id: nat)
    requires !Displaced(s, id)
    ensures !Displaced(AllRemoved(s, keys), id) && !Displaced(Evicted(s, key), id)
  {
    if id in s.entries && id !in s.shut {
      var k :| k in s.pool && s.pool[k] == id;
      if k in keys {
        assert id in AllRemoved(s, keys).shut;
      } else {
        assert k in AllRemoved(s, keys).pool && AllRemoved(s, keys).pool[k] == id;
      }
      if k != key || !IsIdle(s, key) {
        assert k in Evicted(s, key).pool && Evicted(s, key).pool[k] == id;
      }
    }
  }

  lemma OnlyInsertDisplaces(maxSize: nat, s: State, step: Step, id: nat)
    requires !Displaced(s, id) && Enabled(maxSize, s, step) && id !in Displacing(s, step)
    ensures !Displaced(Apply(maxSize, s, step), id)
  {
    hide Removed, AllRemoved, IsIdle, IsVictim, Evicted;
    if LeavesPool(step) {
      PoolIsLeft(maxSize, s, step);
    } else {
      match step
      case EvictOldest(_, victim) =>
        if victim.Some? {
          RemovalDisplacesNone(s, {}, victim.value, id);
        }
      case EvictBroken(t) => RemovalDisplacesNone(s, {}, OpOf(s, t).key, id);
      case Cleanup(idle) => RemovalDisplacesNone(s, idle, "", id);
      case Drain => RemovalDisplacesNone(s, s.pool.Keys, "", id);
      case Insert(t, made, now) => InsertDisplacesOnly(maxSize, s, t, made, now, id);
    }
  }

  lemma InsertDisplacesOnly(maxSize: nat, s: State, t: nat, made: nat, now: int, id: nat)
    requires !Displaced(s, id) && Enabled(maxSize, s, Insert(t, made, now))
        && id !in Displacing(s, Insert(t, made, now))
    ensures !Displaced(ApplyInsert(s, t, made, now), id)
  {
    var n := ApplyInsert(s, t, made, now);
    if id == made {
      assert n.pool[OpOf(s, t).key] == made;
    } else if id in s.entries && id !in s.shut {
      var k :| k in s.pool && s.pool[k] == id;
      assert n.pool[k] == id;
    }
  }

  /** Its browser had lost the connection when the step displaced it. */
  lemma DisplacedHasNoConnection(maxSize: nat, s: State, step: Step, id: nat)
    requires Inv(s) && Enabled(maxSize, s, step)
    requires (Displaced(s, id) && id !in s.connected) || id in Displacing(s, step)
    ensures Displaced(Apply(maxSize, s, step), id) && id !in Apply(maxSize, s, step).connected
  {
    hide IsIdle, IsVictim, LeaseOk;
    if id in Displacing(s, step) {
      InsertDisplaces(maxSize, s, step.t, step.id, step.now);
      assert LeaderOk(s, step.t) && Counted(s, OpOf(s, step.t).key);
    } else {
      DisplacedStays(maxSize, s, step, id);
      if LeavesPool(step) {
        PoolIsLeft(maxSize, s, step);
      }
    }
  }

  lemma {:induction false} DisplacedFrom(maxSize: nat, s: State, steps: seq<Step>, t: State, id: nat)
    requires Inv(s) && Leads(maxSize, s, steps, t) && (Displaced(s, id) ==> id !in s.connected)
    ensures Displaced(t, id) <==> Displaced(s, id) || id in DisplacedBy(maxSize, s, steps, t)
    ensures Displaced(t, id) ==> id !in t.connected
    decreases |steps|
  {
    hide Displaced, Inv, Displacing;
    if steps != [] {
      if Displaced(s, id) || id in Displacing(s, steps[0]) {
        DisplacedHasNoConnection(maxSize, s, steps[0], id);
      } else {
        OnlyInsertDisplaces(maxSize, s, steps[0], id);
      }
      StepKeepsInv(maxSize, s, steps[0]);
      DisplacedFrom(maxSize, Apply(maxSize, s, steps[0]), steps[1..], t, id);
    }
  }

  /** In every reachable state an entry is neither pooled nor closed exactly when some insert of the
      run hit its key while it was pooled; its browser had lost the connection by then. */
  lemma LeftOpenExactly(maxSize: nat, steps: seq<Step>, t: State, id: nat)
    requires Leads(maxSize, Start(), steps, t)
    ensures id in t.entries && id !in t.shut && (forall k :: k in t.pool ==> t.pool[k] != id)
            <==> id in DisplacedBy(maxSize, Start(), steps, t)
    ensures id in DisplacedBy(maxSize, Start(), steps, t) ==> id !in t.connected
  {
    DisplacedFrom(maxSize, Start(), steps, t, id);
  }

  // ---- a run that leaves a browser open ---------------------------------------------------------------------

  lemma Prepend(maxSize: nat, s: State, step: Step, steps: seq<Step>, t: State) returns (longer: seq<Step>)
    requires Enabled(maxSize, s, step) && Leads(maxSize, Apply(maxSize, s, step), steps, t)
    ensures Leads(maxSize, s, longer, t)
  {
    longer := [step] + steps;
    assert longer[1..] == steps;
  }

  lemma {:induction false} LeadsFurther(maxSize: nat, s: State, a: seq<Step>, m: State, b: seq<Step>, t: State)
    requires Leads(maxSize, s, a, m) && Leads(maxSize, m, b, t)
    ensures Leads(maxSize, s, a + b, t)
    decreases |a|
  {
    if a == [] {
      assert a + b == b;
    } else {
      assert (a + b)[1..] == a[1..] + b;
      LeadsFurther(maxSize, Apply(maxSize, s, a[0]), a[1..], m, b, t);
    }
  }

  /** Operation t has created entry `id` for its key. */
  function Made(s: State, t: nat, id: nat): State
    requires OpOf(s, t).Ready?
  {
    var op := OpOf(s, t);
    s.(entries := s.entries[id := Entry(op.key, 1, true, 0)], pool := s.pool[op.key := id],
        connected := s.connected + {id},
       flying := s.flying[op.key := s.flights], flights := s.flights + 1,
       ops := s.ops[t := Landing(op.key, s.flights, id, op.again)])
  }

  /** Operation t runs the flight of its key. */
  function InFlight(s: State, t: nat): State
    requires OpOf(s, t).Ready?
  {
    var op := OpOf(s, t);
    s.(flying := s.flying[op.key := s.flights], flights := s.flights + 1,
        ops := s.ops[t := Leading(op.key, s.flights, op.again)])
  }

  lemma TakesOff(maxSize: nat, s: State, t: nat) returns (steps: seq<Step>)
    requires OpOf(s, t).Ready? && OpOf(s, t).key !in s.flying && !Usable(s, OpOf(s, t).key)
    ensures Leads(maxSize, s, steps, InFlight(s, t))
  {
    hide Usable;
    var s1 := Apply(maxSize, s, Look(t, 0));
    var s2 := Apply(maxSize, s1, Fly(t));
    assert s2.ops == InFlight(s, t).ops;
    steps := Prepend(maxSize, s1, Fly(t), [], s2);
    steps := Prepend(maxSize, s, Look(t, 0), steps, s2);
  }

  /** A leader goes on to create an entry in a pool without an idle one. */
  lemma MakesRoom(maxSize: nat, s: State, t: nat) returns (steps: seq<Step>)
    requires OpOf(s, t).Leading? && !Usable(s, OpOf(s, t).key)
    requires forall k :: k in s.pool ==> !IsIdle(s, k)
    ensures Leads(maxSize, s, steps, Go(s, t, Making(OpOf(s, t).key, OpOf(s, t).flight, OpOf(s, t).again)))
  {
    hide Usable;
    var op := OpOf(s, t);
    var s1 := Go(s, t, Evicting(op.key, op.flight, op.again));
    assert Apply(maxSize, s, LeaderLooks(t)) == s1;
    forall k | k in s1.pool
      ensures !IsIdle(s1, k)
    {
      assert !IsIdle(s, k);
    }
    var s2 := Apply(maxSize, s1, EvictOldest(t, None));
    assert s2.ops == s.ops[t := Making(op.key, op.flight, op.again)];
    steps := Prepend(maxSize, s1, EvictOldest(t, None), [], s2);
    steps := Prepend(maxSize, s, LeaderLooks(t), steps, s2);
  }

  lemma MakesEntry(maxSize: nat, s: State, t: nat, id: nat) returns (steps: seq<Step>)
    requires OpOf(s, t).Ready? && OpOf(s, t).key !in s.flying && !Usable(s, OpOf(s, t).key) && id !in s.entries
    requires forall k :: k in s.pool ==> !IsIdle(s, k)
    ensures Leads(maxSize, s, steps, Made(s, t, id))
  {
    hide Usable, IsIdle, Leads;
    var s2 := InFlight(s, t);
    var a := TakesOff(maxSize, s, t);
    UsableLook(s, s2, OpOf(s2, t));
    IdleLook(s, s2);
    var b := MakesRoom(maxSize, s2, t);
    var s4 := Go(s2, t, Making(OpOf(s, t).key, s.flights, OpOf(s, t).again));
    LeadsFurther(maxSize, s, a, s2, b, s4);
    var c := Inserts(maxSize, s, t, id);
    LeadsFurther(maxSize, s, a + b, s4, c, Made(s, t, id));
    steps := a + b + c;
  }

  lemma IdleLook(s: State, n: State)
    requires n.pool == s.pool && n.entries == s.entries
    ensures forall k :: IsIdle(n, k) ==> IsIdle(s, k)
  {
  }

  lemma Inserts(maxSize: nat, s: State, t: nat, id: nat) returns (steps: seq<Step>)
    requires OpOf(s, t).Ready? && id !in s.entries
    ensures Leads(maxSize, Go(InFlight(s, t), t, Making(OpOf(s, t).key, s.flights, OpOf(s, t).again)), steps,
        Made(s, t, id))
  {
    var s4 := Go(InFlight(s, t), t, Making(OpOf(s, t).key, s.flights, OpOf(s, t).again));
    assert Apply(maxSize, s4, Insert(t, id, 0)).ops == Made(s, t, id).ops;
    steps := Prepend(maxSize, s4, Insert(t, id, 0), [], Made(s, t, id));
  }

  /** Operation 0 waits in front of the empty pool. */
  function OneWaiting(): State {
    Start().(inFlight := 1, ops := map[0 := Ready("a", false)])
  }

  /** Its browser has lost the connection under its lease, and operation 1 wants the same key. */
  function LostUnderLease(): State {
    State(false, false, 2, map["a" := 0], map[0 := Entry("a", 1, false, 0)], {}, {},
          map[0 := Leased("a", 0, false), 1 := Ready("a", false)], map[], map[0 := Some(0)], 1, Idle)
  }

  lemma LosesConnection(maxSize: nat) returns (steps: seq<Step>)
    ensures Leads(maxSize, Made(OneWaiting(), 0, 0), steps, LostUnderLease())
  {
    var s0 := Made(OneWaiting(), 0, 0);
    var s1 := Apply(maxSize, s0, Land(0));
    var s2 := Apply(maxSize, s1, ClaimOffered(0, 0));
    var s3 := Apply(maxSize, s2, Disconnect(0));
    var s4 := Apply(maxSize, s3, Begin(1, "a"));
    assert s4.entries == LostUnderLease().entries && s4.connected == {} && s4.flying == map[];
    assert s4.ops == LostUnderLease().ops && s4.landed == LostUnderLease().landed && s4.pool == LostUnderLease().pool;
    assert s4 == LostUnderLease();
    steps := Prepend(maxSize, s3, Begin(1, "a"), [], s4);
    steps := Prepend(maxSize, s2, Disconnect(0), steps, s4);
    steps := Prepend(maxSize, s1, ClaimOffered(0, 0), steps, s4);
    steps := Prepend(maxSize, s0, Land(0), steps, s4);
  }

  /** Whatever the size of the pool: a browser loses its connection under a lease, the next operation
      creates another one for the key, and the first stays open for good. */
  lemma LeavesBrowserOpen(maxSize: nat) returns (steps: seq<Step>, t: State)
    ensures Leads(maxSize, Start(), steps, t) && Displaced(t, 0)
    ensures forall more, u :: Leads(maxSize, t, more, u) ==> 0 !in u.shut
  {
    var s0 := OneWaiting();
    assert Apply(maxSize, Start(), Begin(0, "a")) == s0;
    var a := Prepend(maxSize, Start(), Begin(0, "a"), [], s0);
    var b := MakesEntry(maxSize, s0, 0, 0);
    LeadsFurther(maxSize, Start(), a, s0, b, Made(s0, 0, 0));
    var c := LosesConnection(maxSize);
    LeadsFurther(maxSize, Start(), a + b, Made(s0, 0, 0), c, LostUnderLease());
    var d := MakesEntry(maxSize, LostUnderLease(), 1, 1);
    t := Made(LostUnderLease(), 1, 1);
    LeadsFurther(maxSize, Start(), a + b + c, LostUnderLease(), d, t);
    steps := a + b + c + d;
    forall more, u | Leads(maxSize, t, more, u)
      ensures 0 !in u.shut
    {
      DisplacedIsNeverClosed(maxSize, t, more, u, 0);
    }
  }

  // ---- a broken page is tried once more ----------------------------------------------------------------------

  /** How often a page may still break under the operation. */
  function FailuresLeft(s: State, t: nat): nat {
    if t !in s.ops then 2
    else match s.ops[t]
      case Broken(_, again) => if again then 0 else 1
      case Ending => 0
      case Over => 0
      case op => if op.again then 1 else 2
  }

  function FailuresIn(steps: seq<Step>, t: nat): nat {
    if steps == [] then 0 else (if steps[0].PageFails? && steps[0].t == t then 1 else 0) + FailuresIn(steps[1..], t)
  }

  /** The step is one of this operation. */
  predicate IsStepOf(step: Step, t: nat) {
    match step
    case Cleanup(_) => false
    case Disconnect(_) => false
    case CloseBegin => false
    case CloseTimeout => false
    case ClosePoll => false
    case Drain => false
    case CloseFinish => false
    case _ => step.t == t
  }

  lemma SectionsLeaveOps(s: State, key: string, id: nat, now: int, keys: set<string>)
    ensures Returned(s, key, id, now).ops == s.ops && Evicted(s, key).ops == s.ops
    ensures OneLess(s).ops == s.ops && AllRemoved(s, keys).ops == s.ops
  {
  }

  /** Operation t is in n where it is in s. */
  predicate SameOp(s: State, n: State, t: nat) {
    (t in n.ops <==> t in s.ops) && (t in s.ops ==> n.ops[t] == s.ops[t])
  }

  lemma LookLeavesOp(s: State, u: nat, key: string, again: bool, now: int, t: nat)
    requires t != u
    ensures SameOp(s, ApplyLook(s, u, key, again, now), t)
  {
    hide Claimed;
  }

  lemma FlyLeavesOp(s: State, u: nat, key: string, again: bool, t: nat)
    requires t != u
    ensures SameOp(s, ApplyFly(s, u, key, again), t)
  {
  }

  lemma OfferLeavesOp(s: State, u: nat, now: int, t: nat)
    requires t != u && OpOf(s, u).Offered?
    ensures SameOp(s, ApplyClaimOffered(s, u, now), t)
  {
    hide Claimed;
  }

  /** The steps that touch a lease or the place of an entry. */
  predicate TouchesPool(step: Step) {
    step.Look? || step.ClaimOffered? || step.PageFails? || step.Release? || step.EvictBroken? || step.EvictOldest?
        || step.End? || step.Cleanup? || step.Drain?
  }

  lemma PoolStepLeavesOp(maxSize: nat, s: State, step: Step, t: nat)
    requires Enabled(maxSize, s, step) && !IsStepOf(step, t) && TouchesPool(step)
    ensures t in Apply(maxSize, s, step).ops <==> t in s.ops
    ensures t in s.ops ==> Apply(maxSize, s, step).ops[t] == s.ops[t]
  {
    hide IsVictim, Usable, Returned, Evicted, OneLess, AllRemoved, ApplyLook, ApplyFly, ApplyClaimOffered;
    match step
    case Look(u, now) => LookLeavesOp(s, u, OpOf(s, u).key, OpOf(s, u).again, now, t);
    case ClaimOffered(u, now) => OfferLeavesOp(s, u, now, t);
    case PageFails(u, now) => SectionsLeaveOps(s, OpOf(s, u).key, OpOf(s, u).id, now, {});
    case Release(u, now) => SectionsLeaveOps(s, OpOf(s, u).key, OpOf(s, u).id, now, {});
    case EvictBroken(u) => SectionsLeaveOps(s, OpOf(s, u).key, 0, 0, {});
    case EvictOldest(_, victim) => SectionsLeaveOps(s, if victim.Some? then victim.value else "", 0, 0, {});
    case End(_) => SectionsLeaveOps(s, "", 0, 0, {});
    case Cleanup(idle) => SectionsLeaveOps(s, "", 0, 0, idle);
    case Drain => SectionsLeaveOps(s, "", 0, 0, s.pool.Keys);
  }

  lemma FlightStepLeavesOp(maxSize: nat, s: State, step: Step, t: nat)
    requires Enabled(maxSize, s, step) && !IsStepOf(step, t) && !TouchesPool(step)
    ensures t in Apply(maxSize, s, step).ops <==> t in s.ops
    ensures t in s.ops ==> Apply(maxSize, s, step).ops[t] == s.ops[t]
  {
    hide IsVictim, Usable, Returned, Evicted, OneLess, AllRemoved, ApplyLook, ApplyFly, ApplyClaimOffered;
    if step.Fly? {
      FlyLeavesOp(s, step.t, OpOf(s, step.t).key, OpOf(s, step.t).again, t);
    }
  }

  /** A step of another operation leaves this one where it is. */
  lemma OtherStepLeavesOp(maxSize: nat, s: State, step: Step, t: nat)
    requires Enabled(maxSize, s, step) && !IsStepOf(step, t)
    ensures t in Apply(maxSize, s, step).ops <==> t in s.ops
    ensures t in s.ops ==> Apply(maxSize, s, step).ops[t] == s.ops[t]
  {
    hide Apply, Enabled;
    if TouchesPool(step) {
      PoolStepLeavesOp(maxSize, s, step, t);
    } else {
      FlightStepLeavesOp(maxSize, s, step, t);
    }
  }

  lemma OwnStepUsesFailures(maxSize: nat, s: State, step: Step, t: nat)
    requires Enabled(maxSize, s, step) && IsStepOf(step, t)
    ensures FailuresLeft(Apply(maxSize, s, step), t) + (if step.PageFails? then 1 else 0) <= FailuresLeft(s, t)
  {
    hide IsVictim, Usable, Returned, Evicted, OneLess, Claim, LandFlight;
  }

  lemma StepUsesFailures(maxSize: nat, s: State, step: Step, t: nat)
    requires Enabled(maxSize, s, step)
    ensures FailuresLeft(Apply(maxSize, s, step), t) + FailuresIn([step], t) <= FailuresLeft(s, t)
  {
    hide Enabled, Apply;
    assert [step][1..] == [];
    if IsStepOf(step, t) {
      OwnStepUsesFailures(maxSize, s, step, t);
    } else {
      OtherStepLeavesOp(maxSize, s, step, t);
    }
  }

  lemma {:induction false} RunUsesFailures(maxSize: nat, s: State, steps: seq<Step>, t: State, op: nat)
    requires Leads(maxSize, s, steps, t)
    ensures FailuresLeft(t, op) + FailuresIn(steps, op) <= FailuresLeft(s, op)
    decreases |steps|
  {
    hide Apply, Enabled, FailuresLeft;
    if steps != [] {
      StepUsesFailures(maxSize, s, steps[0], op);
      RunUsesFailures(maxSize, Apply(maxSize, s, steps[0]), steps[1..], t, op);
      assert [steps[0]][1..] == [];
    }
  }

  /** In every run a page breaks at most twice under one operation, and when it has, the operation is over. */
  lemma AtMostTwoAttempts(maxSize: nat, steps: seq<Step>, t: State, op: nat)
    requires Leads(maxSize, Start(), steps, t)
    ensures FailuresIn(steps, op) <= 2
    ensures FailuresIn(steps, op) == 2 ==> op in t.ops && (t.ops[op].Broken? || t.ops[op].Ending? || t.ops[op].Over?)
  {
    RunUsesFailures(maxSize, Start(), steps, t, op);
  }

  predicate IsCloserStep(step: Step) {
    step.CloseBegin? || step.CloseTimeout? || step.ClosePoll? || step.Drain? || step.CloseFinish?
  }

  /** While the manager is closing, operations only end; once none is left, the pool only shrinks. */
  lemma ClosingWindsDown(maxSize: nat, s: State, step: Step)
    requires Inv(s) && s.closing && Enabled(maxSize, s, step) && !IsCloserStep(step)
    ensures var n := Apply(maxSize, s, step);
            && n.closing && n.closed == s.closed && n.inFlight <= s.inFlight
            && (s.inFlight == 0 ==> n.pool.Keys <= s.pool.Keys && n.entries == s.entries)
  {
    hide Counted, LeaseOk, LeaderOk, IsVictim;
    if s.inFlight == 0 {
      assert Running(s.ops) == {};
      forall t | t in s.ops
        ensures s.ops[t].Over?
      {
        assert t !in Running(s.ops);
      }
    }
  }

  /** Any steps of others but a close stay within the contract of `Manager.Others`. */
  lemma {:induction false} OthersStayWithinContract(maxSize: nat, s: State, steps: seq<Step>, t: State)
    requires Inv(s) && Leads(maxSize, s, steps, t) && forall i :: 0 <= i < |steps| ==> !IsCloserStep(steps[i])
    ensures forall key :: key in t.pool ==> t.pool[key] in t.entries
    ensures s.closing ==> t.closing && t.closed == s.closed && t.inFlight <= s.inFlight
    ensures s.closing && s.inFlight == 0 ==> t.pool.Keys <= s.pool.Keys && t.entries == s.entries
    decreases |steps|
  {
    hide CloserOk, OpsOk;
    if steps == [] {
      assert forall key :: key in t.pool ==> Counted(t, key);
    } else {
      if s.closing {
        ClosingWindsDown(maxSize, s, steps[0]);
      }
      StepKeepsInv(maxSize, s, steps[0]);
      OthersStayWithinContract(maxSize, Apply(maxSize, s, steps[0]), steps[1..], t);
    }
  }

  // ---- the manager ------------------------------------------------------------------------------------------

  /** The manager's own fields, with one method for each section under a lock. */
  class Manager {
    const maxSize: nat
    const idleTtl: int
    var closing: bool
    var closed: bool
    var inFlight: nat
    var pool: map<string, nat>
    var entries: map<nat, Entry>
    var connected: set<nat>
    ghost var shut: set<nat>

    constructor (maxSize: nat, idleTtl: int)
      ensures View() == Start()
    {
      this.maxSize := maxSize;
      this.idleTtl := idleTtl;
      closing, closed, inFlight, pool, entries, connected, shut := false, false, 0, map[], map[], {}, {};
    }

    /** The fields as part of a state. */
    ghost function View(): State
      reads this
    {
      Start().(closing := closing, closed := closed, inFlight := inFlight, pool := pool, entries := entries,
               connected := connected, shut := shut)
    }

    ghost predicate Sound()
      reads this
    {
      forall key :: key in pool ==> pool[key] in entries
    }

    method BeginOperation() returns (ok: bool)
      modifies this
      ensures ok <==> !old(closing) && !old(closed)
      ensures View() == old(View()).(inFlight := if ok then old(inFlight) + 1 else old(inFlight))
    {
      ok := !closing && !closed;
      if ok {
        inFlight := inFlight + 1;
      }
    }

    method EndOperation()
      modifies this
      ensures View() == OneLess(old(View()))
    {
      if inFlight > 0 {
        inFlight := inFlight - 1;
      }
    }

    method ClaimEntryLocked(id: nat, now: int)
      requires id in entries
      modifies this
      ensures View() == old(View()).(entries := old(entries)[id := Claimed(old(entries)[id], now)])
    {
      var e := entries[id].(lastUsed := now);
      if e.initial {
        e := e.(initial := false);
      } else {
        e := e.(active := e.active + 1);
      }
      entries := entries[id := e];
    }

    /** The first section of acquireEntry. */
    method ClaimPooled(key: string, now: int) returns (id: Option<nat>)
      requires Sound()
      modifies this
      ensures id.Some? <==> key in old(pool) && old(pool)[key] in old(connected)
      ensures View() == if id.Some? then Claim(old(View()), key, now) else old(View())
      ensures id.Some? ==> id.value == old(pool)[key] && entries[id.value] == Entry(old(entries)[id.value].key,
          old(entries)[id.value].active + if old(entries)[id.value].initial then 0 else 1, false, now)
    {
      id := None;
      if key in pool && pool[key] in connected {
        id := Some(pool[key]);
        ClaimEntryLocked(pool[key], now);
      }
    }

    /** The last section of acquireEntry: an entry that is no longer current is refused. */
    method ClaimCreated(key: string, id: nat, now: int) returns (ok: bool)
      requires Sound()
      modifies this
      ensures ok <==> key in old(pool) && old(pool)[key] == id
      ensures View() == if ok then Claim(old(View()), key, now) else old(View())
      ensures ok ==> id in entries && entries[id] == Entry(old(entries)[id].key,
          old(entries)[id].active + if old(entries)[id].initial then 0 else 1, false, now)
    {
      ok := key in pool && pool[key] == id;
      if ok {
        ClaimEntryLocked(id, now);
      }
    }

    method ReleaseEntry(key: string, id: nat, now: int)
      requires Sound()
      modifies this
      ensures View() == Returned(old(View()), key, id, now)
      // one lease less for a current entry, and anything else is left alone
      ensures pool == old(pool)
      ensures forall k :: k in old(entries) && k != id ==> k in entries && entries[k] == old(entries)[k]
      ensures if key in old(pool) && old(pool)[key] == id
              then entries[id].lastUsed == now && entries[id].active == if old(entries)[id].active > 0
                   then old(entries)[id].active - 1 else 0
              else entries == old(entries)
    {
      if !(key in pool && pool[key] == id) {
        return;
      }
      var e := entries[id];
      if e.active > 0 {
        e := e.(active := e.active - 1);
      }
      entries := entries[id := e.(lastUsed := now)];
    }

    /** The section of createEntry. */
    method InsertEntry(key: string, id: nat, now: int)
      requires id !in entries
      modifies this
      ensures View() == old(View()).(entries := old(entries)[id := Entry(key, 1, true, now)],
                                     pool := old(pool)[key := id], connected := old(connected) + {id})
    {
      entries := entries[id := Entry(key, 1, true, now)];
      pool := pool[key := id];
      connected := connected + {id};
    }

    /** evict; the entry returned is closed after the lock is given up. */
    method Evict(key: string) returns (toClose: Option<nat>)
      requires Sound()
      modifies this
      ensures View() == Evicted(old(View()), key)
      ensures toClose == if key in old(pool) && old(entries)[old(pool)[key]].active == 0 then Some(old(pool)[key])
                         else None
      ensures if toClose.Some? then pool == old(pool) - {key} && shut == old(shut) + {toClose.value}
              else pool == old(pool) && shut == old(shut)
    {
      toClose := None;
      if key in pool && entries[pool[key]].active > 0 {
        return;
      }
      if key in pool {
        toClose := Some(pool[key]);
        shut := shut + {pool[key]};
      }
      pool := pool - {key};
    }

    /** evictIfNeeded: one pass over the pool for the least recently used idle entry. */
    method EvictIfNeeded() returns (victim: Option<string>)
      requires Sound()
      modifies this
      ensures IsVictim(old(View()), maxSize, victim)
      // a full pool with an idle entry loses the idle one that was used longest ago
      ensures victim.Some? <==>
                |old(pool)| >= maxSize && exists k :: k in old(pool) && old(entries)[old(pool)[k]].active == 0
      ensures victim.Some? ==>
                && victim.value in old(pool) && old(entries)[old(pool)[victim.value]].active == 0
                && pool == old(pool) - {victim.value}
                && forall k :: k in old(pool) && old(entries)[old(pool)[k]].active == 0 ==>
                     old(entries)[old(pool)[victim.value]].lastUsed <= old(entries)[old(pool)[k]].lastUsed
      ensures View() == if victim.Some? then Evicted(old(View()), victim.value) else old(View())
    {
      victim := None;
      if |pool| < maxSize {
        return;
      }
      ghost var v := View();
      var rest := pool.Keys;
      while rest != {}
        invariant rest <= pool.Keys && View() == v && pool == old(pool) && entries == old(entries)
        invariant victim.Some? ==> IsIdle(v, victim.value)
        invariant forall k :: k in v.pool && k !in rest && IsIdle(v, k) ==>
                    victim.Some? && entries[pool[victim.value]].lastUsed <= entries[pool[k]].lastUsed
        decreases rest
      {
        var k :| k in rest;
        rest := rest - {k};
        if entries[pool[k]].active == 0 {
          if victim.None? || entries[pool[k]].lastUsed < entries[pool[victim.value]].lastUsed {
            victim := Some(k);
          }
        }
      }
      if victim.Some? {
        shut := shut + {pool[victim.value]};
        pool := pool - {victim.value};
      }
    }

    /** CleanupIdle. */
    method CleanupIdle(now: int) returns (ghost idle: set<string>)
      requires Sound()
      modifies this
      ensures idle == set k | k in old(pool) && old(entries)[old(pool)[k]].active == 0
          && now - old(entries)[old(pool)[k]].lastUsed > idleTtl
      ensures View() == AllRemoved(old(View()), idle)
      ensures pool == old(pool) - idle && forall k :: k in idle ==> old(pool)[k] in shut
    {
      ghost var v := View();
      idle := {};
      var rest := pool.Keys;
      var before := pool;
      while rest != {}
        invariant rest <= before.Keys && entries == old(entries) && idle <= before.Keys - rest
        invariant View() == AllRemoved(v, idle)
        invariant forall k :: k in before && k !in rest ==>
            (k in idle <==> IsIdle(v, k) && now - entries[before[k]].lastUsed > idleTtl)
        decreases rest
      {
        var k :| k in rest;
        rest := rest - {k};
        var e := entries[before[k]];
        if e.active == 0 && now - e.lastUsed > idleTtl {
          RemoveOneMore(v, idle, k);
          shut := shut + {before[k]};
          pool := pool - {k};
          idle := idle + {k};
        }
      }
    }

    /** The section of CloseContext that empties the pool. */
    method Drain() returns (toClose: set<nat>)
      requires Sound()
      modifies this
      ensures View() == AllRemoved(old(View()), old(pool).Keys) && pool == map[]
      ensures toClose == (set k | k in old(pool) :: old(pool)[k]) && shut == old(shut) + toClose
    {
      toClose := set k | k in pool :: pool[k];
      shut := shut + toClose;
      pool := map[];
    }

    /** What others may do between two sections: callers rely on this contract alone, and
        OthersStayWithinContract shows that every run of others meets it. */
    method Others()
      requires Sound()
      modifies this
      ensures Sound()
      ensures old(closing) ==> closing && closed == old(closed) && inFlight <= old(inFlight)
      ensures old(closing) && old(inFlight) == 0 ==> pool.Keys <= old(pool).Keys && entries == old(entries)
    {
    }

    /** CloseContext, which waits for `patience` rounds: it returns without error only when no operation
        is left and the pool is empty, and after a timeout the manager goes on refusing operations. */
    method CloseContext(patience: nat) returns (timedOut: bool, ghost drained: set<nat>)
      requires Sound()
      modifies this
      ensures Sound()
      ensures old(closed) ==> !timedOut && View() == old(View())
      ensures !old(closed) && !timedOut ==> closing && closed && inFlight == 0 && pool == map[] && drained <= shut
      ensures timedOut ==> closing && !closed && inFlight > 0
    {
      timedOut, drained := false, {};
      if closed {
        return;
      }
      closing := true;
      var round := 0;
      Others();
      while inFlight != 0
        invariant Sound() && closing && !closed
        decreases patience - round
      {
        if round >= patience {
          timedOut := true;
          return;
        }
        round := round + 1;
        Others();
      }
      Others();
      var toClose := Drain();
      drained := toClose;
      closed := true;
    }
  }

  lemma RemoveOneMore(s: State, keys: set<string>, k: string)
    requires k in s.pool
    ensures AllRemoved(s, keys + {k}) == AllRemoved(s, keys).(pool := AllRemoved(s, keys).pool - {k},
        shut := AllRemoved(s, keys).shut + {s.pool[k]})
  {
    assert (set j | j in keys + {k} && j in s.pool :: s.pool[j])
        == (set j | j in keys && j in s.pool :: s.pool[j]) + {s.pool[k]};
    assert s.pool - (keys + {k}) == s.pool - keys - {k};
  }
}
