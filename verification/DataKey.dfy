/**
  The data key file on first start: any number of processes read, create, write or wait for it.
  Each step is one file operation.
 */
module DataKey {
  import opened GoText
  import opened Wrappers

  /** Where a process stands in loadOrCreateDataKey. */
  datatype Process =
    | Reading
    | Creating(key: string)     // found no file and has made a key
    | Writing(key: string)      // owns the file it has created
    | Syncing(key: string)
    | Closing(key: string)
    | Removing                  // a write, sync or close has failed
    | Polling(attempt: nat)
    | Returned(key: string)
    | Failed

  /** The text of the file, if there is one. */
  datatype State = State(file: Option<string>, processes: map<nat, Process>)

  const ATTEMPTS := 20

  datatype Step =
    | Begin(p: nat)
    | Read(p: nat, made: string)
    | ReadFails(p: nat)
    | Create(p: nat)
    | CreateFails(p: nat)
    | Write(p: nat, ok: bool)
    | Sync(p: nat, ok: bool)
    | Close(p: nat, ok: bool)
    | Remove(p: nat)
    | Poll(p: nat)

  function At(s: State, p: nat): Process {
    if p in s.processes then s.processes[p] else Failed
  }

  predicate Blank(text: string) {
    TrimSpace(text) == ""
  }

  /** 64 characters of base64, without white space. */
  predicate IsKey(key: string) {
    key != "" && Trimmed(key)
  }

  predicate Enabled(s: State, step: Step) {
    match step
    case Begin(p) => p !in s.processes
    case Read(p, made) => At(s, p).Reading? && IsKey(made)
    case ReadFails(p) => At(s, p).Reading? || At(s, p).Polling?
    case Create(p) => At(s, p).Creating?
    case CreateFails(p) => At(s, p).Creating?
    case Write(p, _) => At(s, p).Writing?
    case Sync(p, _) => At(s, p).Syncing?
    case Close(p, _) => At(s, p).Closing?
    case Remove(p) => At(s, p).Removing?
    case Poll(p) => At(s, p).Polling?
  }

  function Go(s: State, p: nat, to: Process): State {
    s.(processes := s.processes[p := to])
  }

  /** readDataKey before anything was created: an empty file belongs to somebody who is writing. */
  function AfterRead(file: Option<string>, made: string): Process {
    match file
    case None => Creating(made)
    case Some(text) => if Blank(text) then Polling(0) else Returned(TrimSpace(text))
  }

  /** One round of waitForDataKey. */
  function AfterPoll(file: Option<string>, attempt: nat): Process {
    if file.Some? && !Blank(file.value) then Returned(TrimSpace(file.value))
    else if attempt + 1 < ATTEMPTS then Polling(attempt + 1)
    else Failed
  }

  function Apply(s: State, step: Step): State
    requires Enabled(s, step)
  {
    match step
    case Begin(p) => Go(s, p, Reading)
    case Read(p, made) => Go(s, p, AfterRead(s.file, made))
    case ReadFails(p) => Go(s, p, Failed)
    case Create(p) =>
      if s.file.Some? then Go(s, p, Polling(0)) else Go(s.(file := Some("")), p, Writing(At(s, p).key))
    case CreateFails(p) => Go(s, p, Failed)
    case Write(p, ok) =>
      if ok then Go(s.(file := Some(At(s, p).key + "\n")), p, Syncing(At(s, p).key)) else Go(s, p, Removing)
    case Sync(p, ok) => Go(s, p, if ok then Closing(At(s, p).key) else Removing)
    case Close(p, ok) => Go(s, p, if ok then Returned(At(s, p).key) else Removing)
    case Remove(p) => Go(s.(file := None), p, Failed)
    case Poll(p) => Go(s, p, AfterPoll(s.file, At(s, p).attempt))
  }

  ghost predicate Leads(s: State, steps: seq<Step>, t: State)
    decreases |steps|
  {
    if steps == [] then s == t
    else Enabled(s, steps[0]) && Leads(Apply(s, steps[0]), steps[1..], t)
  }

  /** A process that has created the file and not finished with it. */
  predicate Owns(p: Process) {
    p.Writing? || p.Syncing? || p.Closing? || p.Removing?
  }

  /** The file holds exactly this key. */
  predicate Holds(file: Option<string>, key: string) {
    file.Some? && key != "" && TrimSpace(file.value) == key
  }

  predicate ProcessOk(s: State, p: Process) {
    match p
    case Creating(key) => IsKey(key)
    case Writing(key) => IsKey(key) && s.file == Some("")
    case Syncing(key) => Holds(s.file, key)
    case Closing(key) => Holds(s.file, key)
    case Removing => s.file == Some("")
    case Returned(key) => Holds(s.file, key)
    case _ => true
  }

  predicate Inv(s: State) {
    && (forall p :: p in s.processes ==> ProcessOk(s, s.processes[p]))
    && (forall p, q :: p in s.processes && q in s.processes && Owns(s.processes[p]) && Owns(s.processes[q]) ==> p == q)
  }

  predicate SyncFault(step: Step) {
    (step.Sync? || step.Close?) && !step.ok
  }

  /** A waiting process that reads the file in the given states, one after the other. */
  ghost function AfterPolls(p: Process, files: seq<Option<string>>): Process
    decreases |files|
  {
    if files == [] || !p.Polling? then p else AfterPolls(AfterPoll(files[0], p.attempt), files[1..])
  }

  /** The file can be read and is not blank. */
  predicate HasText(file: Option<string>) {
    file.Some? && !Blank(file.value)
  }

  /** A process waits through readings without a key, takes the first key it sees without its white space,
      and gives up exactly with its twentieth reading in vain. */
  lemma {:induction false} WaitsTwentyReadings(files: seq<Option<string>>, attempt: nat, vain: nat)
    requires attempt < 20 && vain <= |files|
    requires forall i :: 0 <= i < vain ==> !HasText(files[i])
    requires vain < |files| ==> HasText(files[vain])
    ensures AfterPolls(Polling(attempt), files)
         == if attempt + vain >= 20 then Failed
            else if vain < |files| then Returned(TrimSpace(files[vain].value))
            else Polling(attempt + vain)
    decreases vain
  {
    if vain > 0 && attempt < 19 {
      WaitsTwentyReadings(files[1..], attempt + 1, vain - 1);
    }
  }

  lemma KeyOfLine(key: string)
    requires IsKey(key)
    ensures TrimSpace(key + "\n") == key
  {
    var s := key + "\n";
    assert Lead(s, 0) == 0;
    assert s[|key|] == '\n' && IsSpace('\n');
    assert s[|key| - 1] == key[|key| - 1];
    assert Tail(s, 0, |s|) == Tail(s, 0, |key|) == |key|;
    assert s[0..|key|] == key;
  }

  lemma EmptyIsBlank()
    ensures TrimSpace("") == ""
  {
    TrimmedStays("");
  }

  /** The file is changed only by its owner, and only while it holds no key. */
  lemma StepKeepsInv(s: State, step: Step)
    requires Inv(s) && Enabled(s, step) && !SyncFault(step)
    ensures Inv(Apply(s, step))
    ensures forall key :: Holds(s.file, key) ==> Apply(s, step).file == s.file
  {
    hide TrimSpace;
    var n := Apply(s, step);
    EmptyIsBlank();
    if step.Write? {
      KeyOfLine(At(s, step.p).key);
    }
    forall p | p in n.processes
      ensures ProcessOk(n, n.processes[p])
    {
      assert p in s.processes ==> ProcessOk(s, s.processes[p]);
      assert step.p in s.processes ==> ProcessOk(s, s.processes[step.p]);
    }
  }

  predicate NoSyncFault(steps: seq<Step>) {
    forall i :: 0 <= i < |steps| ==> !SyncFault(steps[i])
  }

  lemma {:induction false} ReachableInv(s: State, steps: seq<Step>, t: State)
    requires Inv(s) && Leads(s, steps, t) && NoSyncFault(steps)
    ensures Inv(t)
    decreases |steps|
  {
    if steps != [] {
      StepKeepsInv(s, steps[0]);
      ReachableInv(Apply(s, steps[0]), steps[1..], t);
    }
  }

  /** However many processes race through the first start, and whatever file they find, all keys they
      return are equal, and equal to the content of the file, when no sync or close fails. */
  lemma AllKeysAgree(file: Option<string>, steps: seq<Step>, t: State, p: nat, q: nat)
    requires Leads(State(file, map[]), steps, t) && NoSyncFault(steps)
    requires At(t, p).Returned? && At(t, q).Returned?
    ensures At(t, p).key == At(t, q).key
    ensures t.file.Some? && TrimSpace(t.file.value) == At(t, p).key
  {
    ReachableInv(State(file, map[]), steps, t);
    assert ProcessOk(t, t.processes[p]) && ProcessOk(t, t.processes[q]);
  }

  /** The file holds every key in use. */
  predicate Agreement(s: State) {
    forall p :: p in s.processes && s.processes[p].Returned? ==> Holds(s.file, s.processes[p].key)
  }

  // ---- failed syncs and closes ----------------------------------------------------------------------------------

  predicate SomebodyReturned(s: State) {
    exists p :: p in s.processes && s.processes[p].Returned?
  }

  /** A file is removed although its key is already in use. */
  predicate RemovesLate(s: State, step: Step) {
    step.Remove? && SomebodyReturned(s)
  }

  ghost predicate NoLateRemoval(s: State, steps: seq<Step>, t: State)
    requires Leads(s, steps, t)
    decreases |steps|
  {
    steps != [] ==> !RemovesLate(s, steps[0]) && NoLateRemoval(Apply(s, steps[0]), steps[1..], t)
  }

  ghost predicate AgreementThroughout(s: State, steps: seq<Step>, t: State)
    requires Leads(s, steps, t)
    decreases |steps|
  {
    Agreement(s) && (steps != [] ==> AgreementThroughout(Apply(s, steps[0]), steps[1..], t))
  }

  /** What holds of a process when syncs and closes may fail: a file that is about to be removed may
      hold a key. */
  predicate FaultyProcessOk(s: State, p: Process) {
    if p.Removing? then s.file.Some? else ProcessOk(s, p)
  }

  predicate FaultyInv(s: State) {
    && (forall p :: p in s.processes ==> FaultyProcessOk(s, s.processes[p]))
    && (forall p, q :: p in s.processes && q in s.processes && Owns(s.processes[p]) && Owns(s.processes[q]) ==> p == q)
  }

  lemma StepKeepsFaultyInv(s: State, step: Step)
    requires FaultyInv(s) && Enabled(s, step) && !RemovesLate(s, step)
    ensures FaultyInv(Apply(s, step))
  {
    hide TrimSpace;
    var n := Apply(s, step);
    EmptyIsBlank();
    if step.Write? {
      KeyOfLine(At(s, step.p).key);
    }
    forall p | p in n.processes
      ensures FaultyProcessOk(n, n.processes[p])
    {
      assert p in s.processes ==> FaultyProcessOk(s, s.processes[p]);
      assert step.p in s.processes ==> FaultyProcessOk(s, s.processes[step.p]);
    }
  }

  lemma LateRemovalBreaksAgreement(s: State, step: Step)
    requires Enabled(s, step) && RemovesLate(s, step)
    ensures !Agreement(Apply(s, step))
  {
    var q :| q in s.processes && s.processes[q].Returned?;
    var n := Apply(s, step);
    assert q in n.processes && n.processes[q] == s.processes[q];
  }

  lemma {:induction false} AgreementBreaksExactly(s: State, steps: seq<Step>, t: State)
    requires Leads(s, steps, t) && FaultyInv(s)
    ensures AgreementThroughout(s, steps, t) <==> NoLateRemoval(s, steps, t)
    ensures NoLateRemoval(s, steps, t) ==> FaultyInv(t)
    decreases |steps|
  {
    assert Agreement(s) by {
      assert forall p :: p in s.processes ==> FaultyProcessOk(s, s.processes[p]);
    }
    if steps != [] {
      if RemovesLate(s, steps[0]) {
        LateRemovalBreaksAgreement(s, steps[0]);
      } else {
        StepKeepsFaultyInv(s, steps[0]);
        AgreementBreaksExactly(Apply(s, steps[0]), steps[1..], t);
      }
    }
  }

  /** With any faults, the file holds every key in use in all states of a run exactly when no file is
      removed while a key is in use; then all keys that are returned agree. */
  lemma KeysAgreeExactly(file: Option<string>, steps: seq<Step>, t: State)
    requires Leads(State(file, map[]), steps, t)
    ensures AgreementThroughout(State(file, map[]), steps, t) <==> NoLateRemoval(State(file, map[]), steps, t)
    ensures NoLateRemoval(State(file, map[]), steps, t) ==>
              forall p, q :: At(t, p).Returned? && At(t, q).Returned? ==> At(t, p).key == At(t, q).key
  {
    AgreementBreaksExactly(State(file, map[]), steps, t);
    if NoLateRemoval(State(file, map[]), steps, t) {
      assert forall p :: p in t.processes ==> FaultyProcessOk(t, t.processes[p]);
    }
  }

  /** A failed write never removes a file late: what it leaves cannot be read as a key. */
  lemma {:induction false} OnlySyncFaultsRemoveLate(s: State, steps: seq<Step>, t: State)
    requires Leads(s, steps, t) && Inv(s) && NoSyncFault(steps)
    ensures NoLateRemoval(s, steps, t)
    decreases |steps|
  {
    if steps != [] {
      if steps[0].Remove? {
        EmptyIsBlank();
        assert ProcessOk(s, s.processes[steps[0].p]);
        assert forall p :: p in s.processes ==> ProcessOk(s, s.processes[p]);
      }
      StepKeepsInv(s, steps[0]);
      OnlySyncFaultsRemoveLate(Apply(s, steps[0]), steps[1..], t);
    }
  }

  // ---- one process among others ----------------------------------------------------------------------------------

  /** The invariant without a failed sync, except that `me` may be about to remove a file with a key. */
  predicate OthersOk(s: State, me: nat) {
    && FaultyInv(s)
    && (forall p :: p in s.processes && p != me ==> ProcessOk(s, s.processes[p]))
  }

  predicate ByOthers(steps: seq<Step>, me: nat) {
    forall k :: 0 <= k < |steps| ==> steps[k].p != me && !SyncFault(steps[k])
  }

  lemma OtherStepKeepsOk(s: State, step: Step, me: nat)
    requires OthersOk(s, me) && Enabled(s, step) && step.p != me && !SyncFault(step)
    ensures OthersOk(Apply(s, step), me)
    ensures forall key :: Holds(s.file, key) ==> Apply(s, step).file == s.file
  {
    hide TrimSpace;
    var n := Apply(s, step);
    EmptyIsBlank();
    assert !RemovesLate(s, step) by {
      if step.Remove? {
        assert ProcessOk(s, s.processes[step.p]);
        assert forall p :: p in s.processes ==> FaultyProcessOk(s, s.processes[p]);
      }
    }
    StepKeepsFaultyInv(s, step);
    forall p | p in n.processes && p != me
      ensures ProcessOk(n, n.processes[p])
    {
      assert FaultyProcessOk(n, n.processes[p]);
    }
    assert step.p in s.processes ==> ProcessOk(s, s.processes[step.p]);
  }

  /** Any steps of others, without a failed sync or close of theirs, stay within the contract of
      `Host.Others`. */
  lemma {:induction false} OthersStayWithinContract(s: State, steps: seq<Step>, t: State, me: nat)
    requires OthersOk(s, me) && Leads(s, steps, t) && ByOthers(steps, me)
    ensures OthersOk(t, me) && (Inv(s) ==> Inv(t))
    ensures me in t.processes <==> me in s.processes
    ensures me in s.processes ==> t.processes[me] == s.processes[me]
    ensures forall key :: Holds(s.file, key) ==> t.file == s.file
    decreases |steps|
  {
    if steps != [] {
      OtherStepKeepsOk(s, steps[0], me);
      if Inv(s) {
        StepKeepsInv(s, steps[0]);
      }
      OthersStayWithinContract(Apply(s, steps[0]), steps[1..], t, me);
    }
  }

  class Host {
    var file: Option<string>
    ghost var s: State

    constructor (file: Option<string>)
      ensures Valid() && this.file == file && s == State(file, map[])
    {
      this.file := file;
      this.s := State(file, map[]);
    }

    ghost predicate Valid()
      reads this
    {
      file == s.file && Inv(s)
    }

    ghost predicate Stands(me: nat, p: Process)
      reads this
    {
      me in s.processes && s.processes[me] == p
    }

    /** The same while `me` may be about to remove a file that holds a key. */
    ghost predicate ValidFor(me: nat)
      reads this
    {
      file == s.file && OthersOk(s, me)
    }

    /** What others may do meanwhile, without a failed sync or close of theirs: callers rely on this
        contract alone, and OthersStayWithinContract shows that every run of others meets it. */
    method Others(ghost me: nat)
      requires ValidFor(me)
      modifies this
      ensures ValidFor(me) && (old(Valid()) ==> Valid())
      ensures me in s.processes <==> me in old(s).processes
      ensures me in s.processes ==> s.processes[me] == old(s).processes[me]
      ensures forall key :: Holds(old(file), key) ==> file == old(file)
    {
    }

    ghost method Record(step: Step)
      requires Inv(s) && Enabled(s, step) && !SyncFault(step) && file == Apply(s, step).file
      modifies `s
      ensures Valid() && s == Apply(old(s), step)
    {
      StepKeepsInv(s, step);
      s := Apply(s, step);
    }

    /** waitForDataKey. */
    method WaitForDataKey(ghost me: nat, faultless: bool) returns (key: Option<string>)
      requires Valid() && Stands(me, Polling(0))
      modifies this
      ensures Valid()
      ensures if key.Some? then Holds(file, key.value) && Stands(me, Returned(key.value)) else Stands(me, Failed)
      // a file that can be read is waited for until it holds a key, and is given up only while it holds none
      ensures forall k :: Holds(old(file), k) && faultless ==> key == Some(k)
      ensures faultless && key.None? ==> forall k :: !Holds(file, k)
    {
      for attempt := 0 to ATTEMPTS
        invariant Valid() && Stands(me, if attempt < ATTEMPTS then Polling(attempt) else Failed)
        invariant faultless ==> forall k :: Holds(old(file), k) ==> attempt == 0 && file == old(file)
        invariant faultless && attempt == ATTEMPTS ==> forall k :: !Holds(file, k)
      {
        Others(me);
        var fails: bool := *;
        if fails && !faultless {
          Record(ReadFails(me));
          return None;
        }
        var seen := file;
        Record(Poll(me));
        if seen.Some? && !Blank(seen.value) {
          return Some(TrimSpace(seen.value));
        }
      }
      key := None;
    }

    /** loadOrCreateDataKey. `late`: the file was removed although another process uses its key; `faultless`:
        every file operation of this process succeeds. */
    method LoadOrCreateDataKey(ghost me: nat, made: string, faultless: bool)
      returns (key: Option<string>, ghost late: bool)
      requires Valid() && me !in s.processes && IsKey(made)
      modifies this
      ensures if late then key.None? && file.None? && SomebodyReturned(s) else Valid()
      ensures key.Some? ==> Holds(file, key.value) && Stands(me, Returned(key.value))
      ensures key.None? ==> Stands(me, Failed)
      // a key that is already there is never replaced
      ensures forall old_key :: Holds(old(file), old_key) ==> !late && file == old(file)
      ensures forall old_key :: Holds(old(file), old_key) && key.Some? ==> key.value == old_key
      // without a fault of its own it returns a key, unless somebody else's file holds none yet
      ensures forall old_key :: Holds(old(file), old_key) && faultless ==> key == Some(old_key)
      ensures faultless && key.None? ==> !late && forall k :: !Holds(file, k)
    {
      late := false;
      Record(Begin(me));
      Others(me);
      var fails: bool := *;
      if fails && !faultless {
        Record(ReadFails(me));
        return None, late;
      }
      var seen := file;
      Record(Read(me, made));
      if seen.Some? {
        if Blank(seen.value) {
          key := WaitForDataKey(me, faultless);
        } else {
          key := Some(TrimSpace(seen.value));
        }
        return;
      }
      key, late := CreateDataKey(me, made, faultless);
    }

    method CreateDataKey(ghost me: nat, made: string, faultless: bool)
      returns (key: Option<string>, ghost late: bool)
      requires Valid() && Stands(me, Creating(made)) && IsKey(made)
      modifies this
      ensures if late then key.None? && file.None? && SomebodyReturned(s) else Valid()
      ensures key.Some? ==> Holds(file, key.value) && Stands(me, Returned(key.value))
      ensures key.None? ==> Stands(me, Failed)
      ensures faultless && key.None? ==> !late && forall k :: !Holds(file, k)
    {
      late := false;
      Others(me);
      var fails: bool := *;
      if fails && !faultless {
        Record(CreateFails(me));
        return None, late;
      }
      if file.Some? {
        Record(Create(me));
        key := WaitForDataKey(me, faultless);
        return;
      }
      file := Some("");
      Record(Create(me));
      Others(me);
      fails := *;
      if fails && !faultless {
        Record(Write(me, false));
        Others(me);
        file := None;
        Record(Remove(me));
        return None, late;
      }
      file := Some(made + "\n");
      Record(Write(me, true));
      key, late := PersistDataKey(me, made, faultless);
    }

    /** Sync and Close of the file just written. */
    method PersistDataKey(ghost me: nat, made: string, faultless: bool)
      returns (key: Option<string>, ghost late: bool)
      requires Valid() && Stands(me, Syncing(made))
      modifies this
      ensures if late then key.None? && file.None? && SomebodyReturned(s) else Valid()
      ensures key.Some? ==> key.value == made && Holds(file, made) && Stands(me, Returned(made))
      ensures key.None? ==> Stands(me, Failed)
      ensures faultless ==> key == Some(made)
    {
      late := false;
      Others(me);
      var synced: bool := *;
      if !synced && !faultless {
        RecordFault(Sync(me, false));
        late := RemoveDataKey(me);
        return None, late;
      }
      Record(Sync(me, true));
      Others(me);
      var closed: bool := *;
      if !closed && !faultless {
        RecordFault(Close(me, false));
        late := RemoveDataKey(me);
        return None, late;
      }
      Record(Close(me, true));
      key := Some(made);
    }

    /** The failed sync or close of this process. */
    ghost method RecordFault(step: Step)
      requires Valid() && Enabled(s, step) && SyncFault(step)
      modifies `s
      ensures ValidFor(step.p) && s == Apply(old(s), step)
    {
      StepKeepsFaultyInv(s, step);
      s := Apply(s, step);
    }

    /** os.Remove after a failed sync or close. */
    method RemoveDataKey(ghost me: nat) returns (ghost late: bool)
      requires ValidFor(me) && Stands(me, Removing)
      modifies this
      ensures if late then file.None? && SomebodyReturned(s) else Valid()
      ensures Stands(me, Failed)
    {
      Others(me);
      file := None;
      late := SomebodyReturned(s);
      if late {
        var q :| q in s.processes && s.processes[q].Returned?;
        s := Apply(s, Remove(me));
        assert q in s.processes && s.processes[q].Returned?;
      } else {
        StepKeepsFaultyInv(s, Remove(me));
        s := Apply(s, Remove(me));
      }
    }
  }

  // ---- a failed sync -----------------------------------------------------------------------------------------------

  lemma Prepend(s: State, step: Step, steps: seq<Step>, t: State) returns (longer: seq<Step>)
    requires Enabled(s, step) && Leads(Apply(s, step), steps, t)
    ensures Leads(s, longer, t)
  {
    longer := [step] + steps;
    assert longer[1..] == steps;
  }

  lemma {:induction false} LeadsOn(s: State, a: seq<Step>, m: State, b: seq<Step>, t: State)
    requires Leads(s, a, m) && Leads(m, b, t)
    ensures Leads(s, a + b, t)
    decreases |a|
  {
    if a == [] {
      assert a + b == b;
    } else {
      assert (a + b)[1..] == a[1..] + b;
      LeadsOn(Apply(s, a[0]), a[1..], m, b, t);
    }
  }

  /** A process that finds no file writes its key. */
  lemma WritesKey(s: State, p: nat, key: string) returns (steps: seq<Step>)
    requires s.file == None && p !in s.processes && IsKey(key)
    ensures Leads(s, steps, State(Some(key + "\n"), s.processes[p := Syncing(key)]))
  {
    var s1 := Apply(s, Begin(p));
    var s2 := Apply(s1, Read(p, key));
    var s3 := Apply(s2, Create(p));
    var s4 := Apply(s3, Write(p, true));
    assert s4.processes == s.processes[p := Syncing(key)];
    steps := Prepend(s3, Write(p, true), [], s4);
    steps := Prepend(s2, Create(p), steps, s4);
    steps := Prepend(s1, Read(p, key), steps, s4);
    steps := Prepend(s, Begin(p), steps, s4);
  }

  /** The first key is written and read by another process, then its sync fails. */
  lemma ReadAndRemoved(key: string) returns (steps: seq<Step>)
    requires IsKey(key)
    ensures Leads(State(Some(key + "\n"), map[0 := Syncing(key)]), steps,
        State(None, map[0 := Failed, 1 := Returned(key)]))
  {
    var s0 := State(Some(key + "\n"), map[0 := Syncing(key)]);
    var s1 := Apply(s0, Begin(1));
    KeyOfLine(key);
    var s2 := Apply(s1, Read(1, key));
    var s3 := Apply(s2, Sync(0, false));
    var s4 := Apply(s3, Remove(0));
    assert s4.processes == map[0 := Failed, 1 := Returned(key)];
    steps := Prepend(s3, Remove(0), [], s4);
    steps := Prepend(s2, Sync(0, false), steps, s4);
    steps := Prepend(s1, Read(1, key), steps, s4);
    steps := Prepend(s0, Begin(1), steps, s4);
  }

  lemma SyncsKey(s: State, p: nat, key: string) returns (steps: seq<Step>)
    requires At(s, p) == Syncing(key)
    ensures Leads(s, steps, Go(s, p, Returned(key)))
  {
    var s1 := Apply(s, Sync(p, true));
    var s2 := Apply(s1, Close(p, true));
    assert s2.processes == Go(s, p, Returned(key)).processes;
    steps := Prepend(s1, Close(p, true), [], s2);
    steps := Prepend(s, Sync(p, true), steps, s2);
  }

  /** After a late removal the next process goes on with a key of its own. */
  lemma LateRemovalSplitsKeys(s: State, step: Step, p: nat, key: string) returns (steps: seq<Step>, t: State)
    requires Enabled(s, step) && RemovesLate(s, step) && p !in s.processes && IsKey(key)
    ensures Leads(s, steps, t) && At(t, p) == Returned(key)
    ensures forall q :: q in s.processes && s.processes[q].Returned? ==> At(t, q) == s.processes[q]
  {
    var s1 := Apply(s, step);
    var a := WritesKey(s1, p, key);
    var written := State(Some(key + "\n"), s1.processes[p := Syncing(key)]);
    var b := SyncsKey(written, p, key);
    t := Go(written, p, Returned(key));
    LeadsOn(s1, a, written, b, t);
    steps := Prepend(s, step, a + b, t);
  }

  /** So with a failed sync two processes may go on with different keys. */
  lemma FailedSyncSplitsKeys(first: string, second: string) returns (steps: seq<Step>, t: State)
    requires IsKey(first) && IsKey(second) && first != second
    ensures Leads(State(None, map[]), steps, t)
    ensures At(t, 1) == Returned(first) && At(t, 2) == Returned(second)
  {
    var none := State(None, map[]);
    var mid := State(None, map[0 := Failed, 1 := Returned(first)]);
    var a := WritesKey(none, 0, first);
    var b := ReadAndRemoved(first);
    LeadsOn(none, a, State(Some(first + "\n"), map[0 := Syncing(first)]), b, mid);
    var c := WritesKey(mid, 2, second);
    var written := State(Some(second + "\n"), mid.processes[2 := Syncing(second)]);
    LeadsOn(none, a + b, mid, c, written);
    var d := SyncsKey(written, 2, second);
    t := Go(written, 2, Returned(second));
    LeadsOn(none, a + b + c, written, d, t);
    steps := a + b + c + d;
  }
}
