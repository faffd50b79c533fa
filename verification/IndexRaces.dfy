/**
 * Processes that share one keychain. Each stores or deletes one secret in three accesses, none of them locked: the
 * entry, the reading of the index, and the writing of the index it then computes.
 */
module IndexRaces {
  import opened Options
  import opened VaultBackends

  datatype Pc = Idle | Wrote | Read(keys: seq<string>) | Finished

  datatype Process = Process(sets: bool, key: string, value: string, pc: Pc)

  /** The keychain, the processes, and for each key the kind of the last entry access and the last index access. */
  datatype System = System(
    entries: map<string, string>, procs: seq<Process>, lastEntry: map<string, bool>, lastIndex: map<string, bool>)

  function Next(
      p: Process, keys: seq<string>): seq<string> { if p.sets then Added(keys, p.key) else Removed(keys, p.key) }

  /** The next access of process `i`. */
  function Fire(c: Codec<seq<string>>, sys: System, i: nat): System
    requires i < |sys.procs|
  {
    var p := sys.procs[i];
    match p.pc
    case Idle =>
      sys.(entries := if p.sets then sys.entries[p.key := p.value] else sys.entries - {p.key},
           lastEntry := sys.lastEntry[p.key := p.sets], procs := sys.procs[i := p.(pc := Wrote)])
    case Wrote =>
      var pc := match Index(c, sys.entries) { case Ok(keys) => Read(keys) case Err(_) => Finished };
      sys.(procs := sys.procs[i := p.(pc := pc)])
    case Read(keys) =>
      sys.(entries := Reindexed(c, sys.entries, keys, Next(p, keys)),
           lastIndex := sys.lastIndex[p.key := p.sets], procs := sys.procs[i := p.(pc := Finished)])
    case Finished => sys
  }

  function After(c: Codec<seq<string>>, sys: System, schedule: seq<nat>): System
    decreases |schedule|
  {
    if schedule == [] || schedule[0] >= |sys.procs| then sys else After(c, Fire(c, sys, schedule[0]), schedule[1..])
  }

  function Start(entries: map<string, string>, procs: seq<Process>): System { System(entries, procs, map[], map[]) }

  /** A process on its own does what the backend's operation does. */
  lemma AloneItIsTheOperation(c: Codec<seq<string>>, entries: map<string, string>, p: Process)
    requires p.pc.Idle?
    ensures After(c, Start(entries, [p]), [0, 0, 0]).entries ==
      if p.sets then KeySet(c, entries, p.key, p.value).0 else KeyDelete(c, entries, p.key).0
  {
    var s0 := Start(entries, [p]);
    var s1 := Fire(c, s0, 0);
    var s2 := Fire(c, s1, 0);
    var s3 := Fire(c, s2, 0);
    assert [0, 0, 0][1..] == [0, 0] && [0, 0][1..] == [0] && [0][1..] == [];
    assert After(c, s0, [0, 0, 0]) == After(c, s1, [0, 0]) == After(c, s2, [0]) == After(c, s3, []);
  }

  // ---- Undisturbed schedules ----

  predicate WritesIndex(sys: System, i: nat)
    requires i < |sys.procs|
  {
    var p := sys.procs[i];
    p.pc.Read? && Next(p, p.pc.keys) != p.pc.keys
  }

  /** No index write falls between another process's reading of the index and its own writing of it. */
  predicate Undisturbed(c: Codec<seq<string>>, sys: System, schedule: seq<nat>)
    decreases |schedule|
  {
    schedule == [] || schedule[0] >= |sys.procs| ||
    ((WritesIndex(sys, schedule[0]) ==> forall j :: 0 <= j < |sys.procs| && j != schedule[0] ==> !sys.procs[j].pc.Read?)
     && Undisturbed(c, Fire(c, sys, schedule[0]), schedule[1..]))
  }

  /** The kind of the last access about `k`, or what was the case before. */
  function Last(m: map<string, bool>, before: set<string>, k: string): bool { if k in m then m[k] else k in before }

  ghost predicate Inv(c: Codec<seq<string>>, sys: System, before: set<string>)
  {
    && Index(c, sys.entries).Ok? && NoDuplicates(Index(c, sys.entries).value)
    && (forall i :: 0 <= i < |sys.procs| ==> sys.procs[i].key != INDEX_KEY)
    && (forall i :: 0 <= i < |sys.procs| && sys.procs[i].pc.Read? ==> Index(c, sys.entries) == Ok(sys.procs[i].pc.keys))
    && (forall k :: k in Secrets(sys.entries) <==> Last(sys.lastEntry, before, k))
    && (forall k :: k in Index(c, sys.entries).value <==> Last(sys.lastIndex, before, k))
  }

  lemma NextChanges(p: Process, keys: seq<string>)
    requires NoDuplicates(keys)
    ensures NoDuplicates(Next(p, keys))
    ensures forall k :: k in Next(p, keys) <==> if k == p.key then p.sets else k in keys
  {
    RemovedDropsTheKey(keys, p.key);
  }

  lemma FireKeepsInv(c: Codec<seq<string>>, sys: System, i: nat, before: set<string>)
    requires RoundTrips(c) && Inv(c, sys, before) && i < |sys.procs|
    requires WritesIndex(sys, i) ==> forall j :: 0 <= j < |sys.procs| && j != i ==> !sys.procs[j].pc.Read?
    ensures Inv(c, Fire(c, sys, i), before)
  {
    var p, next := sys.procs[i], Fire(c, sys, i);
    assert forall j :: 0 <= j < |sys.procs| && j != i ==> next.procs[j] == sys.procs[j];
    if p.pc.Idle? {
      assert Index(c, next.entries) == Index(c, sys.entries);
      assert forall k :: k != p.key ==> (k in Secrets(next.entries) <==> k in Secrets(sys.entries));
    } else if p.pc.Read? {
      ReadKeepsInv(c, sys, i, before);
    }
  }

  lemma ReadKeepsInv(c: Codec<seq<string>>, sys: System, i: nat, before: set<string>)
    requires RoundTrips(c) && Inv(c, sys, before) && i < |sys.procs| && sys.procs[i].pc.Read?
    requires WritesIndex(sys, i) ==> forall j :: 0 <= j < |sys.procs| && j != i ==> !sys.procs[j].pc.Read?
    ensures Inv(c, Fire(c, sys, i), before)
  {
    var p := sys.procs[i];
    var keys, next, after := p.pc.keys, Next(p, p.pc.keys), Fire(c, sys, i);
    NextChanges(p, keys);
    hide RoundTrips, Next, NoDuplicates, Index, Secrets, Reindexed;
    assert forall j :: 0 <= j < |sys.procs| && j != i ==> after.procs[j] == sys.procs[j];
  }

  lemma {:induction false} RunKeepsInv(c: Codec<seq<string>>, sys: System, schedule: seq<nat>, before: set<string>)
    requires RoundTrips(c) && Inv(c, sys, before) && Undisturbed(c, sys, schedule)
    ensures Inv(c, After(c, sys, schedule), before)
    decreases |schedule|
  {
    hide Inv, Fire, WritesIndex, RoundTrips;
    if schedule != [] && schedule[0] < |sys.procs| {
      FireKeepsInv(c, sys, schedule[0], before);
      RunKeepsInv(c, Fire(c, sys, schedule[0]), schedule[1..], before);
    }
  }

  lemma StartInv(c: Codec<seq<string>>, entries: map<string, string>, procs: seq<Process>)
    requires IndexAgrees(c, entries) && forall i :: 0 <= i < |procs| ==> procs[i].key != INDEX_KEY && procs[i].pc.Idle?
    ensures Inv(c, Start(entries, procs), Secrets(entries).Keys)
  {
    AgreementListsAll(c, entries);
  }

  /**
   * After any interleaving of any number of processes in which no index write falls between another's reading and
   * writing, the index agrees with the store exactly when for every key the last entry access and the last index
   * access were of the same kind.
   */
  lemma UndisturbedIndexAgreesIff(
      c: Codec<seq<string>>, entries: map<string, string>, procs: seq<Process>, schedule: seq<nat>)
    requires RoundTrips(c) && IndexAgrees(c, entries)
    requires forall i :: 0 <= i < |procs| ==> procs[i].key != INDEX_KEY && procs[i].pc.Idle?
    requires Undisturbed(c, Start(entries, procs), schedule)
    ensures var end, before := After(c, Start(entries, procs), schedule), Secrets(entries).Keys;
      IndexAgrees(c, end.entries) <==> forall k :: Last(end.lastEntry, before, k) == Last(end.lastIndex, before, k)
  {
    hide RoundTrips, Undisturbed, After;
    StartInv(c, entries, procs);
    RunKeepsInv(c, Start(entries, procs), schedule, Secrets(entries).Keys);
  }

  // ---- Processes with keys of their own ----

  predicate OwnKeys(procs: seq<Process>) { forall i, j :: 0 <= i < j < |procs| ==> procs[i].key != procs[j].key }

  /** What a process has done to its own key so far. */
  predicate HasDone(sys: System, p: Process)
  {
    && (p.pc.Idle? ==> p.key !in sys.lastEntry)
    && (!p.pc.Idle? ==> p.key in sys.lastEntry && sys.lastEntry[p.key] == p.sets)
    && (!p.pc.Finished? ==> p.key !in sys.lastIndex)
    && (p.pc.Finished? ==> p.key in sys.lastIndex && sys.lastIndex[p.key] == p.sets)
  }

  function Keys(procs: seq<Process>): set<string> { set i | 0 <= i < |procs| :: procs[i].key }

  ghost predicate Progress(sys: System)
  {
    && OwnKeys(sys.procs)
    && (forall i :: 0 <= i < |sys.procs| ==> HasDone(sys, sys.procs[i]))
    && (forall k :: k in sys.lastEntry || k in sys.lastIndex ==> k in Keys(sys.procs))
  }

  lemma FireKeepsDone(c: Codec<seq<string>>, sys: System, i: nat, j: nat)
    requires i < |sys.procs| && j < |sys.procs| && HasDone(sys, sys.procs[i]) && HasDone(sys, sys.procs[j])
    requires (i != j ==> sys.procs[i].key != sys.procs[j].key) && Index(c, sys.entries).Ok?
    ensures var next := Fire(c, sys, i); next.procs[j].key == sys.procs[j].key && HasDone(next, next.procs[j])
  {
    hide Index, Reindexed;
    if j != i { assert Fire(c, sys, i).procs[j] == sys.procs[j]; }
  }

  lemma FireKeepsProgress(c: Codec<seq<string>>, sys: System, i: nat)
    requires Progress(sys) && i < |sys.procs| && Index(c, sys.entries).Ok?
    ensures Progress(Fire(c, sys, i))
  {
    var next, p := Fire(c, sys, i), sys.procs[i];
    assert |next.procs| == |sys.procs| && p.key in Keys(sys.procs);
    assert forall k :: k in next.lastEntry || k in next.lastIndex ==> k == p.key || k in sys.lastEntry || k in sys.lastIndex;
    hide HasDone, Fire;
    forall j | 0 <= j < |sys.procs| ensures next.procs[j].key == sys.procs[j].key && HasDone(next, next.procs[j]) {
      FireKeepsDone(c, sys, i, j);
    }
    forall k | k in Keys(sys.procs) ensures k in Keys(next.procs) {
      var j :| 0 <= j < |sys.procs| && sys.procs[j].key == k;
      assert next.procs[j].key == k;
    }
  }

  lemma {:induction false} RunKeepsProgress(c: Codec<seq<string>>, sys: System, schedule: seq<nat>, before: set<string>)
    requires RoundTrips(c) && Inv(c, sys, before) && Undisturbed(c, sys, schedule) && Progress(sys)
    ensures Progress(After(c, sys, schedule))
    decreases |schedule|
  {
    if schedule != [] && schedule[0] < |sys.procs| {
      FireKeepsInv(c, sys, schedule[0], before);
      FireKeepsProgress(c, sys, schedule[0]);
      hide Inv, Fire, WritesIndex, RoundTrips, Progress;
      RunKeepsProgress(c, Fire(c, sys, schedule[0]), schedule[1..], before);
    }
  }

  /** Processes with keys of their own leave the index in order when none disturbs another and all are finished. */
  lemma OwnKeysLeaveIndexInOrder(
      c: Codec<seq<string>>, entries: map<string, string>, procs: seq<Process>, schedule: seq<nat>)
    requires RoundTrips(c) && IndexAgrees(c, entries) && OwnKeys(procs)
    requires forall i :: 0 <= i < |procs| ==> procs[i].key != INDEX_KEY && procs[i].pc.Idle?
    requires Undisturbed(c, Start(entries, procs), schedule)
    requires var end := After(c, Start(entries, procs), schedule).procs; forall i :: 0 <= i < |end| ==> end[i].pc.Finished?
    ensures IndexAgrees(c, After(c, Start(entries, procs), schedule).entries)
  {
    hide RoundTrips, Undisturbed, After, IndexAgrees;
    var before := Secrets(entries).Keys;
    StartInv(c, entries, procs);
    RunKeepsProgress(c, Start(entries, procs), schedule, before);
    UndisturbedIndexAgreesIff(c, entries, procs, schedule);
    var end := After(c, Start(entries, procs), schedule);
    forall k ensures Last(end.lastEntry, before, k) == Last(end.lastIndex, before, k) {
      if k in end.lastEntry || k in end.lastIndex {
        var i :| 0 <= i < |end.procs| && end.procs[i].key == k;
        assert HasDone(end, end.procs[i]);
      }
    }
  }

  // ---- When it goes wrong ----

  /** Whoever writes an index that lacks another's finished change undoes that change. */
  lemma StaleWriteBreaksIndex(c: Codec<seq<string>>, sys: System, i: nat, k: string)
    requires RoundTrips(c) && i < |sys.procs| && WritesIndex(sys, i) && k != sys.procs[i].key && k != INDEX_KEY
    requires (k in sys.procs[i].pc.keys) != (k in Secrets(sys.entries))
    ensures !IndexAgrees(c, Fire(c, sys, i).entries)
  {
    var p := sys.procs[i];
    var next := Next(p, p.pc.keys);
    RemovedDropsTheKey(p.pc.keys, p.key);
    assert c.dec(c.enc(next)) == Some(next);
    var after := Fire(c, sys, i).entries;
    assert Index(c, after) == Ok(next) && Secrets(after) == Secrets(sys.entries);
  }

  /**
   * A changing index write of `j` between the reading and the changing write of `i` is lost: when `j`'s change is not
   * in what `i` read, the index disagrees with the store after both.
   */
  lemma OverwrittenChangeIsLost(c: Codec<seq<string>>, sys: System, i: nat, j: nat)
    requires RoundTrips(c) && i < |sys.procs| && j < |sys.procs| && sys.procs[i].key != sys.procs[j].key
    requires WritesIndex(sys, i) && WritesIndex(sys, j) && sys.procs[j].key != INDEX_KEY
    requires (sys.procs[j].key in Secrets(sys.entries)) == sys.procs[j].sets
    requires (sys.procs[j].key in sys.procs[i].pc.keys) != sys.procs[j].sets
    ensures !IndexAgrees(c, Fire(c, Fire(c, sys, j), i).entries)
  {
    var q := sys.procs[j];
    var mid := Fire(c, sys, j);
    assert mid.procs[i] == sys.procs[i];
    assert Secrets(mid.entries) == Secrets(sys.entries);
    StaleWriteBreaksIndex(c, mid, i, q.key);
  }

  lemma OneAtATime(c: Codec<seq<string>>, sys: System, i: nat, rest: seq<nat>)
    requires i < |sys.procs|
    ensures After(c, sys, [i] + rest) == After(c, Fire(c, sys, i), rest)
    ensures !sys.procs[i].pc.Read? && Undisturbed(c, Fire(c, sys, i), rest) ==> Undisturbed(c, sys, [i] + rest)
  {
    assert ([i] + rest)[1..] == rest;
  }

  /** Both have stored their entry and read an empty index: the second index written names the second key alone. */
  lemma SecondWriteWins(c: Codec<seq<string>>, sys: System, a: string, b: string, value: string)
    requires RoundTrips(c) && sys.entries == map[a := value, b := value] && a != b && a != INDEX_KEY && b != INDEX_KEY
    requires sys.procs == [Process(true, a, value, Read([])), Process(true, b, value, Read([]))]
    ensures var end := After(c, sys, [0, 1]).entries; a in Secrets(end) && b in Secrets(end) && Index(c, end) == Ok([b])
  {
    var mid := Fire(c, sys, 0);
    assert mid.procs[1] == sys.procs[1] && Added([], b) == [b] && c.dec(c.enc([b])) == Some([b]);
    OneAtATime(c, sys, 0, [1]);
    OneAtATime(c, mid, 1, []);
    assert [0] + [1] == [0, 1] && [1] + [] == [1];
  }

  /** Two processes that store a secret each, access by access in turn, leave the first one out of the index. */
  lemma IndexUpdateCanBeLost(c: Codec<seq<string>>, a: string, b: string, value: string)
    requires RoundTrips(c) && a != b && a != INDEX_KEY && b != INDEX_KEY
    ensures var procs := [Process(true, a, value, Idle), Process(true, b, value, Idle)];
      var end := After(c, Start(map[], procs), [0, 1, 0, 1, 0, 1]).entries;
      a in Secrets(end) && b in Secrets(end) && Index(c, end) == Ok([b])
  {
    var s0 := Start(map[], [Process(true, a, value, Idle), Process(true, b, value, Idle)]);
    var s1 := Fire(c, s0, 0);
    var s2 := Fire(c, s1, 1);
    var s3 := Fire(c, s2, 0);
    var s4 := Fire(c, s3, 1);
    assert s4.entries == map[a := value, b := value];
    assert s4.procs == [Process(true, a, value, Read([])), Process(true, b, value, Read([]))];
    hide After, Fire, Index, RoundTrips;
    OneAtATime(c, s0, 0, [1, 0, 1, 0, 1]);
    OneAtATime(c, s1, 1, [0, 1, 0, 1]);
    OneAtATime(c, s2, 0, [1, 0, 1]);
    OneAtATime(c, s3, 1, [0, 1]);
    assert [0] + [1, 0, 1, 0, 1] == [0, 1, 0, 1, 0, 1] && [1] + [0, 1, 0, 1] == [1, 0, 1, 0, 1];
    assert [0] + [1, 0, 1] == [0, 1, 0, 1] && [1] + [0, 1] == [1, 0, 1];
    SecondWriteWins(c, s4, a, b, value);
  }

  /** The deletion has read an empty index; it finishes, and then the store finishes. */
  lemma StoreFinishesLast(c: Codec<seq<string>>, sys: System, k: string, value: string)
    requires RoundTrips(c) && k != INDEX_KEY && sys.entries == map[]
    requires sys.procs == [Process(true, k, value, Wrote), Process(false, k, value, Read([]))]
    ensures Undisturbed(c, sys, [1, 0, 0])
    ensures k !in Secrets(After(c, sys, [1, 0, 0]).entries) && Index(c, After(c, sys, [1, 0, 0]).entries) == Ok([k])
  {
    var s1 := Fire(c, sys, 1);
    var s2 := Fire(c, s1, 0);
    assert s2.procs[0] == Process(true, k, value, Read([])) && s2.procs[1].pc.Finished?;
    var s3 := Fire(c, s2, 0);
    assert Added([], k) == [k] && c.dec(c.enc([k])) == Some([k]);
    OneAtATime(c, sys, 1, [0, 0]);
    OneAtATime(c, s1, 0, [0]);
    OneAtATime(c, s2, 0, []);
    assert [1] + [0, 0] == [1, 0, 0] && [0] + [0] == [0, 0] && [0] + [] == [0];
    assert Undisturbed(c, s2, [0]) by { assert [0][1..] == []; }
    assert !WritesIndex(sys, 1) && [1, 0, 0][1..] == [0, 0];
  }

  /** Without any disturbance, a store and a deletion of one key can leave a key in the index that is not stored. */
  lemma SetAndDeleteCanDisagree(c: Codec<seq<string>>, k: string, value: string)
    requires RoundTrips(c) && k != INDEX_KEY
    ensures var procs, schedule := [Process(true, k, value, Idle), Process(false, k, value, Idle)], [0, 1, 1, 1, 0, 0];
      var end := After(c, Start(map[], procs), schedule).entries;
      Undisturbed(c, Start(map[], procs), schedule) && k !in Secrets(end) && Index(c, end) == Ok([k])
  {
    var s0 := Start(map[], [Process(true, k, value, Idle), Process(false, k, value, Idle)]);
    var s1 := Fire(c, s0, 0);
    var s2 := Fire(c, s1, 1);
    var s3 := Fire(c, s2, 1);
    assert s2.entries == map[] && s3.procs == [Process(true, k, value, Wrote), Process(false, k, value, Read([]))];
    hide After, Fire, Index, RoundTrips, Undisturbed;
    StoreFinishesLast(c, s3, k, value);
    OneAtATime(c, s2, 1, [1, 0, 0]);
    OneAtATime(c, s1, 1, [1, 1, 0, 0]);
    OneAtATime(c, s0, 0, [1, 1, 1, 0, 0]);
    assert [1] + [1, 0, 0] == [1, 1, 0, 0] && [1] + [1, 1, 0, 0] == [1, 1, 1, 0, 0];
    assert [0] + [1, 1, 1, 0, 0] == [0, 1, 1, 1, 0, 0];
  }
}
