/** Two secret stores that behave as one map: keychain entries with a registry index, and a JSON file. */
module VaultBackends {
  import opened Options

  const INDEX_KEY := "nu-agent:index"

  /** A text encoding. JSON itself is not modelled, only that what is written can be read back. */
  datatype Codec<!T> = Codec(enc: T -> string, dec: string -> Option<T>)

  ghost predicate RoundTrips<T(!new)>(c: Codec<T>) { forall x: T :: c.dec(c.enc(x)) == Some(x) }

  datatype VaultError = JsonError | KeyNotFound(key: string)

  predicate NoDuplicates(keys: seq<string>) { forall i, j :: 0 <= i < j < |keys| ==> keys[i] != keys[j] }

  // ---- The keychain ----

  function Added(keys: seq<string>, key: string): seq<string> { if key in keys then keys else keys + [key] }

  function Removed(keys: seq<string>, key: string): seq<string>
  {
    if keys == [] then []
    else (if keys[0] == key then [] else [keys[0]]) + Removed(keys[1..], key)
  }

  lemma {:induction false} RemovedDropsTheKey(keys: seq<string>, key: string)
    ensures forall k :: k in Removed(keys, key) <==> k in keys && k != key
    ensures NoDuplicates(keys) ==> NoDuplicates(Removed(keys, key))
    ensures key !in keys ==> Removed(keys, key) == keys
  {
    if keys != [] {
      RemovedDropsTheKey(keys[1..], key);
      assert keys == [keys[0]] + keys[1..];
      assert NoDuplicates(keys) ==> keys[0] !in keys[1..];
    }
  }

  /** The registry index as it reads: empty when it was never written, and an error when it is not a list. */
  function Index(c: Codec<seq<string>>, entries: map<string, string>): Result<seq<string>, VaultError>
  {
    if INDEX_KEY !in entries then Ok([])
    else match c.dec(entries[INDEX_KEY])
      case Some(keys) => Ok(keys)
      case None => Err(JsonError)
  }

  /** Writing the index after a change, unless the change left it as it was. */
  function Reindexed(
      c: Codec<seq<string>>, entries: map<string, string>, current: seq<string>, next: seq<string>): map<string, string>
  {
    if next == current then entries else entries[INDEX_KEY := c.enc(next)]
  }

  /** An entry is written or deleted first; the index follows, and may turn out to be unreadable. */
  function KeySet(
      c: Codec<seq<string>>, entries: map<string, string>, key: string, value: string)
    : (map<string, string>, Result<(), VaultError>)
  {
    var e := entries[key := value];
    match Index(c, e)
    case Ok(keys) => (Reindexed(c, e, keys, Added(keys, key)), Ok(()))
    case Err(x) => (e, Err(x))
  }

  function KeyDelete(
      c: Codec<seq<string>>, entries: map<string, string>, key: string): (map<string, string>, Result<(), VaultError>)
  {
    var e := entries - {key};
    match Index(c, e)
    case Ok(keys) => (Reindexed(c, e, keys, Removed(keys, key)), Ok(()))
    case Err(x) => (e, Err(x))
  }

  /** The secrets proper. */
  function Secrets(entries: map<string, string>): map<string, string> { entries - {INDEX_KEY} }

  /** The index lists exactly the stored secrets, each once. */
  predicate IndexAgrees(c: Codec<seq<string>>, entries: map<string, string>)
  {
    match Index(c, entries)
    case Ok(keys) => NoDuplicates(keys) && (forall k :: k in keys ==> k in Secrets(entries)) && (forall k :: k in Secrets(entries) ==> k in keys)
    case Err(_) => false
  }

  class KeychainBackend {
    const codec: Codec<seq<string>>
    var entries: map<string, string>

    constructor (codec: Codec<seq<string>>)
      ensures this.codec == codec && entries == map[]
    {
      this.codec := codec;
      entries := map[];
    }

    method Get(key: string) returns (value: Option<string>)
      ensures value == if key in entries then Some(entries[key]) else None
    {
      value := if key in entries then Some(entries[key]) else None;
    }

    method ReadIndex() returns (keys: Result<seq<string>, VaultError>)
      ensures keys == Index(codec, entries)
    {
      if INDEX_KEY !in entries { return Ok([]); }
      var decoded := codec.dec(entries[INDEX_KEY]);
      keys := if decoded.Some? then Ok(decoded.value) else Err(JsonError);
    }

    method Set(key: string, value: string) returns (r: Result<(), VaultError>)
      modifies this
      ensures (entries, r) == KeySet(codec, old(entries), key, value)
    {
      entries := entries[key := value];
      var current := ReadIndex();
      if current.Err? { return Err(current.error); }
      var next := Added(current.value, key);
      if next != current.value { entries := entries[INDEX_KEY := codec.enc(next)]; }
      r := Ok(());
    }

    method Delete(key: string) returns (r: Result<(), VaultError>)
      modifies this
      ensures (entries, r) == KeyDelete(codec, old(entries), key)
    {
      entries := entries - {key};
      var current := ReadIndex();
      if current.Err? { return Err(current.error); }
      var next := Removed(current.value, key);
      if next != current.value { entries := entries[INDEX_KEY := codec.enc(next)]; }
      r := Ok(());
    }

    method List() returns (keys: Result<seq<string>, VaultError>)
      ensures keys == Index(codec, entries)
    {
      keys := ReadIndex();
    }
  }

  /** Storing a secret keeps the index exact, exactly when the secret is not stored under the index's own key. */
  lemma SetKeepsIndexIff(c: Codec<seq<string>>, entries: map<string, string>, key: string, value: string)
    requires RoundTrips(c) && IndexAgrees(c, entries)
    ensures IndexAgrees(c, KeySet(c, entries, key, value).0) <==> key != INDEX_KEY
    ensures key != INDEX_KEY ==> KeySet(c, entries, key, value).1.Ok? && Secrets(KeySet(c, entries, key, value).0) == Secrets(entries)[key := value]
  {
    var e := entries[key := value];
    if key != INDEX_KEY {
      var keys := Index(c, e).value;
      assert Index(c, e) == Index(c, entries);
      var next := Added(keys, key);
      assert c.dec(c.enc(next)) == Some(next);
      assert Secrets(e) == Secrets(entries)[key := value];
    } else if Index(c, e).Ok? {
      var next := Added(Index(c, e).value, key);
      assert c.dec(c.enc(next)) == Some(next);
      assert INDEX_KEY in next;
    }
  }

  lemma DeleteKeepsIndex(c: Codec<seq<string>>, entries: map<string, string>, key: string)
    requires RoundTrips(c) && IndexAgrees(c, entries) && key != INDEX_KEY
    ensures IndexAgrees(c, KeyDelete(c, entries, key).0)
    ensures KeyDelete(c, entries, key).1.Ok? && Secrets(KeyDelete(c, entries, key).0) == Secrets(entries) - {key}
  {
    var e := entries - {key};
    var keys := Index(c, e).value;
    assert Index(c, e) == Index(c, entries);
    RemovedDropsTheKey(keys, key);
    var next := Removed(keys, key);
    assert c.dec(c.enc(next)) == Some(next);
    assert Secrets(e) == Secrets(entries) - {key};
  }

  lemma SecretsFollowEntries(c: Codec<seq<string>>, entries: map<string, string>, key: string, value: string)
    requires key != INDEX_KEY
    ensures Secrets(entries[key := value]) == Secrets(entries)[key := value]
    ensures Secrets(entries - {key}) == Secrets(entries) - {key}
    ensures Index(c, entries[key := value]) == Index(c, entries) && Index(c, entries - {key}) == Index(c, entries)
  {
  }

  /** Whatever the index says, or cannot say, a set changes the secrets as asked; its answer tells about the index. */
  lemma SetChangesSecretsRegardless(c: Codec<seq<string>>, entries: map<string, string>, key: string, value: string)
    requires key != INDEX_KEY
    ensures Secrets(KeySet(c, entries, key, value).0) == Secrets(entries)[key := value]
    ensures KeySet(c, entries, key, value).1.Ok? <==> Index(c, entries).Ok?
  {
    SecretsFollowEntries(c, entries, key, value);
  }

  lemma DeleteChangesSecretsRegardless(c: Codec<seq<string>>, entries: map<string, string>, key: string)
    requires key != INDEX_KEY
    ensures Secrets(KeyDelete(c, entries, key).0) == Secrets(entries) - {key}
    ensures KeyDelete(c, entries, key).1.Ok? <==> Index(c, entries).Ok?
  {
    SecretsFollowEntries(c, entries, key, "");
  }

  /** A listed key is set, and an unlisted one deleted, without writing the index; a new one goes to its end. */
  lemma IndexIsWrittenWhenItChanges(c: Codec<seq<string>>, entries: map<string, string>, key: string, value: string)
    requires RoundTrips(c) && key != INDEX_KEY && Index(c, entries).Ok?
    ensures var listed := Index(c, entries).value;
      && (key in listed ==> KeySet(c, entries, key, value).0 == entries[key := value])
      && (key !in listed ==> KeyDelete(c, entries, key).0 == entries - {key})
      && (key !in listed ==> Index(c, KeySet(c, entries, key, value).0) == Ok(listed + [key]))
  {
    RemovedDropsTheKey(Index(c, entries).value, key);
    assert forall k: seq<string> :: c.dec(c.enc(k)) == Some(k);
    assert INDEX_KEY in entries <==> INDEX_KEY in entries - {key};
  }

  // ---- The file ----

  /** What the file holds: nothing when it is missing or blank, an error when it is not a map. */
  function Loaded(
      c: Codec<map<string, string>>, blank: string -> bool, file: Option<string>)
    : Result<map<string, string>, VaultError>
  {
    if file.None? || blank(file.value) then Ok(map[])
    else match c.dec(file.value)
      case Some(m) => Ok(m)
      case None => Err(JsonError)
  }

  ghost predicate FileCodec(c: Codec<map<string, string>>, blank: string -> bool)
  {
    RoundTrips(c) && forall m :: !blank(c.enc(m))
  }

  class FileBackend {
    const codec: Codec<map<string, string>>
    const blank: string -> bool
    var file: Option<string>

    constructor (codec: Codec<map<string, string>>, blank: string -> bool)
      ensures this.codec == codec && this.blank == blank && file == None
    {
      this.codec, this.blank := codec, blank;
      file := None;
    }

    method LoadMap() returns (m: Result<map<string, string>, VaultError>)
      ensures m == Loaded(codec, blank, file)
    {
      if file.None? || blank(file.value) { return Ok(map[]); }
      var decoded := codec.dec(file.value);
      m := if decoded.Some? then Ok(decoded.value) else Err(JsonError);
    }

    method Get(key: string) returns (value: Result<Option<string>, VaultError>)
      ensures value == match Loaded(codec, blank, file) {
          case Ok(m) => Ok(if key in m then Some(m[key]) else None)
          case Err(x) => Err(x)
        }
    {
      var loaded := LoadMap();
      if loaded.Err? { return Err(loaded.error); }
      value := Ok(if key in loaded.value then Some(loaded.value[key]) else None);
    }

    /** The read-modify-write cycle that the file's exclusive lock makes one step. */
    method Update(mutate: map<string, string> -> map<string, string>) returns (r: Result<(), VaultError>)
      requires FileCodec(codec, blank)
      modifies this
      ensures r.Ok? <==> Loaded(codec, blank, old(file)).Ok?
      ensures r.Ok? ==> Loaded(codec, blank, file) == Ok(mutate(Loaded(codec, blank, old(file)).value))
      ensures r.Err? ==> r.error == JsonError && file == old(file)
    {
      var loaded := LoadMap();
      if loaded.Err? { return Err(loaded.error); }
      var m := mutate(loaded.value);
      assert codec.dec(codec.enc(m)) == Some(m) && !blank(codec.enc(m));
      file := Some(codec.enc(m));
      r := Ok(());
    }

    method Set(key: string, value: string) returns (r: Result<(), VaultError>)
      requires FileCodec(codec, blank)
      modifies this
      ensures r.Ok? <==> Loaded(codec, blank, old(file)).Ok?
      ensures r.Ok? ==> Loaded(codec, blank, file) == Ok(Loaded(codec, blank, old(file)).value[key := value])
    {
      r := Update((m: map<string, string>) => m[key := value]);
    }

    method Delete(key: string) returns (r: Result<(), VaultError>)
      requires FileCodec(codec, blank)
      modifies this
      ensures r.Ok? <==> Loaded(codec, blank, old(file)).Ok?
      ensures r.Ok? ==> Loaded(codec, blank, file) == Ok(Loaded(codec, blank, old(file)).value - {key})
    {
      r := Update((m: map<string, string>) => m - {key});
    }

    /** The keys in the order the map enumerates them. */
    method List() returns (keys: Result<seq<string>, VaultError>)
      ensures keys.Ok? <==> Loaded(codec, blank, file).Ok?
      ensures keys.Ok? ==> NoDuplicates(keys.value) && forall k :: k in keys.value <==> k in Loaded(codec, blank, file).value
    {
      var loaded := LoadMap();
      if loaded.Err? { return Err(loaded.error); }
      var left, all := loaded.value.Keys, [];
      while left != {}
        invariant left <= loaded.value.Keys && NoDuplicates(all)
        invariant forall k :: k in all <==> k in loaded.value && k !in left
        decreases |left|
      {
        var k :| k in left;
        left := left - {k};
        all := all + [k];
      }
      keys := Ok(all);
    }
  }

  // ---- Both are one map ----

  datatype Op = Sets(key: string, value: string) | Deletes(key: string)

  function KeychainRun(c: Codec<seq<string>>, entries: map<string, string>, ops: seq<Op>): map<string, string>
    decreases |ops|
  {
    if ops == [] then entries
    else match ops[0]
      case Sets(k, v) => KeychainRun(c, KeySet(c, entries, k, v).0, ops[1..])
      case Deletes(k) => KeychainRun(c, KeyDelete(c, entries, k).0, ops[1..])
  }

  /** The file read, changed and written back by each operation in turn. */
  function FileRun(
      c: Codec<map<string, string>>, blank: string -> bool, file: Option<string>, ops: seq<Op>): Option<string>
    decreases |ops|
  {
    if ops == [] || Loaded(c, blank, file).Err? then file
    else
      var m := Loaded(c, blank, file).value;
      match ops[0]
      case Sets(k, v) => FileRun(c, blank, Some(c.enc(m[k := v])), ops[1..])
      case Deletes(k) => FileRun(c, blank, Some(c.enc(m - {k})), ops[1..])
  }

  /** A blank file reads as a missing one, whatever follows; one that is no map is never overwritten. */
  lemma {:induction false} OddFiles(c: Codec<map<string, string>>, blank: string -> bool, text: string, ops: seq<Op>)
    ensures blank(text) ==> Loaded(c, blank, FileRun(c, blank, Some(text), ops)) == Loaded(c, blank, FileRun(c, blank, None, ops))
    ensures !blank(text) && c.dec(text).None? ==>
      FileRun(c, blank, Some(text), ops) == Some(text) && Loaded(c, blank, Some(text)) == Err(JsonError)
  {
  }

  /** The two stores answer every lookup and, up to order, every listing alike. */
  ghost predicate SameStore(
      c: Codec<seq<string>>, entries: map<string, string>, f: Codec<map<string, string>>, blank: string -> bool,
      file: Option<string>)
  {
    && IndexAgrees(c, entries)
    && Loaded(f, blank, file) == Ok(Secrets(entries))
    && forall k :: k in Index(c, entries).value <==> k in Loaded(f, blank, file).value
  }

  /**
   * From empty stores, any operations on keys other than the index's own leave the keychain and the file observably
   * equal: the same values, and listings of the same keys, in which the keychain's has no duplicates.
   */
  lemma {:induction false} BackendsAgree(
      c: Codec<seq<string>>, entries: map<string, string>, f: Codec<map<string, string>>, blank: string -> bool,
      file: Option<string>, ops: seq<Op>)
    requires RoundTrips(c) && FileCodec(f, blank) && SameStore(c, entries, f, blank, file)
    requires forall i :: 0 <= i < |ops| ==> ops[i].key != INDEX_KEY
    ensures SameStore(c, KeychainRun(c, entries, ops), f, blank, FileRun(f, blank, file, ops))
    decreases |ops|
  {
    hide KeySet, KeyDelete, IndexAgrees;
    if ops != [] {
      var m := Secrets(entries);
      match ops[0]
      case Sets(k, v) =>
        SetKeepsIndexIff(c, entries, k, v);
        assert f.dec(f.enc(m[k := v])) == Some(m[k := v]);
        AgreementListsAll(c, KeySet(c, entries, k, v).0);
        BackendsAgree(c, KeySet(c, entries, k, v).0, f, blank, Some(f.enc(m[k := v])), ops[1..]);
      case Deletes(k) =>
        DeleteKeepsIndex(c, entries, k);
        assert f.dec(f.enc(m - {k})) == Some(m - {k});
        AgreementListsAll(c, KeyDelete(c, entries, k).0);
        BackendsAgree(c, KeyDelete(c, entries, k).0, f, blank, Some(f.enc(m - {k})), ops[1..]);
    }
  }

  lemma AgreementListsAll(c: Codec<seq<string>>, entries: map<string, string>)
    requires IndexAgrees(c, entries)
    ensures Index(c, entries).Ok? && NoDuplicates(Index(c, entries).value)
    ensures forall k :: k in Index(c, entries).value <==> k in Secrets(entries)
  {
  }

  lemma BackendsAgreeFromEmpty(
      c: Codec<seq<string>>, f: Codec<map<string, string>>, blank: string -> bool, ops: seq<Op>)
    requires RoundTrips(c) && FileCodec(f, blank) && forall i :: 0 <= i < |ops| ==> ops[i].key != INDEX_KEY
    ensures SameStore(c, KeychainRun(c, map[], ops), f, blank, FileRun(f, blank, None, ops))
  {
    assert SameStore(c, map[], f, blank, None);
    BackendsAgree(c, map[], f, blank, None, ops);
  }

  // ---- Processes sharing one keychain ----

  /** A single keychain access: the index is read and written back without a lock. */
  datatype Access = PutEntry(key: string, value: string) | DropEntry(key: string) | PutIndex(raw: string)

  function Accessed(entries: map<string, string>, accesses: seq<Access>): map<string, string>
    decreases |accesses|
  {
    if accesses == [] then entries
    else match accesses[0]
      case PutEntry(k, v) => Accessed(entries[k := v], accesses[1..])
      case DropEntry(k) => Accessed(entries - {k}, accesses[1..])
      case PutIndex(raw) => Accessed(entries[INDEX_KEY := raw], accesses[1..])
  }

  /** What one access does to the entries, at the end of any others. */
  lemma {:induction false} AccessedSnoc(entries: map<string, string>, accesses: seq<Access>, a: Access)
    ensures Accessed(entries, accesses + [a]) ==
      match a
      case PutEntry(k, v) => Accessed(entries, accesses)[k := v]
      case DropEntry(k) => Accessed(entries, accesses) - {k}
      case PutIndex(raw) => Accessed(entries, accesses)["nu-agent:index" := raw]
    decreases |accesses|
  {
    if accesses == [] {
      assert accesses + [a] == [a] && [a][1..] == [];
    } else {
      assert (accesses + [a])[1..] == accesses[1..] + [a];
      var e := match accesses[0]
        case PutEntry(k, v) => entries[k := v]
        case DropEntry(k) => entries - {k}
        case PutIndex(raw) => entries[INDEX_KEY := raw];
      AccessedSnoc(e, accesses[1..], a);
    }
  }

  /** The same accesses without those to the index. */
  function EntryAccesses(accesses: seq<Access>): seq<Access>
  {
    if accesses == [] then []
    else (if accesses[0].PutIndex? then [] else [accesses[0]]) + EntryAccesses(accesses[1..])
  }

  /**
   * However the accesses of many processes interleave, and whatever any of them writes to the index, every secret is
   * what its last write or deletion made it.
   */
  lemma {:induction false} IndexNeverTouchesSecrets(
      entries: map<string, string>, plain: map<string, string>, accesses: seq<Access>)
    requires forall i :: 0 <= i < |accesses| && !accesses[i].PutIndex? ==> accesses[i].key != INDEX_KEY
    requires Secrets(entries) == plain
    ensures Secrets(Accessed(entries, accesses)) == Accessed(plain, EntryAccesses(accesses))
    decreases |accesses|
  {
    if accesses != [] {
      var rest := accesses[1..];
      match accesses[0]
      case PutEntry(k, v) =>
        assert ([accesses[0]] + EntryAccesses(rest))[1..] == EntryAccesses(rest);
        assert Secrets(entries[k := v]) == plain[k := v];
        IndexNeverTouchesSecrets(entries[k := v], plain[k := v], rest);
      case DropEntry(k) =>
        assert ([accesses[0]] + EntryAccesses(rest))[1..] == EntryAccesses(rest);
        assert Secrets(entries - {k}) == plain - {k};
        IndexNeverTouchesSecrets(entries - {k}, plain - {k}, rest);
      case PutIndex(raw) =>
        assert [] + EntryAccesses(rest) == EntryAccesses(rest);
        assert Secrets(entries[INDEX_KEY := raw]) == plain;
        IndexNeverTouchesSecrets(entries[INDEX_KEY := raw], plain, rest);
    }
  }
}
