/** Resolving `cmd:` references: a walk that rewrites a configuration tree, and the calls it makes. */
module CmdRefs {
  import opened Options
  import opened Sequences
  import opened Text

  const CMD_PREFIX := "cmd:"

  /** A TOML value; tables list their entries in the order in which the walk visits them. */
  datatype Value = Str(text: string) | Table(entries: seq<Entry>) | Arr(items: seq<Value>) | Other(text: string)

  datatype Entry = Entry(key: string, value: Value)

  datatype Call = Call(program: string, args: seq<string>)

  datatype CmdRefError =
    | Run(keyPath: string, command: string, source: string)
    | Empty(keyPath: string, command: string)
    | EmptyCommand(keyPath: string, command: string)
    | Split(keyPath: string, command: string)

  /**
   * What the walk asks of its surroundings: trimming white space, splitting a command line into words, and running
   * a program, whose output may differ from one call to the next.
   */
  datatype Shell = Shell(trim: string -> string, split: string -> Option<seq<string>>, run: (nat, Call) -> Result<string, string>)

  function TrimEndNewlines(s: string): (r: string)
    ensures r <= s && (r != "" ==> r[|r| - 1] != '\n' && r[|r| - 1] != '\r')
    ensures forall i :: |r| <= i < |s| ==> s[i] == '\n' || s[i] == '\r'
  {
    if s != "" && (s[|s| - 1] == '\n' || s[|s| - 1] == '\r') then TrimEndNewlines(s[..|s| - 1]) else s
  }

  function JoinKey(keyPath: string, key: string): string { if keyPath == "" then key else keyPath + "." + key }

  function IndexPath(keyPath: string, index: nat): string { keyPath + "[" + Decimal(index) + "]" }

  predicate IsRef(text: string) { CMD_PREFIX <= text }

  // ---- The references of a tree, in walk order ----

  datatype Ref = Ref(keyPath: string, text: string)

  function Refs(v: Value, keyPath: string): seq<Ref>
    decreases v, 0
  {
    match v
    case Str(text) => if IsRef(text) then [Ref(keyPath, text)] else []
    case Table(entries) => RefsOfEntries(entries, keyPath, |entries|)
    case Arr(items) => RefsOfItems(items, keyPath, |items|)
    case Other(_) => []
  }

  function RefsOfEntries(entries: seq<Entry>, keyPath: string, k: nat): seq<Ref>
    requires k <= |entries|
    decreases entries, k
  {
    if k == 0 then []
    else RefsOfEntries(entries, keyPath, k - 1) + Refs(entries[k - 1].value, JoinKey(keyPath, entries[k - 1].key))
  }

  function RefsOfItems(items: seq<Value>, keyPath: string, k: nat): seq<Ref>
    requires k <= |items|
    decreases items, k
  {
    if k == 0 then [] else RefsOfItems(items, keyPath, k - 1) + Refs(items[k - 1], IndexPath(keyPath, k - 1))
  }

  // ---- Resolving a list of references ----

  /** The command behind a reference, without the prefix and the white space around it. */
  function Command(sh: Shell, r: Ref): string
    requires IsRef(r.text)
  {
    sh.trim(r.text[|CMD_PREFIX|..])
  }

  /** The program call of a reference, or the error of one that has none. */
  function CallOf(sh: Shell, r: Ref): Result<Call, CmdRefError>
    requires IsRef(r.text)
  {
    match sh.split(Command(sh, r))
    case None => Err(Split(r.keyPath, Command(sh, r)))
    case Some(parts) => if parts == [] then Err(EmptyCommand(r.keyPath, r.text)) else Ok(Call(parts[0], parts[1..]))
  }

  /** The output of a reference when `n` calls were made before it. */
  function Resolved(sh: Shell, r: Ref, n: nat): Result<string, CmdRefError>
    requires IsRef(r.text)
  {
    match CallOf(sh, r)
    case Err(e) => Err(e)
    case Ok(call) =>
      match sh.run(n, call)
      case Err(source) => Err(Run(r.keyPath, Command(sh, r), source))
      case Ok(stdout) =>
        if TrimEndNewlines(stdout) == "" then Err(Empty(r.keyPath, Command(sh, r))) else Ok(TrimEndNewlines(stdout))
  }

  /** Outputs up to the first failure, that failure if any, and the calls made. */
  datatype Outcome = Outcome(outputs: seq<string>, error: Option<CmdRefError>, calls: seq<Call>)

  function AllResolved(sh: Shell, refs: seq<Ref>, n: nat): Outcome
    requires forall r :: r in refs ==> IsRef(r.text)
    decreases |refs|
  {
    if refs == [] then Outcome([], None, [])
    else
      var called := match CallOf(sh, refs[0]) { case Ok(call) => [call] case Err(_) => [] };
      match Resolved(sh, refs[0], n)
      case Err(e) => Outcome([], Some(e), called)
      case Ok(output) =>
        var rest := AllResolved(sh, refs[1..], n + 1);
        Outcome([output] + rest.outputs, rest.error, called + rest.calls)
  }

  /** The second list is resolved if the first one was. */
  function Then(sh: Shell, a: Outcome, refs: seq<Ref>, n: nat): Outcome
    requires forall r :: r in refs ==> IsRef(r.text)
  {
    if a.error.Some? then a
    else
      var b := AllResolved(sh, refs, n + |a.calls|);
      Outcome(a.outputs + b.outputs, b.error, a.calls + b.calls)
  }

  lemma {:induction false} ResolvedConcat(sh: Shell, xs: seq<Ref>, ys: seq<Ref>, n: nat)
    requires forall r :: r in xs + ys ==> IsRef(r.text)
    ensures (forall r :: r in xs ==> IsRef(r.text)) && (forall r :: r in ys ==> IsRef(r.text))
    ensures AllResolved(sh, xs + ys, n) == Then(sh, AllResolved(sh, xs, n), ys, n)
    decreases |xs|
  {
    hide Resolved, CallOf;
    assert forall r :: r in xs ==> r in xs + ys;
    assert forall r :: r in ys ==> r in xs + ys;
    if xs == [] {
      assert xs + ys == ys;
    } else {
      hide IsRef;
      var x, rest := xs[0], xs[1..];
      assert (xs + ys)[0] == x && (xs + ys)[1..] == rest + ys;
      ResolvedConcat(sh, rest, ys, n + 1);
      OutputNeedsACall(sh, x, n);
      var a, b := AllResolved(sh, rest, n + 1), AllResolved(sh, ys, n + |AllResolved(sh, xs, n).calls|);
      if Resolved(sh, x, n).Ok? && a.error.None? {
        Regroup([Resolved(sh, x, n).value], a.outputs, b.outputs);
        Regroup([CallOf(sh, x).value], a.calls, b.calls);
      }
    }
  }

  lemma OutputNeedsACall(sh: Shell, r: Ref, n: nat)
    requires IsRef(r.text)
    ensures Resolved(sh, r, n).Ok? ==> CallOf(sh, r).Ok?
  {
  }

  // ---- What a reference runs, and where it stands ----

  lemma ReferencesStartWithCmd(text: string)
    ensures IsRef(text) <==> |text| >= 4 && text[..4] == "cmd:"
    ensures IsRef(text) ==> text[|CMD_PREFIX|..] == text[4..]
  {
  }

  /**
   * The text behind `cmd:`, trimmed and split into words, is the command: its first word the program, the others the
   * arguments. The output is what the program prints up to its trailing newlines; a run that fails or prints nothing
   * else is an error.
   */
  lemma ReferenceRunsItsCommand(sh: Shell, r: Ref, n: nat, command: string, program: string, args: seq<string>)
    requires |r.text| >= 4 && r.text[..4] == "cmd:" && command == sh.trim(r.text[4..])
    requires sh.split(command) == Some([program] + args)
    ensures IsRef(r.text) && CallOf(sh, r) == Ok(Call(program, args))
    ensures sh.run(n, Call(program, args)).Err? ==>
      Resolved(sh, r, n) == Err(Run(r.keyPath, command, sh.run(n, Call(program, args)).error))
    ensures sh.run(n, Call(program, args)).Ok? ==>
      var printed := sh.run(n, Call(program, args)).value;
      if forall c :: c in printed ==> c in "\r\n" then Resolved(sh, r, n) == Err(Empty(r.keyPath, command))
      else exists k ::
        && 0 < k <= |printed| && Resolved(sh, r, n) == Ok(printed[..k])
        && printed[k - 1] !in "\r\n" && forall c :: c in printed[k..] ==> c in "\r\n"
  {
    ReferencesStartWithCmd(r.text);
    assert ([program] + args)[1..] == args;
    var ran := sh.run(n, Call(program, args));
    if ran.Ok? {
      TrimmedAway(ran.value);
      assert ran.value[..|TrimEndNewlines(ran.value)|] == TrimEndNewlines(ran.value);
    }
  }

  /** Quotes that do not close, and a command without words, whose error quotes the whole value, are errors and no call. */
  lemma ReferenceWithoutACall(sh: Shell, r: Ref, n: nat, command: string)
    requires |r.text| >= 4 && r.text[..4] == "cmd:" && command == sh.trim(r.text[4..])
    ensures IsRef(r.text)
    ensures sh.split(command) == None ==> CallOf(sh, r).Err? && Resolved(sh, r, n) == Err(Split(r.keyPath, command))
    ensures sh.split(command) == Some([]) ==> CallOf(sh, r).Err? && Resolved(sh, r, n) == Err(EmptyCommand(r.keyPath, r.text))
  {
    ReferencesStartWithCmd(r.text);
  }

  lemma TrimmedAway(s: string)
    ensures TrimEndNewlines(s) == "" <==> forall c :: c in s ==> c in "\r\n"
    ensures forall c :: c in s[|TrimEndNewlines(s)|..] ==> c in "\r\n"
  {
    var t := TrimEndNewlines(s);
    if t != "" { assert t[|t| - 1] in s && t[|t| - 1] !in "\r\n"; }
    assert '\n' == "\r\n"[1] && '\r' == "\r\n"[0];
  }

  /** A step into a tree: to the value of a key, or to an item. */
  datatype Step = Key(key: string) | Index(index: nat)

  /** Following the steps from `v` leads to the string `text`. */
  ghost predicate Leads(v: Value, steps: seq<Step>, text: string)
    decreases steps
  {
    if steps == [] then v == Str(text)
    else match steps[0]
      case Key(key) =>
        v.Table? && exists i :: 0 <= i < |v.entries| && v.entries[i].key == key && Leads(v.entries[i].value, steps[1..], text)
      case Index(i) => v.Arr? && i < |v.items| && Leads(v.items[i], steps[1..], text)
  }

  /** Steps written out: keys behind a dot, but for one at the very front, and indices in brackets. */
  function Written(front: string, steps: seq<Step>): string
    decreases steps
  {
    if steps == [] then front
    else match steps[0]
      case Key(key) => Written(if |front| == 0 then key else front + ['.'] + key, steps[1..])
      case Index(i) => Written(front + ['['] + Decimal(i) + [']'], steps[1..])
  }

  /** The references are the strings that start with `cmd:`, each under the path that leads to it. */
  lemma ReferencesAreTheCmdStrings(v: Value, r: Ref)
    ensures r in Refs(v, "") <==>
      |r.text| >= 4 && r.text[..4] == "cmd:" && exists steps :: Leads(v, steps, r.text) && Written("", steps) == r.keyPath
  {
    ReferencesStartWithCmd(r.text);
    if r in Refs(v, "") {
      RefsAreReferences(v, "");
      ReferenceStandsAtItsPath(v, "", r);
    }
    if steps :| IsRef(r.text) && Leads(v, steps, r.text) && Written("", steps) == r.keyPath {
      StringIsFound(v, "", steps, r);
    }
  }

  lemma {:induction false} StringIsFound(v: Value, front: string, steps: seq<Step>, r: Ref)
    requires IsRef(r.text) && Leads(v, steps, r.text) && Written(front, steps) == r.keyPath
    ensures r in Refs(v, front)
    decreases steps
  {
    if steps != [] {
      var more := steps[1..];
      match steps[0]
      case Key(key) =>
        var i :| 0 <= i < |v.entries| && v.entries[i].key == key && Leads(v.entries[i].value, more, r.text);
        assert "." == ['.'];
        StringIsFound(v.entries[i].value, JoinKey(front, key), more, r);
        FoundInEntries(v.entries, front, |v.entries|, i, r);
      case Index(i) =>
        assert "[" == ['['] && "]" == [']'];
        StringIsFound(v.items[i], IndexPath(front, i), more, r);
        FoundInItems(v.items, front, |v.items|, i, r);
    }
  }

  lemma {:induction false} FoundInEntries(entries: seq<Entry>, front: string, k: nat, i: nat, r: Ref)
    requires i < k <= |entries| && r in Refs(entries[i].value, JoinKey(front, entries[i].key))
    ensures r in RefsOfEntries(entries, front, k)
    decreases k
  {
    hide Refs, JoinKey, IndexPath;
    if i < k - 1 { FoundInEntries(entries, front, k - 1, i, r); }
  }

  lemma {:induction false} FoundInItems(items: seq<Value>, front: string, k: nat, i: nat, r: Ref)
    requires i < k <= |items| && r in Refs(items[i], IndexPath(front, i))
    ensures r in RefsOfItems(items, front, k)
    decreases k
  {
    hide Refs, JoinKey, IndexPath;
    if i < k - 1 { FoundInItems(items, front, k - 1, i, r); }
  }

  lemma {:induction false} ReferenceStandsAtItsPath(v: Value, front: string, r: Ref)
    requires r in Refs(v, front)
    ensures exists steps :: Leads(v, steps, r.text) && Written(front, steps) == r.keyPath
    decreases v
  {
    match v
    case Str(text) =>
      assert Leads(v, [], text) && Written(front, []) == front;
    case Table(entries) =>
      var i := EntryOf(entries, front, |entries|, r);
      var e := entries[i];
      ReferenceStandsAtItsPath(e.value, JoinKey(front, e.key), r);
      var steps :| Leads(e.value, steps, r.text) && Written(JoinKey(front, e.key), steps) == r.keyPath;
      IntoTheEntry(v, i, steps, r, front);
    case Arr(items) =>
      var i := ItemOf(items, front, |items|, r);
      ReferenceStandsAtItsPath(items[i], IndexPath(front, i), r);
      var steps :| Leads(items[i], steps, r.text) && Written(IndexPath(front, i), steps) == r.keyPath;
      IntoTheItem(v, i, steps, r, front);
    case Other(_) =>
  }

  lemma IntoTheEntry(v: Value, i: nat, steps: seq<Step>, r: Ref, front: string)
    requires v.Table? && i < |v.entries| && Leads(v.entries[i].value, steps, r.text)
    requires Written(JoinKey(front, v.entries[i].key), steps) == r.keyPath
    ensures Leads(v, [Key(v.entries[i].key)] + steps, r.text)
    ensures Written(front, [Key(v.entries[i].key)] + steps) == r.keyPath
  {
    var all := [Key(v.entries[i].key)] + steps;
    assert all[1..] == steps;
    assert "." == ['.'];
  }

  lemma IntoTheItem(v: Value, i: nat, steps: seq<Step>, r: Ref, front: string)
    requires v.Arr? && i < |v.items| && Leads(v.items[i], steps, r.text)
    requires Written(IndexPath(front, i), steps) == r.keyPath
    ensures Leads(v, [Index(i)] + steps, r.text)
    ensures Written(front, [Index(i)] + steps) == r.keyPath
  {
    var all := [Index(i)] + steps;
    assert all[1..] == steps;
    assert "[" == ['['] && "]" == [']'];
  }

  lemma {:induction false} EntryOf(entries: seq<Entry>, front: string, k: nat, r: Ref) returns (i: nat)
    requires k <= |entries| && r in RefsOfEntries(entries, front, k)
    ensures i < k && r in Refs(entries[i].value, JoinKey(front, entries[i].key))
    decreases k
  {
    i := k - 1;
    if r !in Refs(entries[k - 1].value, JoinKey(front, entries[k - 1].key)) { i := EntryOf(entries, front, k - 1, r); }
  }

  lemma {:induction false} ItemOf(items: seq<Value>, front: string, k: nat, r: Ref) returns (i: nat)
    requires k <= |items| && r in RefsOfItems(items, front, k)
    ensures i < k && r in Refs(items[i], IndexPath(front, i))
    decreases k
  {
    i := k - 1;
    if r !in Refs(items[k - 1], IndexPath(front, k - 1)) { i := ItemOf(items, front, k - 1, r); }
  }

  // ---- The tree with its references filled in ----

  function Drop(outputs: seq<string>, n: nat): seq<string> { if n <= |outputs| then outputs[n..] else [] }

  function Count(v: Value): nat
    decreases v, 0
  {
    match v
    case Str(text) => if IsRef(text) then 1 else 0
    case Table(entries) => CountEntries(entries, |entries|)
    case Arr(items) => CountItems(items, |items|)
    case Other(_) => 0
  }

  function CountEntries(entries: seq<Entry>, k: nat): nat
    requires k <= |entries|
    decreases entries, k
  {
    if k == 0 then 0 else CountEntries(entries, k - 1) + Count(entries[k - 1].value)
  }

  function CountItems(items: seq<Value>, k: nat): nat
    requires k <= |items|
    decreases items, k
  {
    if k == 0 then 0 else CountItems(items, k - 1) + Count(items[k - 1])
  }

  /** The outputs replace the first references in walk order; all else stays as it is. */
  function Filled(v: Value, outputs: seq<string>): Value
    decreases v, 0
  {
    match v
    case Str(text) => if IsRef(text) && outputs != [] then Str(outputs[0]) else v
    case Table(entries) => Table(FilledEntries(entries, outputs, |entries|))
    case Arr(items) => Arr(FilledItems(items, outputs, |items|))
    case Other(_) => v
  }

  function FilledEntries(entries: seq<Entry>, outputs: seq<string>, k: nat): (r: seq<Entry>)
    requires k <= |entries|
    ensures |r| == k
    decreases entries, k
  {
    if k == 0 then []
    else
      FilledEntries(entries, outputs, k - 1) +
      [Entry(entries[k - 1].key, Filled(entries[k - 1].value, Drop(outputs, CountEntries(entries, k - 1))))]
  }

  function FilledItems(items: seq<Value>, outputs: seq<string>, k: nat): (r: seq<Value>)
    requires k <= |items|
    ensures |r| == k
    decreases items, k
  {
    if k == 0 then []
    else FilledItems(items, outputs, k - 1) + [Filled(items[k - 1], Drop(outputs, CountItems(items, k - 1)))]
  }

  lemma {:induction false} RefsAreReferences(v: Value, keyPath: string)
    ensures forall r :: r in Refs(v, keyPath) ==> IsRef(r.text)
    ensures |Refs(v, keyPath)| == Count(v)
    decreases v, 0
  {
    match v
    case Str(_) =>
    case Table(entries) => RefsOfEntriesAreReferences(entries, keyPath, |entries|);
    case Arr(items) => RefsOfItemsAreReferences(items, keyPath, |items|);
    case Other(_) =>
  }

  lemma {:induction false} RefsOfEntriesAreReferences(entries: seq<Entry>, keyPath: string, k: nat)
    requires k <= |entries|
    ensures forall r :: r in RefsOfEntries(entries, keyPath, k) ==> IsRef(r.text)
    ensures |RefsOfEntries(entries, keyPath, k)| == CountEntries(entries, k)
    decreases entries, k
  {
    if k > 0 {
      RefsOfEntriesAreReferences(entries, keyPath, k - 1);
      RefsAreReferences(entries[k - 1].value, JoinKey(keyPath, entries[k - 1].key));
    }
  }

  lemma {:induction false} RefsOfItemsAreReferences(items: seq<Value>, keyPath: string, k: nat)
    requires k <= |items|
    ensures forall r :: r in RefsOfItems(items, keyPath, k) ==> IsRef(r.text)
    ensures |RefsOfItems(items, keyPath, k)| == CountItems(items, k)
    decreases items, k
  {
    if k > 0 {
      RefsOfItemsAreReferences(items, keyPath, k - 1);
      RefsAreReferences(items[k - 1], IndexPath(keyPath, k - 1));
    }
  }

  /** All references of a tree have an output, or the first one that has none ends the list. */
  lemma {:induction false} OutputsUpToTheFirstFailure(sh: Shell, refs: seq<Ref>, n: nat)
    requires forall r :: r in refs ==> IsRef(r.text)
    ensures var o := AllResolved(sh, refs, n);
      && |o.outputs| <= |refs| && (o.error.None? <==> |o.outputs| == |refs|)
      && (forall i :: 0 <= i < |o.outputs| ==> Resolved(sh, refs[i], n + i) == Ok(o.outputs[i]))
      && (o.error.Some? ==> Resolved(sh, refs[|o.outputs|], n + |o.outputs|) == Err(o.error.value))
    decreases |refs|
  {
    hide Resolved, CallOf;
    if refs != [] {
      OutputsUpToTheFirstFailure(sh, refs[1..], n + 1);
    }
  }

  lemma {:induction false} FilledWithNothing(v: Value)
    ensures Filled(v, []) == v
    decreases v, 0
  {
    match v
    case Str(_) =>
    case Table(entries) => FilledEntriesWithNothing(entries, [], |entries|, 0);
    case Arr(items) => FilledItemsWithNothing(items, [], |items|, 0);
    case Other(_) =>
  }

  /** Entries behind the last output stay as they are. */
  lemma {:induction false} FilledEntriesWithNothing(entries: seq<Entry>, outputs: seq<string>, k: nat, from: nat)
    requires from <= k <= |entries| && |outputs| <= CountEntries(entries, from)
    ensures FilledEntries(entries, outputs, k) == FilledEntries(entries, outputs, from) + entries[from..k]
    decreases entries, k
  {
    hide Filled, CountEntries, FilledEntries;
    if k > from {
      FilledEntriesWithNothing(entries, outputs, k - 1, from);
      FilledWithNothing(entries[k - 1].value);
      EntriesCountGrows(entries, from, k - 1);
      EntryBehind(entries, outputs, k);
      SliceSnoc(entries, from, k);
      Regroup(FilledEntries(entries, outputs, from), entries[from..k - 1], [entries[k - 1]]);
    }
  }

  lemma EntryBehind(entries: seq<Entry>, outputs: seq<string>, k: nat)
    requires 0 < k <= |entries| && |outputs| <= CountEntries(entries, k - 1)
    requires Filled(entries[k - 1].value, []) == entries[k - 1].value
    ensures FilledEntries(entries, outputs, k) == FilledEntries(entries, outputs, k - 1) + [entries[k - 1]]
  {
    hide Filled, CountEntries;
    var e := entries[k - 1];
    assert Drop(outputs, CountEntries(entries, k - 1)) == [];
    assert Entry(e.key, e.value) == e;
  }

  lemma {:induction false} FilledItemsWithNothing(items: seq<Value>, outputs: seq<string>, k: nat, from: nat)
    requires from <= k <= |items| && |outputs| <= CountItems(items, from)
    ensures FilledItems(items, outputs, k) == FilledItems(items, outputs, from) + items[from..k]
    decreases items, k
  {
    hide Filled, CountItems, FilledItems;
    if k > from {
      FilledItemsWithNothing(items, outputs, k - 1, from);
      FilledWithNothing(items[k - 1]);
      ItemsCountGrows(items, from, k - 1);
      ItemBehind(items, outputs, k);
      SliceSnoc(items, from, k);
      Regroup(FilledItems(items, outputs, from), items[from..k - 1], [items[k - 1]]);
    }
  }

  lemma ItemBehind(items: seq<Value>, outputs: seq<string>, k: nat)
    requires 0 < k <= |items| && |outputs| <= CountItems(items, k - 1)
    requires Filled(items[k - 1], []) == items[k - 1]
    ensures FilledItems(items, outputs, k) == FilledItems(items, outputs, k - 1) + [items[k - 1]]
  {
    hide Filled, CountItems;
    assert Drop(outputs, CountItems(items, k - 1)) == [];
  }

  lemma {:induction false} EntriesCountGrows(entries: seq<Entry>, j: nat, k: nat)
    requires j <= k <= |entries|
    ensures CountEntries(entries, j) <= CountEntries(entries, k)
    decreases k
  {
    if j < k { EntriesCountGrows(entries, j, k - 1); }
  }

  lemma {:induction false} ItemsCountGrows(items: seq<Value>, j: nat, k: nat)
    requires j <= k <= |items|
    ensures CountItems(items, j) <= CountItems(items, k)
    decreases k
  {
    if j < k { ItemsCountGrows(items, j, k - 1); }
  }

  /** Only as many outputs as there are references matter. */
  lemma {:induction false} FilledIgnoresTheRest(v: Value, outputs: seq<string>, more: seq<string>)
    requires |outputs| >= Count(v)
    ensures Filled(v, outputs + more) == Filled(v, outputs)
    decreases v, 0
  {
    match v
    case Str(_) =>
    case Table(entries) => FilledEntriesIgnoreTheRest(entries, outputs, more, |entries|);
    case Arr(items) => FilledItemsIgnoreTheRest(items, outputs, more, |items|);
    case Other(_) =>
  }

  lemma {:induction false} FilledEntriesIgnoreTheRest(
      entries: seq<Entry>, outputs: seq<string>, more: seq<string>, k: nat)
    requires k <= |entries| && |outputs| >= CountEntries(entries, k)
    ensures FilledEntries(entries, outputs + more, k) == FilledEntries(entries, outputs, k)
    decreases entries, k
  {
    hide Filled, Count, CountEntries, FilledEntries, Drop;
    if k > 0 {
      OneMoreEntry(entries, outputs, k);
      OneMoreEntry(entries, outputs + more, k);
      FilledEntriesIgnoreTheRest(entries, outputs, more, k - 1);
      var n := CountEntries(entries, k - 1);
      DropSum(outputs, more, n);
      FilledIgnoresTheRest(entries[k - 1].value, Drop(outputs, n), more);
    }
  }

  lemma DropSum(outputs: seq<string>, more: seq<string>, n: nat)
    requires n <= |outputs|
    ensures Drop(outputs + more, n) == Drop(outputs, n) + more && |Drop(outputs, n)| == |outputs| - n
  {
  }

  lemma OneMoreEntry(entries: seq<Entry>, outputs: seq<string>, k: nat)
    requires 0 < k <= |entries|
    ensures CountEntries(entries, k) == CountEntries(entries, k - 1) + Count(entries[k - 1].value)
    ensures FilledEntries(entries, outputs, k) == FilledEntries(entries, outputs, k - 1) +
      [Entry(entries[k - 1].key, Filled(entries[k - 1].value, Drop(outputs, CountEntries(entries, k - 1))))]
  {
    hide Filled, Count, Drop;
  }

  lemma OneMoreItem(items: seq<Value>, outputs: seq<string>, k: nat)
    requires 0 < k <= |items|
    ensures CountItems(items, k) == CountItems(items, k - 1) + Count(items[k - 1])
    ensures FilledItems(items, outputs, k) ==
      FilledItems(items, outputs, k - 1) + [Filled(items[k - 1], Drop(outputs, CountItems(items, k - 1)))]
  {
    hide Filled, Count, Drop;
  }

  lemma {:induction false} FilledItemsIgnoreTheRest(items: seq<Value>, outputs: seq<string>, more: seq<string>, k: nat)
    requires k <= |items| && |outputs| >= CountItems(items, k)
    ensures FilledItems(items, outputs + more, k) == FilledItems(items, outputs, k)
    decreases items, k
  {
    hide Filled, Count, CountItems, FilledItems, Drop;
    if k > 0 {
      OneMoreItem(items, outputs, k);
      OneMoreItem(items, outputs + more, k);
      FilledItemsIgnoreTheRest(items, outputs, more, k - 1);
      var n := CountItems(items, k - 1);
      DropSum(outputs, more, n);
      FilledIgnoresTheRest(items[k - 1], Drop(outputs, n), more);
    }
  }

  // ---- The walk ----

  /** Runs programs and keeps the log of its calls. */
  class CmdRunner {
    const sh: Shell
    var calls: seq<Call>

    constructor (sh: Shell)
      ensures this.sh == sh && calls == []
    {
      this.sh := sh;
      calls := [];
    }

    method Run(call: Call) returns (stdout: Result<string, string>)
      modifies this
      ensures calls == old(calls) + [call] && stdout == sh.run(|old(calls)|, call)
    {
      stdout := sh.run(|calls|, call);
      calls := calls + [call];
    }
  }

  method ResolveValue(text: string, keyPath: string, runner: CmdRunner) returns (r: Result<Option<string>, CmdRefError>)
    modifies runner
    ensures !IsRef(text) ==> r == Ok(None) && runner.calls == old(runner.calls)
    ensures IsRef(text) ==>
      && r == (match Resolved(runner.sh, Ref(keyPath, text), |old(runner.calls)|) { case Ok(out) => Ok(Some(out)) case Err(e) => Err(e) })
      && runner.calls == old(runner.calls) + (match CallOf(runner.sh, Ref(keyPath, text)) { case Ok(call) => [call] case Err(_) => [] })
  {
    if !(CMD_PREFIX <= text) { return Ok(None); }
    var command := runner.sh.trim(text[|CMD_PREFIX|..]);
    var parts := runner.sh.split(command);
    if parts.None? { return Err(Split(keyPath, command)); }
    if parts.value == [] { return Err(EmptyCommand(keyPath, text)); }
    var stdout := runner.Run(Call(parts.value[0], parts.value[1..]));
    if stdout.Err? { return Err(CmdRefError.Run(keyPath, command, stdout.error)); }
    var trimmed := TrimEndNewlines(stdout.value);
    if trimmed == "" { return Err(Empty(keyPath, command)); }
    r := Ok(Some(trimmed));
  }

  /** The result of a walk as the caller sees it. */
  predicate Reports(r: Result<(), CmdRefError>, error: Option<CmdRefError>)
  {
    (r.Ok? && error.None?) || (r.Err? && error == Some(r.error))
  }

  /** What the walk does to a tree, its calls and its answer, when `calls` were made before. */
  ghost predicate IsWalk(
      sh: Shell, v: Value, keyPath: string, calls: seq<Call>, v': Value, r: Result<(), CmdRefError>,
      calls': seq<Call>)
  {
    RefsAreReferences(v, keyPath);
    var o := AllResolved(sh, Refs(v, keyPath), |calls|);
    v' == Filled(v, o.outputs) && Reports(r, o.error) && calls' == calls + o.calls
  }

  method Walk(value: Value, keyPath: string, runner: CmdRunner) returns (value': Value, r: Result<(), CmdRefError>)
    modifies runner
    ensures IsWalk(runner.sh, value, keyPath, old(runner.calls), value', r, runner.calls)
    decreases value, 0
  {
    value', r := value, Ok(());
    match value
    case Str(text) =>
      var resolved := ResolveValue(text, keyPath, runner);
      if resolved.Err? { return value, Err(resolved.error); }
      if resolved.value.Some? { value' := Str(resolved.value.value); }
    case Table(entries) =>
      var entries';
      entries', r := WalkEntries(entries, keyPath, runner);
      value' := Table(entries');
    case Arr(items) =>
      var items';
      items', r := WalkItems(items, keyPath, runner);
      value' := Arr(items');
    case Other(_) =>
  }

  lemma Replaced<T>(front: seq<T>, s: seq<T>, x: T)
    requires |front| < |s|
    ensures (front + s[|front|..])[|front| := x] == front + [x] + s[|front| + 1..]
  {
  }

  method WalkEntries(
      entries: seq<Entry>, keyPath: string, runner: CmdRunner)
    returns (entries': seq<Entry>, r: Result<(), CmdRefError>)
    modifies runner
    ensures IsWalk(runner.sh, Table(entries), keyPath, old(runner.calls), Table(entries'), r, runner.calls)
    decreases entries, 0
  {
    hide *;
    entries', r := entries, Ok(());
    EntriesStart(runner.sh, entries, keyPath, runner.calls);
    for i := 0 to |entries|
      invariant |entries'| == |entries|
      invariant EntriesDone(runner.sh, entries, keyPath, old(runner.calls), i, entries', r, runner.calls) && r.Ok?
    {
      ghost var before, ok := runner.calls, r;
      var child;
      child, r := Walk(entries[i].value, JoinKey(keyPath, entries[i].key), runner);
      EntriesStep(runner.sh, entries, keyPath, old(runner.calls), i, entries', ok, before, child, r, runner.calls);
      entries' := entries'[i := Entry(entries[i].key, child)];
      if r.Err? {
        EntriesEnd(runner.sh, entries, keyPath, old(runner.calls), i + 1, entries', r, runner.calls);
        return;
      }
    }
    EntriesEnd(runner.sh, entries, keyPath, old(runner.calls), |entries|, entries', r, runner.calls);
  }

  /** The outcome of the references in the first `i` entries. */
  ghost function EntriesOutcome(sh: Shell, entries: seq<Entry>, keyPath: string, n: nat, i: nat): Outcome
    requires i <= |entries|
  {
    RefsOfEntriesAreReferences(entries, keyPath, i);
    AllResolved(sh, RefsOfEntries(entries, keyPath, i), n)
  }

  /** The first `i` entries have been walked: they are filled in, the others are as they were. */
  ghost predicate EntriesDone(
      sh: Shell, entries: seq<Entry>, keyPath: string, calls: seq<Call>, i: nat, entries': seq<Entry>,
      r: Result<(), CmdRefError>, calls': seq<Call>)
    requires i <= |entries|
  {
    var o := EntriesOutcome(sh, entries, keyPath, |calls|, i);
    entries' == FilledEntries(entries, o.outputs, i) + entries[i..] && Reports(r, o.error) && calls' == calls + o.calls
  }

  lemma EntriesStart(sh: Shell, entries: seq<Entry>, keyPath: string, calls: seq<Call>)
    ensures EntriesDone(sh, entries, keyPath, calls, 0, entries, Ok(()), calls)
  {
  }

  lemma EntriesOutcomeStep(sh: Shell, entries: seq<Entry>, keyPath: string, n: nat, i: nat)
    requires i < |entries|
    ensures forall r :: r in Refs(entries[i].value, JoinKey(keyPath, entries[i].key)) ==> IsRef(r.text)
    ensures EntriesOutcome(sh, entries, keyPath, n, i + 1) ==
      Then(sh, EntriesOutcome(sh, entries, keyPath, n, i), Refs(entries[i].value, JoinKey(keyPath, entries[i].key)), n)
    ensures EntriesOutcome(sh, entries, keyPath, n, i).error.None? ==>
      |EntriesOutcome(sh, entries, keyPath, n, i).outputs| == CountEntries(entries, i)
    ensures |EntriesOutcome(sh, entries, keyPath, n, i + 1).outputs| <= CountEntries(entries, i + 1)
  {
    hide Refs, AllResolved, Resolved, CallOf, CountEntries;
    RefsOfEntriesAreReferences(entries, keyPath, i);
    RefsOfEntriesAreReferences(entries, keyPath, i + 1);
    RefsAreReferences(entries[i].value, JoinKey(keyPath, entries[i].key));
    ResolvedConcat(sh, RefsOfEntries(entries, keyPath, i), Refs(entries[i].value, JoinKey(keyPath, entries[i].key)), n);
    OutputsUpToTheFirstFailure(sh, RefsOfEntries(entries, keyPath, i), n);
    OutputsUpToTheFirstFailure(sh, RefsOfEntries(entries, keyPath, i + 1), n);
  }

  lemma EntriesStep(
      sh: Shell, entries: seq<Entry>, keyPath: string, calls: seq<Call>, i: nat, entries': seq<Entry>,
      ok: Result<(), CmdRefError>, before: seq<Call>, child: Value, r: Result<(), CmdRefError>, calls': seq<Call>)
    requires i < |entries| == |entries'| && ok.Ok? && EntriesDone(sh, entries, keyPath, calls, i, entries', ok, before)
    requires IsWalk(sh, entries[i].value, JoinKey(keyPath, entries[i].key), before, child, r, calls')
    ensures EntriesDone(sh, entries, keyPath, calls, i + 1, entries'[i := Entry(entries[i].key, child)], r, calls')
  {
    hide Refs, AllResolved, Filled, Resolved, FilledEntries, EntriesOutcome, CountEntries;
    var o := EntriesOutcome(sh, entries, keyPath, |calls|, i);
    EntriesOutcomeStep(sh, entries, keyPath, |calls|, i);
    var b := AllResolved(sh, Refs(entries[i].value, JoinKey(keyPath, entries[i].key)), |calls + o.calls|);
    Regroup(calls, o.calls, b.calls);
    EntryFilled(entries, o.outputs, b.outputs, i);
    Replaced(FilledEntries(entries, o.outputs, i), entries, Entry(entries[i].key, child));
  }

  lemma EntryFilled(entries: seq<Entry>, outputs: seq<string>, more: seq<string>, i: nat)
    requires i < |entries| && |outputs| == CountEntries(entries, i)
    ensures FilledEntries(entries, outputs + more, i + 1) ==
      FilledEntries(entries, outputs, i) + [Entry(entries[i].key, Filled(entries[i].value, more))]
  {
    hide Filled;
    FilledEntriesIgnoreTheRest(entries, outputs, more, i);
    assert (outputs + more)[|outputs|..] == more;
  }

  /** The walk ends after the first `i` entries: these are all, or hold the first failure, and the rest stays as it was. */
  lemma EntriesEnd(
      sh: Shell, entries: seq<Entry>, keyPath: string, calls: seq<Call>, i: nat, entries': seq<Entry>,
      r: Result<(), CmdRefError>, calls': seq<Call>)
    requires i <= |entries| && EntriesDone(sh, entries, keyPath, calls, i, entries', r, calls')
    requires (r.Err? || i == |entries|)
    ensures IsWalk(sh, Table(entries), keyPath, calls, Table(entries'), r, calls')
  {
    hide AllResolved, FilledEntries, CountEntries;
    RefsOfEntriesAreReferences(entries, keyPath, i);
    OutputsUpToTheFirstFailure(sh, RefsOfEntries(entries, keyPath, i), |calls|);
    EntriesFailure(sh, entries, keyPath, |calls|, i, |entries|);
    FilledEntriesWithNothing(entries, EntriesOutcome(sh, entries, keyPath, |calls|, i).outputs, |entries|, i);
    assert entries[i..|entries|] == entries[i..];
  }

  lemma {:induction false} EntriesFailure(sh: Shell, entries: seq<Entry>, keyPath: string, n: nat, i: nat, k: nat)
    requires i <= k <= |entries|
    requires EntriesOutcome(sh, entries, keyPath, n, i).error.Some? || i == k
    ensures EntriesOutcome(sh, entries, keyPath, n, k) == EntriesOutcome(sh, entries, keyPath, n, i)
    decreases k
  {
    hide EntriesOutcome, AllResolved, Refs;
    if i < k {
      EntriesFailure(sh, entries, keyPath, n, i, k - 1);
      EntriesOutcomeStep(sh, entries, keyPath, n, k - 1);
    }
  }

  method WalkItems(
      items: seq<Value>, keyPath: string, runner: CmdRunner) returns (items': seq<Value>, r: Result<(), CmdRefError>)
    modifies runner
    ensures IsWalk(runner.sh, Arr(items), keyPath, old(runner.calls), Arr(items'), r, runner.calls)
    decreases items, 0
  {
    hide *;
    items', r := items, Ok(());
    ItemsStart(runner.sh, items, keyPath, runner.calls);
    for i := 0 to |items|
      invariant |items'| == |items|
      invariant ItemsDone(runner.sh, items, keyPath, old(runner.calls), i, items', r, runner.calls) && r.Ok?
    {
      ghost var before, ok := runner.calls, r;
      var child;
      child, r := Walk(items[i], IndexPath(keyPath, i), runner);
      ItemsStep(runner.sh, items, keyPath, old(runner.calls), i, items', ok, before, child, r, runner.calls);
      items' := items'[i := child];
      if r.Err? {
        ItemsEnd(runner.sh, items, keyPath, old(runner.calls), i + 1, items', r, runner.calls);
        return;
      }
    }
    ItemsEnd(runner.sh, items, keyPath, old(runner.calls), |items|, items', r, runner.calls);
  }

  /** The outcome of the references in the first `i` items. */
  ghost function ItemsOutcome(sh: Shell, items: seq<Value>, keyPath: string, n: nat, i: nat): Outcome
    requires i <= |items|
  {
    RefsOfItemsAreReferences(items, keyPath, i);
    AllResolved(sh, RefsOfItems(items, keyPath, i), n)
  }

  /** The first `i` items have been walked: they are filled in, the others are as they were. */
  ghost predicate ItemsDone(
      sh: Shell, items: seq<Value>, keyPath: string, calls: seq<Call>, i: nat, items': seq<Value>,
      r: Result<(), CmdRefError>, calls': seq<Call>)
    requires i <= |items|
  {
    var o := ItemsOutcome(sh, items, keyPath, |calls|, i);
    items' == FilledItems(items, o.outputs, i) + items[i..] && Reports(r, o.error) && calls' == calls + o.calls
  }

  lemma ItemsStart(sh: Shell, items: seq<Value>, keyPath: string, calls: seq<Call>)
    ensures ItemsDone(sh, items, keyPath, calls, 0, items, Ok(()), calls)
  {
  }

  lemma ItemsOutcomeStep(sh: Shell, items: seq<Value>, keyPath: string, n: nat, i: nat)
    requires i < |items|
    ensures forall r :: r in Refs(items[i], IndexPath(keyPath, i)) ==> IsRef(r.text)
    ensures ItemsOutcome(sh, items, keyPath, n, i + 1) ==
      Then(sh, ItemsOutcome(sh, items, keyPath, n, i), Refs(items[i], IndexPath(keyPath, i)), n)
    ensures ItemsOutcome(sh, items, keyPath, n, i).error.None? ==>
      |ItemsOutcome(sh, items, keyPath, n, i).outputs| == CountItems(items, i)
    ensures |ItemsOutcome(sh, items, keyPath, n, i + 1).outputs| <= CountItems(items, i + 1)
  {
    hide Refs, AllResolved, Resolved, CallOf, CountItems;
    RefsOfItemsAreReferences(items, keyPath, i);
    RefsOfItemsAreReferences(items, keyPath, i + 1);
    RefsAreReferences(items[i], IndexPath(keyPath, i));
    ResolvedConcat(sh, RefsOfItems(items, keyPath, i), Refs(items[i], IndexPath(keyPath, i)), n);
    OutputsUpToTheFirstFailure(sh, RefsOfItems(items, keyPath, i), n);
    OutputsUpToTheFirstFailure(sh, RefsOfItems(items, keyPath, i + 1), n);
  }

  lemma ItemsStep(
      sh: Shell, items: seq<Value>, keyPath: string, calls: seq<Call>, i: nat, items': seq<Value>,
      ok: Result<(), CmdRefError>, before: seq<Call>, child: Value, r: Result<(), CmdRefError>, calls': seq<Call>)
    requires i < |items| == |items'| && ok.Ok? && ItemsDone(sh, items, keyPath, calls, i, items', ok, before)
    requires IsWalk(sh, items[i], IndexPath(keyPath, i), before, child, r, calls')
    ensures ItemsDone(sh, items, keyPath, calls, i + 1, items'[i := child], r, calls')
  {
    hide Refs, AllResolved, Filled, Resolved, FilledItems, ItemsOutcome, CountItems;
    var o := ItemsOutcome(sh, items, keyPath, |calls|, i);
    ItemsOutcomeStep(sh, items, keyPath, |calls|, i);
    var b := AllResolved(sh, Refs(items[i], IndexPath(keyPath, i)), |calls + o.calls|);
    Regroup(calls, o.calls, b.calls);
    ItemFilled(items, o.outputs, b.outputs, i);
    Replaced(FilledItems(items, o.outputs, i), items, child);
  }

  lemma ItemFilled(items: seq<Value>, outputs: seq<string>, more: seq<string>, i: nat)
    requires i < |items| && |outputs| == CountItems(items, i)
    ensures FilledItems(items, outputs + more, i + 1) == FilledItems(items, outputs, i) + [Filled(items[i], more)]
  {
    hide Filled;
    FilledItemsIgnoreTheRest(items, outputs, more, i);
    assert (outputs + more)[|outputs|..] == more;
  }

  /** The walk ends after the first `i` items: these are all, or hold the first failure, and the rest stays as it was. */
  lemma ItemsEnd(
      sh: Shell, items: seq<Value>, keyPath: string, calls: seq<Call>, i: nat, items': seq<Value>,
      r: Result<(), CmdRefError>, calls': seq<Call>)
    requires i <= |items| && ItemsDone(sh, items, keyPath, calls, i, items', r, calls') && (r.Err? || i == |items|)
    ensures IsWalk(sh, Arr(items), keyPath, calls, Arr(items'), r, calls')
  {
    hide AllResolved, FilledItems, CountItems;
    RefsOfItemsAreReferences(items, keyPath, i);
    OutputsUpToTheFirstFailure(sh, RefsOfItems(items, keyPath, i), |calls|);
    ItemsFailure(sh, items, keyPath, |calls|, i, |items|);
    FilledItemsWithNothing(items, ItemsOutcome(sh, items, keyPath, |calls|, i).outputs, |items|, i);
    assert items[i..|items|] == items[i..];
  }

  lemma {:induction false} ItemsFailure(sh: Shell, items: seq<Value>, keyPath: string, n: nat, i: nat, k: nat)
    requires i <= k <= |items|
    requires ItemsOutcome(sh, items, keyPath, n, i).error.Some? || i == k
    ensures ItemsOutcome(sh, items, keyPath, n, k) == ItemsOutcome(sh, items, keyPath, n, i)
    decreases k
  {
    hide ItemsOutcome, AllResolved, Refs;
    if i < k {
      ItemsFailure(sh, items, keyPath, n, i, k - 1);
      ItemsOutcomeStep(sh, items, keyPath, n, k - 1);
    }
  }

  // ---- What a walk amounts to ----

  /** The string leaves of a tree, in walk order. */
  function Leaves(v: Value): seq<string>
    decreases v, 0
  {
    match v
    case Str(text) => [text]
    case Table(entries) => LeavesOfEntries(entries, |entries|)
    case Arr(items) => LeavesOfItems(items, |items|)
    case Other(_) => []
  }

  function LeavesOfEntries(entries: seq<Entry>, k: nat): seq<string>
    requires k <= |entries|
    decreases entries, k
  {
    if k == 0 then [] else LeavesOfEntries(entries, k - 1) + Leaves(entries[k - 1].value)
  }

  function LeavesOfItems(items: seq<Value>, k: nat): seq<string>
    requires k <= |items|
    decreases items, k
  {
    if k == 0 then [] else LeavesOfItems(items, k - 1) + Leaves(items[k - 1])
  }

  /** The tree without the text of its strings: its shape, its keys and its other values. */
  function Skeleton(v: Value): Value
    decreases v, 0
  {
    match v
    case Str(_) => Str("")
    case Table(entries) => Table(SkeletonOfEntries(entries, |entries|))
    case Arr(items) => Arr(SkeletonOfItems(items, |items|))
    case Other(_) => v
  }

  function SkeletonOfEntries(entries: seq<Entry>, k: nat): seq<Entry>
    requires k <= |entries|
    decreases entries, k
  {
    if k == 0 then [] else SkeletonOfEntries(entries, k - 1) + [Entry(entries[k - 1].key, Skeleton(entries[k - 1].value))]
  }

  function SkeletonOfItems(items: seq<Value>, k: nat): seq<Value>
    requires k <= |items|
    decreases items, k
  {
    if k == 0 then [] else SkeletonOfItems(items, k - 1) + [Skeleton(items[k - 1])]
  }

  function RefCount(leaves: seq<string>): nat
  {
    if leaves == [] then 0 else RefCount(leaves[..|leaves| - 1]) + if IsRef(leaves[|leaves| - 1]) then 1 else 0
  }

  /** The leaves with the first references replaced by the outputs, in order, and everything else as it was. */
  function Substituted(leaves: seq<string>, outputs: seq<string>): (r: seq<string>)
    ensures |r| == |leaves|
  {
    if leaves == [] then []
    else
      var init, leaf := leaves[..|leaves| - 1], leaves[|leaves| - 1];
      Substituted(init, outputs) + [if IsRef(leaf) && RefCount(init) < |outputs| then outputs[RefCount(init)] else leaf]
  }

  lemma {:induction false} RefCountConcat(xs: seq<string>, ys: seq<string>)
    ensures RefCount(xs + ys) == RefCount(xs) + RefCount(ys)
  {
    if ys == [] {
      assert xs + ys == xs;
    } else {
      assert (xs + ys)[..|xs + ys| - 1] == xs + ys[..|ys| - 1];
      RefCountConcat(xs, ys[..|ys| - 1]);
    }
  }

  lemma {:induction false} SubstitutedConcat(xs: seq<string>, ys: seq<string>, outputs: seq<string>)
    ensures Substituted(xs + ys, outputs) == Substituted(xs, outputs) + Substituted(ys, Drop(outputs, RefCount(xs)))
  {
    if ys == [] {
      assert xs + ys == xs;
    } else {
      assert (xs + ys)[..|xs + ys| - 1] == xs + ys[..|ys| - 1];
      var init, leaf := ys[..|ys| - 1], ys[|ys| - 1];
      var rest := Drop(outputs, RefCount(xs));
      SubstitutedConcat(xs, init, outputs);
      RefCountConcat(xs, init);
      assert IsRef(leaf) && RefCount(xs + init) < |outputs| ==> outputs[RefCount(xs + init)] == rest[RefCount(init)];
      Regroup(Substituted(xs, outputs), Substituted(init, rest), [Substituted(ys, rest)[|ys| - 1]]);
    }
  }

  lemma {:induction false} LeavesHoldTheReferences(v: Value)
    ensures RefCount(Leaves(v)) == Count(v)
    decreases v, 0
  {
    match v
    case Str(text) => assert [text][..0] == [];
    case Table(entries) => EntryLeavesHoldTheReferences(entries, |entries|);
    case Arr(items) => ItemLeavesHoldTheReferences(items, |items|);
    case Other(_) =>
  }

  lemma {:induction false} EntryLeavesHoldTheReferences(entries: seq<Entry>, k: nat)
    requires k <= |entries|
    ensures RefCount(LeavesOfEntries(entries, k)) == CountEntries(entries, k)
    decreases entries, k
  {
    if k > 0 {
      EntryLeavesHoldTheReferences(entries, k - 1);
      LeavesHoldTheReferences(entries[k - 1].value);
      RefCountConcat(LeavesOfEntries(entries, k - 1), Leaves(entries[k - 1].value));
    }
  }

  lemma {:induction false} ItemLeavesHoldTheReferences(items: seq<Value>, k: nat)
    requires k <= |items|
    ensures RefCount(LeavesOfItems(items, k)) == CountItems(items, k)
    decreases items, k
  {
    if k > 0 {
      ItemLeavesHoldTheReferences(items, k - 1);
      LeavesHoldTheReferences(items[k - 1]);
      RefCountConcat(LeavesOfItems(items, k - 1), Leaves(items[k - 1]));
    }
  }

  /**
   * Filling in is a map over the string leaves: shape, keys and other values stay, and the leaves are the old ones
   * with the references replaced in walk order.
   */
  lemma {:induction false} FillingIsALeafMap(v: Value, outputs: seq<string>)
    ensures Skeleton(Filled(v, outputs)) == Skeleton(v)
    ensures Leaves(Filled(v, outputs)) == Substituted(Leaves(v), outputs)
    decreases v, 0
  {
    match v
    case Str(text) => assert [text][..0] == [];
    case Table(entries) =>
      EntriesFillingIsALeafMap(entries, outputs, FilledEntries(entries, outputs, |entries|), |entries|);
    case Arr(items) =>
      ItemsFillingIsALeafMap(items, outputs, FilledItems(items, outputs, |items|), |items|);
    case Other(_) =>
  }

  lemma {:induction false} EntriesFillingIsALeafMap(
      entries: seq<Entry>, outputs: seq<string>, filled: seq<Entry>, k: nat)
    requires k <= |entries| == |filled| && filled[..k] == FilledEntries(entries, outputs, k)
    ensures SkeletonOfEntries(filled, k) == SkeletonOfEntries(entries, k)
    ensures LeavesOfEntries(filled, k) == Substituted(LeavesOfEntries(entries, k), outputs)
    decreases entries, k
  {
    hide Filled, Skeleton, Leaves, Substituted, CountEntries, RefCount, FilledEntries;
    if k == 0 {
      NoLeaves(outputs);
    } else {
      var rest := Drop(outputs, CountEntries(entries, k - 1));
      EntriesPrefix(entries, outputs, filled, k);
      EntriesFillingIsALeafMap(entries, outputs, filled, k - 1);
      FillingIsALeafMap(entries[k - 1].value, rest);
      EntryLeavesHoldTheReferences(entries, k - 1);
      SubstitutedConcat(LeavesOfEntries(entries, k - 1), Leaves(entries[k - 1].value), outputs);
    }
  }

  lemma EntriesPrefix(entries: seq<Entry>, outputs: seq<string>, filled: seq<Entry>, k: nat)
    requires 0 < k <= |entries| == |filled| && filled[..k] == FilledEntries(entries, outputs, k)
    ensures filled[..k - 1] == FilledEntries(entries, outputs, k - 1)
    ensures filled[k - 1] == Entry(entries[k - 1].key, Filled(entries[k - 1].value, Drop(outputs, CountEntries(entries, k - 1))))
  {
    hide Filled, CountEntries;
    assert filled[..k][..k - 1] == filled[..k - 1] && filled[..k][k - 1] == filled[k - 1];
  }

  lemma NoLeaves(outputs: seq<string>)
    ensures Substituted([], outputs) == []
  {
  }

  lemma {:induction false} ItemsFillingIsALeafMap(items: seq<Value>, outputs: seq<string>, filled: seq<Value>, k: nat)
    requires k <= |items| == |filled| && filled[..k] == FilledItems(items, outputs, k)
    ensures SkeletonOfItems(filled, k) == SkeletonOfItems(items, k)
    ensures LeavesOfItems(filled, k) == Substituted(LeavesOfItems(items, k), outputs)
    decreases items, k
  {
    hide Filled, Skeleton, Leaves, Substituted, CountItems, RefCount, FilledItems;
    if k == 0 {
      NoLeaves(outputs);
    } else {
      var rest := Drop(outputs, CountItems(items, k - 1));
      ItemsPrefix(items, outputs, filled, k);
      ItemsFillingIsALeafMap(items, outputs, filled, k - 1);
      FillingIsALeafMap(items[k - 1], rest);
      ItemLeavesHoldTheReferences(items, k - 1);
      SubstitutedConcat(LeavesOfItems(items, k - 1), Leaves(items[k - 1]), outputs);
    }
  }

  lemma ItemsPrefix(items: seq<Value>, outputs: seq<string>, filled: seq<Value>, k: nat)
    requires 0 < k <= |items| == |filled| && filled[..k] == FilledItems(items, outputs, k)
    ensures filled[..k - 1] == FilledItems(items, outputs, k - 1)
    ensures filled[k - 1] == Filled(items[k - 1], Drop(outputs, CountItems(items, k - 1)))
  {
    hide Filled, CountItems;
    assert filled[..k][..k - 1] == filled[..k - 1] && filled[..k][k - 1] == filled[k - 1];
  }

  /** The calls a list of references makes when all of them have an output. */
  lemma {:induction false} CallsOfASuccess(sh: Shell, refs: seq<Ref>, n: nat)
    requires forall r :: r in refs ==> IsRef(r.text)
    ensures var o := AllResolved(sh, refs, n);
      && |o.calls| <= |refs|
      && (forall i :: 0 <= i < |o.calls| ==> CallOf(sh, refs[i]) == Ok(o.calls[i]))
      && (o.error.None? ==> |o.calls| == |refs|)
      && (o.error.Some? ==> |o.outputs| <= |o.calls| <= |o.outputs| + 1)
    decreases |refs|
  {
    hide Resolved, CallOf;
    if refs != [] {
      CallsOfASuccess(sh, refs[1..], n + 1);
      OutputNeedsACall(sh, refs[0], n);
    }
  }

  /** The path a failure names. */
  function PathOf(e: CmdRefError): string { e.keyPath }

  lemma FailureNamesItsReference(sh: Shell, r: Ref, n: nat)
    requires IsRef(r.text)
    ensures Resolved(sh, r, n).Err? ==> PathOf(Resolved(sh, r, n).error) == r.keyPath
  {
  }

  /** The outcome of the references of a tree, in walk order. */
  ghost function WalkOutcome(sh: Shell, v: Value, keyPath: string, n: nat): Outcome
  {
    RefsAreReferences(v, keyPath);
    AllResolved(sh, Refs(v, keyPath), n)
  }

  /**
   * A walk is a leaf map: it keeps the shape, the keys and every string that is no reference, and replaces the
   * references before the first failing one by their own outputs, in walk order. After a walk that succeeded exactly
   * those outputs that look like references are left as such: an output is never resolved again.
   */
  lemma WalkIsALeafMap(
      sh: Shell, v: Value, keyPath: string, calls: seq<Call>, v': Value, r: Result<(), CmdRefError>,
      calls': seq<Call>)
    requires IsWalk(sh, v, keyPath, calls, v', r, calls')
    ensures Skeleton(v') == Skeleton(v)
    ensures Leaves(v') == Substituted(Leaves(v), WalkOutcome(sh, v, keyPath, |calls|).outputs)
    ensures r.Ok? ==> Count(v') == RefCount(WalkOutcome(sh, v, keyPath, |calls|).outputs)
  {
    hide Refs, Leaves, Skeleton, Filled, AllResolved, Resolved, CallOf, Substituted, RefCount, Count;
    var outputs := WalkOutcome(sh, v, keyPath, |calls|).outputs;
    FillingIsALeafMap(v, outputs);
    LeavesHoldTheReferences(v);
    LeavesHoldTheReferences(v');
    RefsAreReferences(v, keyPath);
    OutputsUpToTheFirstFailure(sh, Refs(v, keyPath), |calls|);
    if r.Ok? {
      ReferencesLeft(Leaves(v), outputs);
      assert outputs[..|outputs|] == outputs;
    }
  }

  lemma {:induction false} ReferencesLeft(leaves: seq<string>, outputs: seq<string>)
    requires RefCount(leaves) <= |outputs|
    ensures RefCount(Substituted(leaves, outputs)) == RefCount(outputs[..RefCount(leaves)])
  {
    if leaves == [] {
      assert outputs[..0] == [];
    } else {
      var init, leaf := leaves[..|leaves| - 1], leaves[|leaves| - 1];
      var n := RefCount(init);
      ReferencesLeft(init, outputs);
      if IsRef(leaf) {
        assert outputs[..n + 1] == outputs[..n] + [outputs[n]];
        RefCountSnoc(outputs[..n], outputs[n]);
        RefCountSnoc(Substituted(init, outputs), outputs[n]);
      } else {
        RefCountSnoc(Substituted(init, outputs), leaf);
      }
    }
  }

  lemma RefCountSnoc(xs: seq<string>, x: string)
    ensures RefCount(xs + [x]) == RefCount(xs) + if IsRef(x) then 1 else 0
  {
    assert (xs + [x])[..|xs|] == xs;
  }

  /** The walk succeeds iff every reference has an output, and else reports the error and path of the first that has none. */
  lemma WalkFailsAtTheFirst(
      sh: Shell, v: Value, keyPath: string, calls: seq<Call>, v': Value, r: Result<(), CmdRefError>,
      calls': seq<Call>)
    requires IsWalk(sh, v, keyPath, calls, v', r, calls')
    ensures (forall q :: q in Refs(v, keyPath) ==> IsRef(q.text)) && |Refs(v, keyPath)| == Count(v)
    ensures var refs, outputs, n := Refs(v, keyPath), WalkOutcome(sh, v, keyPath, |calls|).outputs, |calls|;
      && |outputs| <= |refs|
      && (forall i :: 0 <= i < |outputs| ==> Resolved(sh, refs[i], n + i) == Ok(outputs[i]))
      && (r.Ok? <==> |outputs| == |refs|)
      && (r.Err? ==> Resolved(sh, refs[|outputs|], n + |outputs|) == Err(r.error) && r.error.keyPath == refs[|outputs|].keyPath)
  {
    hide Refs, Filled, AllResolved, Resolved, CallOf, Count;
    RefsAreReferences(v, keyPath);
    var refs, n := Refs(v, keyPath), |calls|;
    var o := AllResolved(sh, refs, n);
    OutputsUpToTheFirstFailure(sh, refs, n);
    if o.error.Some? { FailureNamesItsReference(sh, refs[|o.outputs|], n + |o.outputs|); }
  }

  /** The calls are those of the references of the original tree, each made once and in walk order, up to the failure. */
  lemma WalkCallsReferencesInOrder(
      sh: Shell, v: Value, keyPath: string, calls: seq<Call>, v': Value, r: Result<(), CmdRefError>,
      calls': seq<Call>)
    requires IsWalk(sh, v, keyPath, calls, v', r, calls')
    ensures forall q :: q in Refs(v, keyPath) ==> IsRef(q.text)
    ensures calls <= calls' && |calls'| - |calls| <= |Refs(v, keyPath)| && (r.Ok? ==> |calls'| - |calls| == |Refs(v, keyPath)|)
    ensures r.Err? ==>
      var outputs := WalkOutcome(sh, v, keyPath, |calls|).outputs;
      |outputs| <= |calls'| - |calls| <= |outputs| + 1
    ensures forall i :: 0 <= i < |calls'| - |calls| ==> CallOf(sh, Refs(v, keyPath)[i]) == Ok(calls'[|calls| + i])
  {
    hide Refs, Filled, AllResolved, CallOf;
    RefsAreReferences(v, keyPath);
    var refs, n := Refs(v, keyPath), |calls|;
    var o := AllResolved(sh, refs, n);
    CallsOfASuccess(sh, refs, n);
    assert forall i :: 0 <= i < |o.calls| ==> calls'[n + i] == o.calls[i];
  }
}
