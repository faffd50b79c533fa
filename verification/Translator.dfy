/** Translating the events of one session into client updates, and matching tool completions to their starts. */
module Translator {
  import opened Options
  import opened Sequences
  import opened Text
  import opened UnifiedDiff

  // ---- Events and updates ----

  datatype Section = DiffSection(path: string, text: string) | PlainSection(text: string)

  datatype SystemEvent =
    | InferenceChunk(delta: string)
    | ToolStarted(name: string, arguments: string, line: string)
    | ToolCompleted(name: string, arguments: string, success: bool, display: Option<seq<Section>>, message: Option<string>)
    | InferenceCompleted(totalTokens: Option<nat>)
    | CompactionStarted(source: string)
    | CompactionCompleted(source: string, preview: string)
    | CompactionFailed(source: string, message': string)
    | Warning(text: string)
    | PermissionRequested(requestId: string, toolKey: string)
    | CompactionRequested
    | Unmapped

  datatype Content = DiffContent(path: string, oldText: Option<string>, newText: string) | TextContent(text: string)

  datatype ToolKind = ReadTool | EditTool | SearchTool | ExecuteTool | FetchTool | OtherTool

  function KindOf(name: string): (kind: ToolKind)
    ensures kind == ReadTool <==> name == "read" || "ast_" <= name
    ensures kind == EditTool <==> name == "edit"
    ensures kind == SearchTool <==> name == "grep" || name == "glob"
    ensures kind == ExecuteTool <==> name == "nu" || "tmux_" <= name
    ensures kind == FetchTool <==> name == "http"
  {
    assert ("ast_" <= name ==> name[0] == 'a') && ("tmux_" <= name ==> name[0] == 't');
    if name == "read" then ReadTool
    else if name == "edit" then EditTool
    else if name == "grep" || name == "glob" then SearchTool
    else if name == "nu" then ExecuteTool
    else if name == "http" then FetchTool
    else if name == "skill" then OtherTool
    else if "ast_" <= name then ReadTool
    else if "tmux_" <= name then ExecuteTool
    else OtherTool
  }

  datatype Update =
    | AgentText(text: string)
    | Called(id: string, title: string, name: string, kind: ToolKind)
    | Finished(id: string, success: bool, content: seq<Content>)
    | Usage(used: nat, size: nat)
    | CompactionInfo(state: string, source: string, detail: Option<string>)

  function SectionContent(s: Section): Content
  {
    match s
    case DiffSection(path, text) => var sides := Answer(TakeAll(Nothing, Lines(text))); DiffContent(path, sides.0, sides.1)
    case PlainSection(text) => TextContent(text)
  }

  function DisplayContent(sections: seq<Section>): (r: seq<Content>)
    ensures |r| == |sections|
  {
    if sections == [] then [] else DisplayContent(sections[..|sections| - 1]) + [SectionContent(sections[|sections| - 1])]
  }

  /** The display's sections, or the message when there is nothing to display. */
  function OutcomeContent(display: Option<seq<Section>>, message: Option<string>): seq<Content>
  {
    if display.Some? && display.value != [] then DisplayContent(display.value)
    else if message.Some? then [TextContent(message.value)]
    else []
  }

  // ---- Call ids ----

  function IdText(name: string, seqNo: nat): string { name + "-" + Decimal(seqNo) }

  lemma LastDash(a: string, x: string, b: string, y: string)
    requires a + "-" + x == b + "-" + y && '-' !in x && '-' !in y
    ensures x == y
  {
    var s := a + "-" + x;
    assert s[|a|] == '-' && s[|b|] == '-';
    assert forall k :: |a| < k < |s| ==> s[k] == x[k - |a| - 1] && s[k] in x;
    assert forall k :: |b| < k < |s| ==> s[k] == y[k - |b| - 1] && s[k] in y;
    assert |a| == |b|;
    assert x == s[|a| + 1..] && y == s[|b| + 1..];
  }

  /** Different sequence numbers give different ids, whatever dashes and digits the names hold. */
  lemma IdsAreDistinct(name: string, m: nat, other: string, n: nat)
    requires IdText(name, m) == IdText(other, n)
    ensures m == n && name == other
  {
    LastDash(name, Decimal(m), other, Decimal(n));
    DecimalInjective(m, n);
    assert name == IdText(name, m)[..|name|] && other == IdText(other, n)[..|other|];
  }

  // ---- The translator as a value ----

  datatype PendingCall = PendingCall(name: string, arguments: string, id: string)

  datatype Tr = Tr(next: nat, pending: seq<PendingCall>, window: nat)

  predicate IsFor(p: PendingCall, name: string, arguments: string) { p.name == name && p.arguments == arguments }

  function Position(pending: seq<PendingCall>, name: string, arguments: string): (i: nat)
    ensures i <= |pending|
    ensures i < |pending| ==> IsFor(pending[i], name, arguments)
    ensures forall j :: 0 <= j < i ==> !IsFor(pending[j], name, arguments)
  {
    if pending == [] || IsFor(pending[0], name, arguments) then 0 else 1 + Position(pending[1..], name, arguments)
  }

  function Start(t: Tr, name: string, arguments: string): Tr
  {
    t.(next := t.next + 1, pending := t.pending + [PendingCall(name, arguments, IdText(name, t.next))])
  }

  /** Taking the oldest start of the call, or minting an id when there is none. */
  function Complete(t: Tr, name: string, arguments: string): (Tr, string)
  {
    var i := Position(t.pending, name, arguments);
    if i < |t.pending| then (t.(pending := t.pending[..i] + t.pending[i + 1..]), t.pending[i].id)
    else (t.(next := t.next + 1), IdText(name, t.next))
  }

  function Translated(t: Tr, e: SystemEvent): (Tr, Option<Update>)
  {
    match e
    case InferenceChunk(delta) => (t, Some(AgentText(delta)))
    case ToolStarted(name, arguments, line) =>
      (Start(t, name, arguments), Some(Called(IdText(name, t.next), if line == "" then name else line, name, KindOf(name))))
    case ToolCompleted(name, arguments, success, display, message) =>
      (Complete(t, name, arguments).0,
       Some(Finished(Complete(t, name, arguments).1, success, OutcomeContent(display, message))))
    case InferenceCompleted(total) => (t, Some(Usage(if total.Some? then total.value else 0, t.window)))
    case CompactionStarted(source) => (t, Some(CompactionInfo("started", source, None)))
    case CompactionCompleted(source, preview) => (t, Some(CompactionInfo("completed", source, Some(preview))))
    case CompactionFailed(source, why) => (t, Some(CompactionInfo("failed", source, Some(why))))
    case Warning(text) => (t, Some(AgentText(text)))
    case _ => (t, None)
  }

  class EventTranslator {
    const maxContextTokens: nat
    var nextCallSeq: nat
    var pending: seq<PendingCall>

    ghost function Value(): Tr reads this { Tr(nextCallSeq, pending, maxContextTokens) }

    constructor (maxContextTokens: nat)
      ensures Value() == Tr(0, [], maxContextTokens)
    {
      nextCallSeq, pending := 0, [];
      this.maxContextTokens := maxContextTokens;
    }

    method NextCallId(name: string) returns (id: string)
      modifies this`nextCallSeq
      ensures id == IdText(name, old(nextCallSeq)) && nextCallSeq == old(nextCallSeq) + 1
    {
      var seqNo := nextCallSeq;
      nextCallSeq := nextCallSeq + 1;
      id := IdText(name, seqNo);
    }

    method AllocateCallId(name: string, arguments: string) returns (id: string)
      modifies this
      ensures Value() == Start(old(Value()), name, arguments) && id == IdText(name, old(nextCallSeq))
    {
      id := NextCallId(name);
      pending := pending + [PendingCall(name, arguments, id)];
    }

    method TakeCallId(name: string, arguments: string) returns (id: string)
      modifies this
      ensures (Value(), id) == Complete(old(Value()), name, arguments)
    {
      var i := 0;
      while i < |pending| && !(pending[i].name == name && pending[i].arguments == arguments)
        invariant i <= |pending|
        invariant forall j :: 0 <= j < i ==> !IsFor(pending[j], name, arguments)
      {
        i := i + 1;
      }
      assert i == Position(pending, name, arguments);
      if i < |pending| {
        id := pending[i].id;
        pending := pending[..i] + pending[i + 1..];
      } else {
        id := NextCallId(name);
      }
    }

    method Translate(event: SystemEvent) returns (update: Option<Update>)
      modifies this
      ensures (Value(), update) == Translated(old(Value()), event)
    {
      update := None;
      match event
      case InferenceChunk(delta) => update := Some(AgentText(delta));
      case ToolStarted(name, arguments, line) =>
        var id := AllocateCallId(name, arguments);
        update := Some(Called(id, if line == "" then name else line, name, KindOf(name)));
      case ToolCompleted(name, arguments, success, display, message) =>
        var id := TakeCallId(name, arguments);
        var content := [];
        if display.Some? { content := ContentFromDisplay(display.value); }
        if content == [] && message.Some? {
          content := content + [TextContent(message.value)];
          assert content == [TextContent(message.value)];
        }
        update := Some(Finished(id, success, content));
      case InferenceCompleted(total) =>
        update := Some(Usage(if total.Some? then total.value else 0, maxContextTokens));
      case CompactionStarted(source) => update := Some(CompactionInfo("started", source, None));
      case CompactionCompleted(source, preview) => update := Some(CompactionInfo("completed", source, Some(preview)));
      case CompactionFailed(source, why) => update := Some(CompactionInfo("failed", source, Some(why)));
      case Warning(text) => update := Some(AgentText(text));
      case _ =>
    }
  }

  method ContentFromDisplay(sections: seq<Section>) returns (content: seq<Content>)
    ensures content == DisplayContent(sections)
  {
    content := [];
    for i := 0 to |sections|
      invariant content == DisplayContent(sections[..i])
    {
      assert sections[..i + 1][..i] == sections[..i];
      match sections[i]
      case DiffSection(path, text) =>
        var oldText, newText := SplitUnifiedDiff(text);
        content := content + [DiffContent(path, oldText, newText)];
      case PlainSection(text) => content := content + [TextContent(text)];
    }
    assert sections[..|sections|] == sections;
  }

  // ---- Many queues in one ----

  /** The ids waiting for a completion of one call, oldest first. */
  function QueueOf(pending: seq<PendingCall>, name: string, arguments: string): seq<string>
  {
    if pending == [] then []
    else (if IsFor(pending[0], name, arguments) then [pending[0].id] else []) + QueueOf(pending[1..], name, arguments)
  }

  lemma {:induction false} QueueOfConcat(xs: seq<PendingCall>, ys: seq<PendingCall>, name: string, arguments: string)
    ensures QueueOf(xs + ys, name, arguments) == QueueOf(xs, name, arguments) + QueueOf(ys, name, arguments)
  {
    if xs == [] {
      assert xs + ys == ys;
    } else {
      assert (xs + ys)[0] == xs[0] && (xs + ys)[1..] == xs[1..] + ys;
      QueueOfConcat(xs[1..], ys, name, arguments);
    }
  }

  /** Starting a call appends to its own queue and to no other. */
  lemma StartAppends(t: Tr, name: string, arguments: string, n: string, a: string)
    ensures QueueOf(Start(t, name, arguments).pending, n, a) ==
      QueueOf(t.pending, n, a) + if n == name && a == arguments then [IdText(name, t.next)] else []
  {
    QueueOfConcat(t.pending, [PendingCall(name, arguments, IdText(name, t.next))], n, a);
  }

  lemma {:induction false} NoneInFront(pending: seq<PendingCall>, name: string, arguments: string)
    requires forall j :: 0 <= j < |pending| ==> !IsFor(pending[j], name, arguments)
    ensures QueueOf(pending, name, arguments) == []
  {
    if pending != [] { NoneInFront(pending[1..], name, arguments); }
  }

  lemma QueueAround(front: seq<PendingCall>, p: PendingCall, back: seq<PendingCall>, name: string, arguments: string)
    ensures QueueOf(front + [p] + back, name, arguments) == QueueOf(front, name, arguments) +
      (if IsFor(p, name, arguments) then [p.id] else []) + QueueOf(back, name, arguments)
  {
    QueueOfConcat(front + [p], back, name, arguments);
    QueueOfConcat(front, [p], name, arguments);
  }

  /** A completion takes the head of its own queue, if there is one, and leaves every other queue as it was. */
  lemma CompleteTakesTheHead(t: Tr, name: string, arguments: string, n: string, a: string)
    ensures var q, (t', id) := QueueOf(t.pending, name, arguments), Complete(t, name, arguments);
      && (q != [] ==> id == q[0] && t'.next == t.next)
      && (q == [] ==> id == IdText(name, t.next) && t' == t.(next := t.next + 1))
      && QueueOf(t'.pending, n, a) == (if n == name && a == arguments && q != [] then q[1..] else QueueOf(t.pending, n, a))
  {
    hide QueueOf;
    var i := Position(t.pending, name, arguments);
    var front := t.pending[..i];
    NoneInFront(front, name, arguments);
    if i < |t.pending| {
      var p, back := t.pending[i], t.pending[i + 1..];
      assert t.pending == front + [p] + back;
      QueueAround(front, p, back, name, arguments);
      QueueAround(front, p, back, n, a);
      QueueOfConcat(front, back, n, a);
    } else {
      assert front == t.pending;
    }
  }

  // ---- Runs ----

  function After(t: Tr, es: seq<SystemEvent>): Tr
  {
    if es == [] then t else Translated(After(t, es[..|es| - 1]), es[|es| - 1]).0
  }

  function Sent(t: Tr, es: seq<SystemEvent>): seq<Update>
  {
    if es == [] then []
    else
      var u := Translated(After(t, es[..|es| - 1]), es[|es| - 1]).1;
      Sent(t, es[..|es| - 1]) + if u.Some? then [u.value] else []
  }

  /** The id of a start announced to the client, and of a completion. */
  function CalledIn(u: Option<Update>): seq<string> { if u.Some? && u.value.Called? then [u.value.id] else [] }

  function CompletedIn(u: Option<Update>): seq<string> { if u.Some? && u.value.Finished? then [u.value.id] else [] }

  function StartedBy(t: Tr, e: SystemEvent, name: string, arguments: string): seq<string>
  {
    if e.ToolStarted? && e.name == name && e.arguments == arguments then CalledIn(Translated(t, e).1) else []
  }

  function MatchedBy(t: Tr, e: SystemEvent, name: string, arguments: string): seq<string>
  {
    if e.ToolCompleted? && e.name == name && e.arguments == arguments && QueueOf(t.pending, name, arguments) != []
    then CompletedIn(Translated(t, e).1) else []
  }

  /** The ids under which starts of one call were announced, in order. */
  function Started(t: Tr, es: seq<SystemEvent>, name: string, arguments: string): seq<string>
  {
    if es == [] then []
    else
      var before := es[..|es| - 1];
      Started(t, before, name, arguments) + StartedBy(After(t, before), es[|es| - 1], name, arguments)
  }

  /** The ids of the completions of one call that found an open start, in order. */
  function Matched(t: Tr, es: seq<SystemEvent>, name: string, arguments: string): seq<string>
  {
    if es == [] then []
    else
      var before := es[..|es| - 1];
      Matched(t, before, name, arguments) + MatchedBy(After(t, before), es[|es| - 1], name, arguments)
  }

  lemma StepIsFifo(t: Tr, e: SystemEvent, name: string, arguments: string)
    ensures MatchedBy(t, e, name, arguments) + QueueOf(Translated(t, e).0.pending, name, arguments) ==
      QueueOf(t.pending, name, arguments) + StartedBy(t, e, name, arguments)
  {
    hide QueueOf, Complete, Start;
    match e
    case ToolStarted(n, a, _) => StartAppends(t, n, a, name, arguments);
    case ToolCompleted(n, a, _, _, _) => CompleteTakesTheHead(t, n, a, name, arguments);
    case _ =>
  }

  /** Over any run, what a call's queue gave out and what it still holds is what it held and what was put in, in order. */
  lemma {:induction false} QueuesAreFifo(t: Tr, es: seq<SystemEvent>, name: string, arguments: string)
    ensures Matched(t, es, name, arguments) + QueueOf(After(t, es).pending, name, arguments) ==
      QueueOf(t.pending, name, arguments) + Started(t, es, name, arguments)
  {
    hide QueueOf, Translated, MatchedBy, StartedBy;
    if es != [] {
      var before := es[..|es| - 1];
      QueuesAreFifo(t, before, name, arguments);
      var mid, e := After(t, before), es[|es| - 1];
      StepIsFifo(mid, e, name, arguments);
      Regroup(Matched(t, before, name, arguments), MatchedBy(mid, e, name, arguments), QueueOf(After(t, es).pending, name, arguments));
      Regroup(Matched(t, before, name, arguments), QueueOf(mid.pending, name, arguments), StartedBy(mid, e, name, arguments));
      Regroup(QueueOf(t.pending, name, arguments), Started(t, before, name, arguments), StartedBy(mid, e, name, arguments));
    } else {
      assert QueueOf(t.pending, name, arguments) == QueueOf(t.pending, name, arguments) + [];
    }
  }

  // ---- Ids over a run ----

  ghost predicate MintedBelow(id: string, n: nat) { exists name, k: nat :: k < n && id == IdText(name, k) }

  predicate NoDuplicates(s: seq<string>) { forall i, j :: 0 <= i < j < |s| ==> s[i] != s[j] }

  function MintedBy(t: Tr, e: SystemEvent): seq<string>
  {
    if e.ToolStarted? || (e.ToolCompleted? && QueueOf(t.pending, e.name, e.arguments) == []) then [IdText(e.name, t.next)] else []
  }

  /** Every id ever minted: one a start, one a completion without a start. */
  function Minted(t: Tr, es: seq<SystemEvent>): seq<string>
  {
    if es == [] then [] else Minted(t, es[..|es| - 1]) + MintedBy(After(t, es[..|es| - 1]), es[|es| - 1])
  }

  /** The ids of the completions sent to the client, in order. */
  function Completed(t: Tr, es: seq<SystemEvent>): seq<string>
  {
    if es == [] then []
    else Completed(t, es[..|es| - 1]) + CompletedIn(Translated(After(t, es[..|es| - 1]), es[|es| - 1]).1)
  }

  function Ids(
      pending: seq<PendingCall>): seq<string> { seq(|pending|, i requires 0 <= i < |pending| => pending[i].id) }

  /** Minted ids and completed ids never repeat, and an open start has a minted id that was not completed yet. */
  ghost predicate IdInv(t: Tr, minted: seq<string>, done: seq<string>)
  {
    && NoDuplicates(minted) && NoDuplicates(done) && NoDuplicates(Ids(t.pending))
    && (forall id :: id in minted ==> MintedBelow(id, t.next))
    && (forall id :: id in done ==> id in minted)
    && (forall p :: p in t.pending ==> p.id in minted && p.id !in done)
  }

  lemma NewIdIsNew(name: string, n: nat)
    ensures !MintedBelow(IdText(name, n), n) && MintedBelow(IdText(name, n), n + 1)
    ensures forall id :: MintedBelow(id, n) ==> MintedBelow(id, n + 1)
  {
    hide IdText;
    if MintedBelow(IdText(name, n), n) {
      var other, k: nat :| k < n && IdText(name, n) == IdText(other, k);
      IdsAreDistinct(name, n, other, k);
    }
  }

  lemma StartKeepsIds(t: Tr, minted: seq<string>, done: seq<string>, name: string, arguments: string)
    requires IdInv(t, minted, done)
    ensures IdInv(Start(t, name, arguments), minted + [IdText(name, t.next)], done)
  {
    hide MintedBelow, IdText;
    NewIdIsNew(name, t.next);
    var id, after := IdText(name, t.next), Start(t, name, arguments);
    assert Ids(after.pending) == Ids(t.pending) + [id];
    forall i | 0 <= i < |t.pending| ensures Ids(t.pending)[i] != id { assert t.pending[i] in t.pending; }
  }

  lemma CompleteKeepsIds(t: Tr, minted: seq<string>, done: seq<string>, name: string, arguments: string)
    requires IdInv(t, minted, done)
    ensures var (t', id) := Complete(t, name, arguments);
      IdInv(t', minted + (if QueueOf(t.pending, name, arguments) == [] then [IdText(name, t.next)] else []), done + [id])
  {
    hide MintedBelow, IdText, QueueOf, NoDuplicates;
    CompleteTakesTheHead(t, name, arguments, name, arguments);
    var i := Position(t.pending, name, arguments);
    if i < |t.pending| {
      TakeKeepsIds(t, minted, done, i);
      NotEmpty(t.pending, i, name, arguments);
      assert minted + [] == minted;
    } else {
      OrphanKeepsIds(t, minted, done, name);
      NoneInFront(t.pending, name, arguments);
    }
  }

  lemma NotEmpty(pending: seq<PendingCall>, i: nat, name: string, arguments: string)
    requires i < |pending| && IsFor(pending[i], name, arguments)
    ensures QueueOf(pending, name, arguments) != []
  {
    QueueOfConcat(pending[..i], pending[i..], name, arguments);
    assert pending == pending[..i] + pending[i..];
  }

  lemma TakeKeepsIds(t: Tr, minted: seq<string>, done: seq<string>, i: nat)
    requires IdInv(t, minted, done) && i < |t.pending|
    ensures IdInv(t.(pending := t.pending[..i] + t.pending[i + 1..]), minted, done + [t.pending[i].id])
  {
    hide MintedBelow;
    var p, left := t.pending[i], t.pending[..i] + t.pending[i + 1..];
    assert forall j :: 0 <= j < |t.pending| ==> Ids(t.pending)[j] == t.pending[j].id;
    assert forall j :: 0 <= j < |left| ==> left[j] == t.pending[if j < i then j else j + 1];
    assert p in t.pending;
  }

  lemma OrphanKeepsIds(t: Tr, minted: seq<string>, done: seq<string>, name: string)
    requires IdInv(t, minted, done)
    ensures IdInv(t.(next := t.next + 1), minted + [IdText(name, t.next)], done + [IdText(name, t.next)])
  {
    hide MintedBelow, IdText;
    NewIdIsNew(name, t.next);
  }

  lemma StepKeepsIds(t: Tr, e: SystemEvent, minted: seq<string>, done: seq<string>)
    requires IdInv(t, minted, done)
    ensures IdInv(Translated(t, e).0, minted + MintedBy(t, e), done + CompletedIn(Translated(t, e).1))
  {
    hide IdInv, QueueOf, Complete, Start;
    match e
    case ToolStarted(n, a, _) =>
      StartKeepsIds(t, minted, done, n, a);
      assert done + [] == done;
    case ToolCompleted(n, a, _, _, _) => CompleteKeepsIds(t, minted, done, n, a);
    case _ => assert minted + [] == minted && done + [] == done;
  }

  lemma {:induction false} RunKeepsIds(t: Tr, es: seq<SystemEvent>)
    requires IdInv(t, [], [])
    ensures IdInv(After(t, es), Minted(t, es), Completed(t, es))
  {
    hide IdInv, Translated, MintedBy, CompletedIn;
    if es != [] {
      RunKeepsIds(t, es[..|es| - 1]);
      StepKeepsIds(After(t, es[..|es| - 1]), es[|es| - 1], Minted(t, es[..|es| - 1]), Completed(t, es[..|es| - 1]));
    }
  }

  function Fresh(window: nat): Tr { Tr(0, [], window) }

  /**
   * Over the life of a session: no two starts or unannounced completions share an id, no id is completed twice, and
   * the next completion of a call goes to its oldest start that is still open, or else to an id never seen before.
   */
  lemma CompletionsMatchStarts(window: nat, es: seq<SystemEvent>, next: SystemEvent)
    requires next.ToolCompleted?
    ensures NoDuplicates(Minted(Fresh(window), es)) && NoDuplicates(Completed(Fresh(window), es))
    ensures var t, name, arguments := Fresh(window), next.name, next.arguments;
      var started, matched := Started(t, es, name, arguments), Matched(t, es, name, arguments);
      var update := Translated(After(t, es), next).1;
      && matched <= started
      && update.Some? && update.value.Finished?
      && (|matched| < |started| ==> update.value.id == started[|matched|])
      && (|matched| == |started| ==> update.value.id !in Minted(t, es))
  {
    hide IdText, QueueOf, Complete, Started, Matched, Minted, Completed, After, NoDuplicates, MintedBelow;
    var name, arguments := next.name, next.arguments;
    var t := Fresh(window);
    NothingIsOpen(window, name, arguments);
    RunKeepsIds(t, es);
    QueuesAreFifo(t, es, name, arguments);
    CompleteTakesTheHead(After(t, es), name, arguments, name, arguments);
    NewIdIsNew(name, After(t, es).next);
    var matched, queue := Matched(t, es, name, arguments), QueueOf(After(t, es).pending, name, arguments);
    assert [] + Started(t, es, name, arguments) == Started(t, es, name, arguments);
    assert matched + queue == Started(t, es, name, arguments);
  }

  lemma NothingIsOpen(window: nat, name: string, arguments: string)
    ensures IdInv(Fresh(window), [], []) && QueueOf(Fresh(window).pending, name, arguments) == []
  {
  }

  // ---- What the client is told ----

  /** Permission and compaction requests are not for the client, nor are events that have no form for it. */
  predicate Visible(e: SystemEvent) { !e.PermissionRequested? && !e.CompactionRequested? && !e.Unmapped? }

  function VisibleOf(es: seq<SystemEvent>): seq<SystemEvent>
  {
    if es == [] then []
    else VisibleOf(es[..|es| - 1]) + if Visible(es[|es| - 1]) then [es[|es| - 1]] else []
  }

  /** The text the agent spoke: what the model streamed, and warnings. */
  function Spoken(es: seq<SystemEvent>): seq<string>
  {
    if es == [] then []
    else
      var e := es[|es| - 1];
      Spoken(es[..|es| - 1]) + if e.InferenceChunk? then [e.delta] else if e.Warning? then [e.text] else []
  }

  /** The text the client was given. */
  function Heard(us: seq<Update>): seq<string>
  {
    if us == [] then [] else Heard(us[..|us| - 1]) + if us[|us| - 1].AgentText? then [us[|us| - 1].text] else []
  }

  /** A block shows a section: a diff by its path and its two sides, anything else as it is. */
  predicate ShowsSection(block: Content, section: Section)
  {
    match block
    case TextContent(text) => section == PlainSection(text)
    case DiffContent(path, oldText, newText) =>
      section.DiffSection? && section.path == path && (oldText, newText) == Answer(TakeAll(Nothing, Lines(section.text)))
  }

  /** The blocks show the display's sections one by one, or the message when there are none. */
  predicate ShowsOutcome(content: seq<Content>, display: Option<seq<Section>>, message: Option<string>)
  {
    var sections := if display.Some? then display.value else [];
    if sections != [] then |content| == |sections| && forall i :: 0 <= i < |content| ==> ShowsSection(content[i], sections[i])
    else if message.Some? then content == [TextContent(message.value)]
    else content == []
  }

  /** What an update says is what the event says. */
  predicate Tells(u: Update, e: SystemEvent, window: nat)
  {
    match u
    case AgentText(text) => e == InferenceChunk(text) || e == Warning(text)
    case Called(_, title, name, kind) =>
      e.ToolStarted? && e.name == name && kind == KindOf(e.name) && title == if e.line == "" then e.name else e.line
    case Finished(_, success, content) => e.ToolCompleted? && e.success == success && ShowsOutcome(content, e.display, e.message)
    case Usage(used, size) =>
      size == window && (e == InferenceCompleted(Some(used)) || (used == 0 && e == InferenceCompleted(None)))
    case CompactionInfo(state, source, detail) =>
      || (state == "started" && detail == None && e == CompactionStarted(source))
      || (state == "completed" && detail.Some? && e == CompactionCompleted(source, detail.value))
      || (state == "failed" && detail.Some? && e == CompactionFailed(source, detail.value))
  }

  predicate ToldInOrder(us: seq<Update>, es: seq<SystemEvent>, window: nat)
  {
    |us| == |es| && forall i :: 0 <= i < |us| ==> Tells(us[i], es[i], window)
  }

  lemma {:induction false} DisplayIsShown(sections: seq<Section>)
    ensures forall i :: 0 <= i < |sections| ==> ShowsSection(DisplayContent(sections)[i], sections[i])
  {
    hide ShowsSection;
    if sections != [] {
      var init, last := sections[..|sections| - 1], sections[|sections| - 1];
      DisplayIsShown(init);
      assert ShowsSection(SectionContent(last), last) by { SectionIsShown(last); }
    }
  }

  lemma SectionIsShown(s: Section)
    ensures ShowsSection(SectionContent(s), s)
  {
  }

  lemma UpdateTells(t: Tr, e: SystemEvent)
    ensures Translated(t, e).1.Some? <==> Visible(e)
    ensures Visible(e) ==> Tells(Translated(t, e).1.value, e, t.window)
    ensures Translated(t, e).0.window == t.window
  {
    hide KindOf, IdText, Position, ShowsSection, SectionContent;
    if e.ToolCompleted? && e.display.Some? { DisplayIsShown(e.display.value); }
  }

  /**
   * Over any run the client gets one update for every visible event and none for any other, in order, and each says
   * what its event says; the text it hears is the text that was spoken.
   */
  lemma {:induction false} ClientIsToldEverything(t: Tr, es: seq<SystemEvent>)
    ensures ToldInOrder(Sent(t, es), VisibleOf(es), t.window)
    ensures Heard(Sent(t, es)) == Spoken(es)
    ensures After(t, es).window == t.window
  {
    hide Translated, Tells;
    if es != [] {
      var init, e := es[..|es| - 1], es[|es| - 1];
      ClientIsToldEverything(t, init);
      UpdateTells(After(t, init), e);
      var us, u := Sent(t, init), Translated(After(t, init), e).1;
      if u.Some? {
        assert (us + [u.value])[..|us|] == us;
        HeardIsSpoken(u.value, e, t.window);
      } else {
        assert us + [] == us;
      }
    }
  }

  lemma HeardIsSpoken(u: Update, e: SystemEvent, window: nat)
    requires Tells(u, e, window)
    ensures u.AgentText? <==> e.InferenceChunk? || e.Warning?
    ensures e.InferenceChunk? ==> u == AgentText(e.delta)
    ensures e.Warning? ==> u == AgentText(e.text)
  {
  }
}
