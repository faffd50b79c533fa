/** The SSE subscriber of the A2A client: framing over arbitrary chunks, and the fold of the events. */
module Sse {
  import opened Options
  import opened Utf8
  import opened Text
  import opened Tasks

  const NEWLINE: byte := 0x0A

  // ---- Framing (a subset of section 9.2 of the WHATWG HTML standard) ----

  /** First position of two newlines in a row. */
  function FindBreak(b: Bytes): (r: Option<nat>)
    ensures r.Some? ==> r.value + 2 <= |b| && b[r.value] == NEWLINE && b[r.value + 1] == NEWLINE
  {
    if |b| < 2 then None
    else if b[0] == NEWLINE && b[1] == NEWLINE then Some(0)
    else match FindBreak(b[1..]) { case Some(i) => Some(i + 1) case None => None }
  }

  datatype Framed = Framed(frames: seq<Bytes>, rest: Bytes)

  function Frames(b: Bytes): Framed
    decreases |b|
  {
    match FindBreak(b)
    case None => Framed([], b)
    case Some(p) =>
      var later := Frames(b[p + 2..]);
      Framed([b[..p]] + later.frames, later.rest)
  }

  lemma {:induction false} BreakSurvivesAppend(a: Bytes, b: Bytes)
    requires FindBreak(a).Some?
    ensures FindBreak(a + b) == FindBreak(a)
    ensures FindBreak(a).value + 2 <= |a|
  {
    assert (a + b)[0] == a[0] && (a + b)[1] == a[1];
    if !(a[0] == NEWLINE && a[1] == NEWLINE) {
      assert (a + b)[1..] == a[1..] + b;
      BreakSurvivesAppend(a[1..], b);
    }
  }

  lemma FramesStep(b: Bytes, f: Bytes, tail: Bytes)
    requires FindBreak(b) == Some(|f|) && b == f + [NEWLINE, NEWLINE] + tail
    ensures Frames(b) == Framed([f] + Frames(tail).frames, Frames(tail).rest)
  {
    assert b[..|f|] == f && b[|f| + 2..] == tail;
  }

  lemma FramesNone(b: Bytes)
    requires FindBreak(b).None?
    ensures Frames(b) == Framed([], b)
  {
  }

  lemma SplitAtBreak(b: Bytes, p: nat)
    requires FindBreak(b) == Some(p)
    ensures b == b[..p] + [NEWLINE, NEWLINE] + b[p + 2..]
  {
  }

  /** Framing what has arrived and then what arrives later is framing everything at once. */
  lemma {:induction false} FramesAppend(a: Bytes, b: Bytes, later: Framed)
    requires later == Frames(Frames(a).rest + b)
    ensures Frames(a + b) == Framed(Frames(a).frames + later.frames, later.rest)
    decreases |a|
  {
    hide Frames, FindBreak;
    match FindBreak(a)
    case None =>
      FramesNone(a);
      assert [] + later.frames == later.frames;
    case Some(p) =>
      var f, tail := a[..p], a[p + 2..];
      SplitAtBreak(a, p);
      FramesStep(a, f, tail);
      BreakSurvivesAppend(a, b);
      assert a + b == f + [NEWLINE, NEWLINE] + (tail + b);
      FramesStep(a + b, f, tail + b);
      FramesAppend(tail, b, later);
      assert [f] + (Frames(tail).frames + later.frames) == ([f] + Frames(tail).frames) + later.frames;
  }

  /** A frame body the wire can carry: no blank line inside, no newline at its end. */
  predicate IsFrame(f: Bytes) { FindBreak(f + [NEWLINE]).None? }

  function Join(frames: seq<Bytes>): Bytes
  {
    if frames == [] then [] else frames[0] + [0x0A, 0x0A] + Join(frames[1..])
  }

  lemma {:induction false} BreakAfterFrame(f: Bytes, rest: Bytes)
    requires IsFrame(f)
    ensures FindBreak(f + [NEWLINE, NEWLINE] + rest) == Some(|f|)
  {
    var s, g := f + [NEWLINE, NEWLINE] + rest, f + [NEWLINE];
    if f != [] {
      assert s[0] == g[0] && s[1] == g[1];
      assert g[1..] == f[1..] + [NEWLINE] && s[1..] == f[1..] + [NEWLINE, NEWLINE] + rest;
      BreakAfterFrame(f[1..], rest);
    }
  }

  /** Framing undoes joining: every sequence of frames followed by an unfinished one is recovered exactly. */
  lemma {:induction false} FramesOfJoin(frames: seq<Bytes>, rest: Bytes)
    requires (forall i :: 0 <= i < |frames| ==> IsFrame(frames[i])) && FindBreak(rest).None?
    ensures Frames(Join(frames) + rest) == Framed(frames, rest)
  {
    if frames == [] {
      assert Join(frames) + rest == rest;
    } else {
      var f, tail := frames[0], Join(frames[1..]) + rest;
      var all := f + [NEWLINE, NEWLINE] + tail;
      assert Join(frames) + rest == all;
      BreakAfterFrame(f, tail);
      assert all[..|f|] == f && all[|f| + 2..] == tail;
      FramesOfJoin(frames[1..], rest);
    }
  }

  lemma {:induction false} CutAtBreak(b: Bytes)
    requires FindBreak(b).Some?
    ensures IsFrame(b[..FindBreak(b).value])
  {
    var p := FindBreak(b).value;
    var f := b[..p];
    if p > 0 {
      CutAtBreak(b[1..]);
      assert b[1..][..p - 1] == f[1..];
      assert (f + [NEWLINE])[1..] == f[1..] + [NEWLINE];
      assert (f + [NEWLINE])[0] == b[0] && (f + [NEWLINE])[1] == b[1];
    }
  }

  /** Joining undoes framing: no byte is lost or invented, and every piece is a frame. */
  lemma {:induction false} JoinOfFrames(b: Bytes)
    ensures Join(Frames(b).frames) + Frames(b).rest == b && FindBreak(Frames(b).rest).None?
    ensures forall i :: 0 <= i < |Frames(b).frames| ==> IsFrame(Frames(b).frames[i])
    decreases |b|
  {
    hide Frames, FindBreak, IsFrame;
    match FindBreak(b)
    case None =>
      FramesNone(b);
    case Some(p) =>
      var f, tail := b[..p], b[p + 2..];
      CutAtBreak(b);
      SplitAtBreak(b, p);
      FramesStep(b, f, tail);
      JoinOfFrames(tail);
      var later := Frames(tail);
      assert Frames(b).frames[1..] == later.frames;
      assert f + [NEWLINE, NEWLINE] + Join(later.frames) + later.rest == f + [NEWLINE, NEWLINE] + tail;
  }

  // ---- Events ----

  /** What the JSON of one event decodes to; an inner `None` is a part that does not deserialize. */
  datatype Payload =
    | NotJson
    | TaskSnapshot(task: Option<Task>)
    | StatusUpdate(taskId: Option<string>, contextId: Option<string>, status: Option<TaskStatus>)
    | ArtifactUpdate(artifact: Option<Artifact>)
    | OtherJson

  /** The foreign decoders: lossy UTF-8 and JSON. */
  datatype Decoder = Decoder(lossy: Bytes -> string, json: string -> Payload)

  /** The last `data: ` line of an event. */
  function DataOf(lines: seq<string>, current: string): string
  {
    if lines == [] then current
    else DataOf(lines[1..], match StripPrefix(lines[0], "data: ") { case Some(v) => v case None => current })
  }

  function PayloadOf(d: Decoder, frame: Bytes): Payload
  {
    var data := DataOf(Lines(d.lossy(frame)), "");
    if data == "" then NotJson else d.json(data)
  }

  /** The last line that carries data decides. */
  lemma {:induction false} DataIsTheLast(lines: seq<string>, current: string)
    ensures (forall i :: 0 <= i < |lines| ==> !("data: " <= lines[i])) ==> DataOf(lines, current) == current
    ensures forall k :: 0 <= k < |lines| && "data: " <= lines[k] && (forall i :: k < i < |lines| ==> !("data: " <= lines[i])) ==>
      DataOf(lines, current) == lines[k][6..]
    decreases |lines|
  {
    if lines != [] {
      var next := match StripPrefix(lines[0], "data: ") { case Some(v) => v case None => current };
      DataIsTheLast(lines[1..], next);
      assert forall i :: 0 < i < |lines| ==> lines[i] == lines[1..][i - 1];
      forall k | 0 <= k < |lines| && "data: " <= lines[k] && (forall i :: k < i < |lines| ==> !("data: " <= lines[i]))
        ensures DataOf(lines, current) == lines[k][6..]
      {
        if k > 0 { assert lines[1..][k - 1] == lines[k]; }
      }
    }
  }

  /** An event of one data line reads as its data. */
  lemma OneDataLine(d: Decoder, f: Bytes, data: string)
    requires d.lossy(f) == "data: " + data && OneLine(data) && data != ""
    ensures PayloadOf(d, f) == d.json(data)
  {
    var line := "data: " + data;
    UnfinishedLine(line);
    DataIsTheLast([line], "");
    assert line[6..] == data && [line][0] == line;
  }

  /** An event of one other line, as a comment is, carries nothing. */
  lemma OneOtherLine(d: Decoder, f: Bytes)
    requires OneLine(d.lossy(f)) && !("data: " <= d.lossy(f))
    ensures PayloadOf(d, f) == NotJson
  {
    UnfinishedLine(d.lossy(f));
    DataIsTheLast(Lines(d.lossy(f)), "");
  }

  /** A line of bytes is a frame body. */
  lemma {:induction false} LineIsFrame(f: Bytes)
    requires 0x0A !in f
    ensures IsFrame(f)
  {
    if f != [] {
      LineIsFrame(f[1..]);
      assert (f + [NEWLINE])[1..] == f[1..] + [NEWLINE];
    }
  }

  datatype Progress =
    | Following(artifacts: seq<Artifact>, taskId: Option<string>, contextId: Option<string>)
    | Finished(task: Task)

  const Begin := Following([], None, None)

  predicate HasArtifact(artifacts: seq<Artifact>, id: string)
  {
    exists i :: 0 <= i < |artifacts| && artifacts[i].artifactId == id
  }

  function Or<T>(a: Option<T>, b: Option<T>): Option<T> { if a.Some? then a else b }

  function Receive(requested: string, p: Progress, payload: Payload): Progress
    requires p.Following?
  {
    match payload
    case TaskSnapshot(Some(t)) =>
      if IsTerminal(t.State()) then Finished(t) else Following(t.artifacts, Some(t.id), t.contextId)
    case StatusUpdate(taskId, contextId, status) =>
      var q := p.(taskId := Or(taskId, p.taskId), contextId := Or(contextId, p.contextId));
      if status.Some? && IsTerminal(status.value.state) then
        Finished(Task(if q.taskId.Some? then q.taskId.value else requested,
                      q.contextId, None, status.value, None, q.artifacts, None, None))
      else q
    case ArtifactUpdate(Some(a)) =>
      if HasArtifact(p.artifacts, a.artifactId) then p else p.(artifacts := p.artifacts + [a])
    case _ => p
  }

  function Fold(requested: string, p: Progress, payloads: seq<Payload>): Progress
    decreases |payloads|
  {
    if p.Finished? || payloads == [] then p
    else Fold(requested, Receive(requested, p, payloads[0]), payloads[1..])
  }

  lemma {:induction false} FoldAppend(requested: string, p: Progress, a: seq<Payload>, b: seq<Payload>)
    ensures Fold(requested, p, a + b) == Fold(requested, Fold(requested, p, a), b)
    decreases |a|
  {
    if p.Following? && a != [] {
      assert (a + b)[0] == a[0] && (a + b)[1..] == a[1..] + b;
      FoldAppend(requested, Receive(requested, p, a[0]), a[1..], b);
    } else if a == [] {
      assert a + b == b;
    }
  }

  // ---- What the answer is made of ----

  /** The task id the server named last, in a snapshot or in a status update that carries one. */
  function NamedId(payloads: seq<Payload>): Option<string>
  {
    if payloads == [] then None
    else match payloads[|payloads| - 1]
      case TaskSnapshot(Some(t)) => Some(t.id)
      case StatusUpdate(Some(id), _, _) => Some(id)
      case _ => NamedId(payloads[..|payloads| - 1])
  }

  /** The context named last; a snapshot without a context takes the earlier one back. */
  function NamedContext(payloads: seq<Payload>): Option<string>
  {
    if payloads == [] then None
    else match payloads[|payloads| - 1]
      case TaskSnapshot(Some(t)) => t.contextId
      case StatusUpdate(_, Some(id), _) => Some(id)
      case _ => NamedContext(payloads[..|payloads| - 1])
  }

  lemma {:induction false} FollowingKnowsTheNames(requested: string, payloads: seq<Payload>)
    requires Fold(requested, Begin, payloads).Following?
    ensures var p := Fold(requested, Begin, payloads); p.taskId == NamedId(payloads) && p.contextId == NamedContext(payloads)
  {
    if payloads != [] {
      var init, last := payloads[..|payloads| - 1], payloads[|payloads| - 1];
      assert payloads == init + [last];
      FoldAppend(requested, Begin, init, [last]);
      assert Fold(requested, Begin, init).Following?;
      FoldOne(requested, Fold(requested, Begin, init), last);
      FollowingKnowsTheNames(requested, init);
    }
  }

  lemma FoldOne(requested: string, p: Progress, payload: Payload)
    requires p.Following?
    ensures Fold(requested, p, [payload]) == Receive(requested, p, payload)
  {
    assert [payload][1..] == [];
  }

  /**
   * The first payload that ends the task is the answer: a terminal snapshot as it is; a terminal status under the id
   * named last, or else the requested one, in the context named last, with the artifacts collected so far.
   */
  lemma WhatEndsTheTask(requested: string, before: seq<Payload>, last: Payload)
    requires Fold(requested, Begin, before).Following? && Fold(requested, Begin, before + [last]).Finished?
    ensures var known, answer := Fold(requested, Begin, before).artifacts, Fold(requested, Begin, before + [last]).task;
      var id, context := NamedId(before + [last]), NamedContext(before + [last]);
      && IsTerminal(answer.status.state)
      && match last
         case TaskSnapshot(Some(t)) => answer == t
         case StatusUpdate(_, _, Some(status)) =>
           answer == Task(if id == None then requested else id.value, context, None, status, None, known, None, None)
         case _ => false
  {
    hide Fold, Receive, NamedId, NamedContext, HasArtifact;
    var p := Fold(requested, Begin, before);
    FollowingKnowsTheNames(requested, before);
    FoldAppend(requested, Begin, before, [last]);
    FoldOne(requested, p, last);
    if last.StatusUpdate? { NamedNext(before, last); }
    EndOf(requested, p, last);
  }

  lemma NamedNext(before: seq<Payload>, last: Payload)
    requires last.StatusUpdate?
    ensures NamedId(before + [last]) == Or(last.taskId, NamedId(before))
    ensures NamedContext(before + [last]) == Or(last.contextId, NamedContext(before))
  {
    assert (before + [last])[..|before|] == before;
  }

  lemma EndOf(requested: string, p: Progress, last: Payload)
    requires p.Following? && Receive(requested, p, last).Finished?
    ensures var answer := Receive(requested, p, last).task;
      && IsTerminal(answer.status.state)
      && match last
         case TaskSnapshot(Some(t)) => answer == t
         case StatusUpdate(id, context, Some(status)) =>
           var named := Or(id, p.taskId);
           answer == Task(if named == None then requested else named.value, Or(context, p.contextId), None, status, None,
                          p.artifacts, None, None)
         case _ => false
  {
  }

  function Payloads(d: Decoder, frames: seq<Bytes>): seq<Payload>
  {
    seq(|frames|, i requires 0 <= i < |frames| => PayloadOf(d, frames[i]))
  }

  // ---- The subscriber ----

  /** How a response body ends. */
  datatype StreamEnd = Closed | ReadError(reason: string)

  /** What the request brings: no response, or a status with a body read in chunks. */
  datatype Response = Unsent(reason: string) | Response(status: nat, chunks: seq<Bytes>, end: StreamEnd)

  datatype SubscribeError =
    | ClosedWithoutTerminalState
    | SseReadError(reason: string)
    | NotSent(reason: string)
    | TaskNotFound(id: string)
    | UnreadableError(reason: string)
    | Reported(error: string)
    | HttpError(status: nat, body: string)

  predicate IsSuccess(status: nat) { 200 <= status < 300 }

  function Flatten(chunks: seq<Bytes>): Bytes
  {
    if chunks == [] then [] else Flatten(chunks[..|chunks| - 1]) + chunks[|chunks| - 1]
  }

  /** The answer, as a function of the bytes alone. */
  function Outcome(d: Decoder, requested: string, body: Bytes, end: StreamEnd): Result<Task, SubscribeError>
  {
    match Fold(requested, Begin, Payloads(d, Frames(body).frames))
    case Finished(t) => Ok(t)
    case Following(_, _, _) => Err(ErrorOf(end))
  }

  function ErrorOf(end: StreamEnd): SubscribeError
  {
    match end { case Closed => ClosedWithoutTerminalState case ReadError(e) => SseReadError(e) }
  }

  // ---- Where the subscriber stands ----

  /** `done` frames of `body` are folded into `p`, and `raw` is what is left of it. */
  ghost predicate Caught(d: Decoder, requested: string, body: Bytes, done: seq<Bytes>, raw: Bytes, p: Progress)
  {
    && Frames(body) == Framed(done + Frames(raw).frames, Frames(raw).rest)
    && Fold(requested, Begin, Payloads(d, done)) == p
  }

  lemma CaughtAtStart(d: Decoder, requested: string, chunks: seq<Bytes>)
    ensures FindBreak([]).None? && Caught(d, requested, Flatten(chunks[..0]), [], [], Begin)
    ensures Begin == Following([], None, None)
  {
    assert Payloads(d, []) == [];
  }

  lemma CaughtChunk(
      d: Decoder, requested: string, chunks: seq<Bytes>, i: nat, done: seq<Bytes>, raw: Bytes, p: Progress)
    requires i < |chunks| && FindBreak(raw).None? && Caught(d, requested, Flatten(chunks[..i]), done, raw, p)
    ensures Caught(d, requested, Flatten(chunks[..i + 1]), done, raw + chunks[i], p)
  {
    var body := Flatten(chunks[..i]);
    assert Flatten(chunks[..i + 1]) == body + chunks[i] by { assert chunks[..i + 1][..i] == chunks[..i]; }
    hide Frames, FindBreak, Flatten;
    FramesNone(raw);
    assert done + [] == done;
    FramesAppend(body, chunks[i], Frames(raw + chunks[i]));
  }

  lemma CaughtFrame(d: Decoder, requested: string, body: Bytes, done: seq<Bytes>, raw: Bytes, p: Progress)
    requires FindBreak(raw).Some? && Caught(d, requested, body, done, raw, p) && p.Following?
    ensures var f, tail := raw[..FindBreak(raw).value], raw[FindBreak(raw).value + 2..];
      Caught(d, requested, body, done + [f], tail, Receive(requested, p, PayloadOf(d, f)))
  {
    hide Frames, PayloadOf, Receive, FindBreak, Fold, Payloads;
    var k := FindBreak(raw).value;
    SplitAtBreak(raw, k);
    var f, tail := raw[..k], raw[k + 2..];
    FramesStep(raw, f, tail);
    assert done + ([f] + Frames(tail).frames) == done + [f] + Frames(tail).frames;
    FoldOneMore(d, requested, done, f);
  }

  /** Once a terminal event is in, the rest of the stream does not matter. */
  lemma CaughtFinished(
      d: Decoder, requested: string, chunks: seq<Bytes>, i: nat, done: seq<Bytes>, raw: Bytes, p: Progress,
      end: StreamEnd)
    requires i <= |chunks| && Caught(d, requested, Flatten(chunks[..i]), done, raw, p) && p.Finished?
    ensures Outcome(d, requested, Flatten(chunks), end) == Ok(p.task)
  {
    hide Frames, PayloadOf, FindBreak, Flatten, Payloads;
    FlattenSplit(chunks, i);
    var a, b := Flatten(chunks[..i]), Flatten(chunks[i..]);
    var rest := Frames(Frames(a).rest + b);
    FramesAppend(a, b, rest);
    var after := Frames(raw).frames + rest.frames;
    assert done + Frames(raw).frames + rest.frames == done + after;
    PayloadsAppend(d, done, after);
    FoldAppend(requested, Begin, Payloads(d, done), Payloads(d, after));
  }

  lemma CaughtAtEnd(
      d: Decoder, requested: string, body: Bytes, done: seq<Bytes>, raw: Bytes, p: Progress, end: StreamEnd)
    requires FindBreak(raw).None? && Caught(d, requested, body, done, raw, p) && p.Following?
    ensures Outcome(d, requested, body, end) == Err(ErrorOf(end))
  {
    hide Payloads, Fold, FindBreak;
    assert done + [] == done;
  }

  lemma PayloadIsData(d: Decoder, f: Bytes)
    ensures var data := DataOf(Lines(d.lossy(f)), ""); PayloadOf(d, f) == if data == "" then NotJson else d.json(data)
  {
  }

  /** `errorIn` finds the error object in the body of an unsuccessful response. */
  method SubscribeTask(d: Decoder, errorIn: Bytes -> Option<string>, taskId: string, response: Response)
    returns (r: Result<Task, SubscribeError>)
    ensures r.Ok? ==> response.Response? && 200 <= response.status < 300
    ensures r == Err(ClosedWithoutTerminalState) ==>
      response.Response? && 200 <= response.status < 300 && response.end == Closed
    ensures response.Response? && 200 <= response.status < 300 ==>
      r == Outcome(d, taskId, Flatten(response.chunks), response.end)
    ensures r == Err(TaskNotFound(taskId)) <==> response.Response? && response.status == 404
    ensures response.Unsent? ==> r == Err(NotSent(response.reason))
    ensures response.Response? && response.status != 404 && !(200 <= response.status < 300) ==>
      r == Err(if response.end.ReadError? then UnreadableError(response.end.reason)
               else match errorIn(Flatten(response.chunks))
                 case Some(e) => Reported(e)
                 case None => HttpError(response.status, d.lossy(Flatten(response.chunks))))
  {
    if response.Unsent? { return Err(NotSent(response.reason)); }
    if response.status == 404 { return Err(TaskNotFound(taskId)); }
    if !IsSuccess(response.status) {
      if response.end.ReadError? { return Err(UnreadableError(response.end.reason)); }
      var bytes := Flatten(response.chunks);
      var error := errorIn(bytes);
      if error.Some? { return Err(Reported(error.value)); }
      return Err(HttpError(response.status, d.lossy(bytes)));
    }
    r := FollowStream(d, taskId, response.chunks, response.end);
  }

  method FollowStream(d: Decoder, taskId: string, chunks: seq<Bytes>, end: StreamEnd)
    returns (r: Result<Task, SubscribeError>)
    ensures r == Outcome(d, taskId, Flatten(chunks), end)
    ensures r.Err? ==> r.error == match end { case Closed => ClosedWithoutTerminalState case ReadError(e) => SseReadError(e) }
  {
    hide *;
    var rawBuf: Bytes := [];
    var currentData := "";
    var artifacts: seq<Artifact> := [];
    var finalTaskId, contextId := None, None;
    ghost var done: seq<Bytes> := [];
    var i := 0;
    CaughtAtStart(d, taskId, chunks);
    while i < |chunks|
      invariant i <= |chunks| && currentData == "" && FindBreak(rawBuf).None?
      invariant Caught(d, taskId, Flatten(chunks[..i]), done, rawBuf, Following(artifacts, finalTaskId, contextId))
    {
      CaughtChunk(d, taskId, chunks, i, done, rawBuf, Following(artifacts, finalTaskId, contextId));
      rawBuf := rawBuf + chunks[i];
      i := i + 1;
      var pos := Windows(rawBuf);
      while pos.Some?
        invariant currentData == "" && pos == FindBreak(rawBuf)
        invariant Caught(d, taskId, Flatten(chunks[..i]), done, rawBuf, Following(artifacts, finalTaskId, contextId))
        decreases |rawBuf|
      {
        CaughtFrame(d, taskId, Flatten(chunks[..i]), done, rawBuf, Following(artifacts, finalTaskId, contextId));
        var event := rawBuf[..pos.value];
        rawBuf := rawBuf[pos.value + 2..];
        done := done + [event];
        currentData := ReadData(d.lossy(event));
        var payload := if currentData == "" then NotJson else d.json(currentData);
        PayloadIsData(d, event);
        var p := Receive(taskId, Following(artifacts, finalTaskId, contextId), payload);
        if p.Finished? {
          CaughtFinished(d, taskId, chunks, i, done, rawBuf, p, end);
          return Ok(p.task);
        }
        artifacts, finalTaskId, contextId := p.artifacts, p.taskId, p.contextId;
        currentData := "";
        pos := Windows(rawBuf);
      }
    }
    assert chunks[..i] == chunks;
    CaughtAtEnd(d, taskId, Flatten(chunks), done, rawBuf, Following(artifacts, finalTaskId, contextId), end);
    r := Err(ErrorOf(end));
    WhyItEnded(end);
  }

  /** An error of the connection is passed on; a body that simply ends is an error of its own. */
  lemma WhyItEnded(end: StreamEnd)
    ensures end == Closed ==> ErrorOf(end) == ClosedWithoutTerminalState
    ensures forall reason :: end == ReadError(reason) ==> ErrorOf(end) == SseReadError(reason)
  {
  }

  /** `windows(2).position(..)`: scans for the first blank line. */
  method Windows(b: Bytes) returns (pos: Option<nat>)
    ensures pos == FindBreak(b)
  {
    var i := 0;
    while i + 2 <= |b|
      invariant i <= |b|
      invariant FindBreak(b) == match FindBreak(b[i..]) { case Some(k) => Some(i + k) case None => None }
    {
      if b[i] == NEWLINE && b[i + 1] == NEWLINE { return Some(i); }
      assert b[i..][1..] == b[i + 1..];
      i := i + 1;
    }
    pos := None;
  }

  method ReadData(event: string) returns (data: string)
    ensures data == DataOf(Lines(event), "")
  {
    var lines := Lines(event);
    data := "";
    var i := 0;
    while i < |lines|
      invariant i <= |lines| && DataOf(lines, "") == DataOf(lines[i..], data)
    {
      var v := StripPrefix(lines[i], "data: ");
      assert lines[i..][1..] == lines[i + 1..];
      if v.Some? { data := v.value; }
      i := i + 1;
    }
  }

  lemma FoldOneMore(d: Decoder, requested: string, done: seq<Bytes>, event: Bytes)
    requires Fold(requested, Begin, Payloads(d, done)).Following?
    ensures Fold(requested, Begin, Payloads(d, done + [event]))
         == Receive(requested, Fold(requested, Begin, Payloads(d, done)), PayloadOf(d, event))
  {
    var p := PayloadOf(d, event);
    assert Payloads(d, done + [event]) == Payloads(d, done) + [p];
    FoldAppend(requested, Begin, Payloads(d, done), [p]);
    assert [p][1..] == [];
  }

  lemma PayloadsAppend(d: Decoder, a: seq<Bytes>, b: seq<Bytes>)
    ensures Payloads(d, a + b) == Payloads(d, a) + Payloads(d, b)
  {
    hide PayloadOf;
  }

  lemma {:induction false} FlattenSplit(chunks: seq<Bytes>, i: nat)
    requires i <= |chunks|
    ensures Flatten(chunks) == Flatten(chunks[..i]) + Flatten(chunks[i..])
    decreases |chunks|
  {
    if i == |chunks| {
      assert chunks[..i] == chunks && chunks[i..] == [];
    } else {
      var n := |chunks| - 1;
      FlattenSplit(chunks[..n], i);
      assert chunks[..n][..i] == chunks[..i] && chunks[..n][i..] == chunks[i..][..n - i];
      assert chunks[i..][n - i] == chunks[n];
    }
  }
}
