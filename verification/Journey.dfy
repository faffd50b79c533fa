/**
 * From the store to the subscriber: what the notifications of a run put into a channel, what the server
 * streams from it, and what the client makes of the bytes, however they are cut and padded.
 */
module Journey {
  import opened Options
  import opened Utf8
  import opened Text
  import opened Tasks
  import opened TaskStore
  import opened TaskRuns
  import opened Delivery
  import opened Sse

  // ---- What the server streams ----

  /** The subscription handler: every event as a stream response, ending after a terminal status with a last snapshot. */
  function Streamed(events: seq<TaskEvent>, contextId: Option<string>, last: Task): seq<Payload>
  {
    if events == [] then []
    else match events[0]
      case StatusChanged(id, status) =>
        [StatusUpdate(Some(id), contextId, Some(status))] +
        (if IsTerminal(status.state) then [TaskSnapshot(Some(last))] else Streamed(events[1..], contextId, last))
      case ArtifactAdded(_, a) => [ArtifactUpdate(Some(a))] + Streamed(events[1..], contextId, last)
  }

  /** The snapshot is read after the subscription, so it already contains some of the events that follow it. */
  function Stream(snapshot: Task, events: seq<TaskEvent>, contextId: Option<string>, last: Task): seq<Payload>
  {
    [TaskSnapshot(Some(snapshot))] + Streamed(events, contextId, last)
  }

  // ---- What the client makes of it ----

  /** Artifact updates fold into the known artifacts, but for those whose id is known already. */
  function Merged(known: seq<Artifact>, more: seq<Artifact>): seq<Artifact>
    decreases |more|
  {
    if more == [] then known
    else Merged(if HasArtifact(known, more[0].artifactId) then known else known + [more[0]], more[1..])
  }

  /** Each further artifact has an id that no earlier one has. */
  predicate BringNewIds(known: seq<Artifact>, more: seq<Artifact>)
    decreases |more|
  {
    more == [] || (!HasArtifact(known, more[0].artifactId) && BringNewIds(known + [more[0]], more[1..]))
  }

  lemma {:induction false} MergedConcat(known: seq<Artifact>, a: seq<Artifact>, b: seq<Artifact>)
    ensures Merged(known, a + b) == Merged(Merged(known, a), b)
    decreases |a|
  {
    hide HasArtifact;
    if a == [] {
      assert a + b == b;
    } else {
      assert (a + b)[0] == a[0] && (a + b)[1..] == a[1..] + b;
      MergedConcat(if HasArtifact(known, a[0].artifactId) then known else known + [a[0]], a[1..], b);
    }
  }

  lemma {:induction false} MergedAddsAtMost(known: seq<Artifact>, more: seq<Artifact>)
    ensures |Merged(known, more)| <= |known| + |more|
    decreases |more|
  {
    hide HasArtifact;
    if more != [] {
      MergedAddsAtMost(if HasArtifact(known, more[0].artifactId) then known else known + [more[0]], more[1..]);
    }
  }

  /** Nothing is left out exactly when every further artifact brings a new id. */
  lemma {:induction false} MergedKeepsAllIff(known: seq<Artifact>, more: seq<Artifact>)
    ensures Merged(known, more) == known + more <==> BringNewIds(known, more)
    decreases |more|
  {
    hide HasArtifact;
    if more != [] {
      if HasArtifact(known, more[0].artifactId) {
        MergedAddsAtMost(known, more[1..]);
        assert |known + more| > |known| + |more[1..]|;
      } else {
        MergedKeepsAllIff(known + [more[0]], more[1..]);
        assert known + [more[0]] + more[1..] == known + more;
      }
    } else {
      assert known + more == known;
    }
  }

  lemma {:induction false} MergedHasIff(known: seq<Artifact>, more: seq<Artifact>, x: string)
    ensures HasArtifact(Merged(known, more), x) <==> HasArtifact(known, x) || HasArtifact(more, x)
    decreases |more|
  {
    if more != [] {
      var first := [more[0]];
      HasInSum(known, first, x);
      HasInSum(first, more[1..], x);
      assert more == first + more[1..];
      assert HasArtifact(first, x) <==> more[0].artifactId == x by { assert first[0] == more[0]; }
      hide HasArtifact;
      MergedHasIff(if HasArtifact(known, more[0].artifactId) then known else known + first, more[1..], x);
    }
  }

  lemma HasInSum(a: seq<Artifact>, b: seq<Artifact>, x: string)
    ensures HasArtifact(a + b, x) <==> HasArtifact(a, x) || HasArtifact(b, x)
  {
    var all := a + b;
    assert forall i :: 0 <= i < |a| ==> all[i] == a[i];
    assert forall i :: 0 <= i < |b| ==> all[|a| + i] == b[i];
    assert forall i :: |a| <= i < |all| ==> all[i] == b[i - |a|];
  }

  /** The part of a task that a status update and the artifact updates before it can carry. */
  function View(t: Task): Task { Task(t.id, t.contextId, None, t.status, None, t.artifacts, None, None) }

  /** A client that follows task `t` and has collected `seen`. */
  function Live(t: Task, seen: seq<Artifact>): Progress { Following(seen, Some(t.id), t.contextId) }

  /** The artifacts `t'` has gained over `t`. */
  function Gained(t: Task, t': Task): seq<Artifact>
  {
    if |t.artifacts| <= |t'.artifacts| then t'.artifacts[|t.artifacts|..] else []
  }

  /** Task `id` becomes terminal with the last operation of the run and not before. */
  predicate EndsTerminal(s: Store, ops: seq<Op>, id: string)
    decreases |ops|
  {
    && id in s.tasks && !IsTerminal(s.tasks[id].State()) && ops != []
    && var s' := After(s, ops[0]);
       && id in s'.tasks
       && if IsTerminal(s'.tasks[id].State()) then ops[1..] == [] else EndsTerminal(s', ops[1..], id)
  }

  /** What the client knows after a step that turned `t` into `t'`, having collected `seen` by then. */
  function Known(t': Task, seen: seq<Artifact>): Progress
  {
    if IsTerminal(t'.State()) then Finished(View(t').(artifacts := seen)) else Live(t', seen)
  }

  /** The events of one step change the client's view as the step changes the task. */
  lemma StepIsFolded(s: Store, op: Op, id: string, seen: seq<Artifact>, last: Task)
    requires Inv(s) && Fresh(s, op) && id in s.tasks && !IsTerminal(s.tasks[id].State())
    ensures id in After(s, op).tasks
    ensures var t, t', p := s.tasks[id], After(s, op).tasks[id], Streamed(EventsOf(s, op, id), s.tasks[id].contextId, last);
      Fold(id, Live(t, seen), p) == Known(t', Merged(seen, Gained(t, t')))
  {
    InvParts(s);
    hide Inv, Fold, Streamed, After, EventsOf, Fresh, HasArtifact;
    var t, t', e := s.tasks[id], After(s, op).tasks[id], EventsOf(s, op, id);
    StepShape(s, op, id);
    if e == [] {
      assert Gained(t, t') == [];
    } else if op.OpAddArtifact? {
      FoldArtifact(id, t, seen, op.artifact, last);
      assert Gained(t, t') == [op.artifact];
    } else if op.OpSetStatus? {
      FoldStatus(id, t, seen, op.status, last);
      assert Gained(t, t') == [];
    } else {
      FoldCompletion(id, t, seen, op.result, op.done, last);
      assert Gained(t, t') == [op.result];
    }
  }

  /** The events one step publishes about a task that is not terminal are what it does to that task. */
  lemma StepShape(s: Store, op: Op, id: string)
    requires Fresh(s, op) && id in s.tasks && !IsTerminal(s.tasks[id].State())
    ensures id in After(s, op).tasks
    ensures var t, t', e := s.tasks[id], After(s, op).tasks[id], EventsOf(s, op, id);
      || (e == [] && (t' == t || t' == t.(history := t'.history)))
      || (op.OpAddArtifact? && e == [ArtifactAdded(id, op.artifact)] && t' == t.(artifacts := t.artifacts + [op.artifact]))
      || (op.OpSetStatus? && e == [StatusChanged(id, op.status)] && t' == t.(status := op.status))
      || (op.OpComplete? && e == [ArtifactAdded(id, op.result)] + [StatusChanged(id, op.done)]
          && t' == t.(artifacts := t.artifacts + [op.result]).(status := op.done))
  {
    hide Notified;
    if (op.OpSetStatus? || op.OpAddArtifact? || op.OpComplete? || op.OpAppendHistory?) && op.id == id {
    } else {
      OtherTasksStay(s, op, id);
      hide After, Fresh, EventsOf;
    }
  }

  lemma FoldCompletion(id: string, t: Task, seen: seq<Artifact>, result: Artifact, done: TaskStatus, last: Task)
    requires t.id == id
    ensures Fold(id, Live(t, seen), Streamed([ArtifactAdded(id, result)] + [StatusChanged(id, done)], t.contextId, last)) ==
      Known(t.(artifacts := t.artifacts + [result]).(status := done), Merged(seen, [result]))
  {
    hide Fold, Streamed, HasArtifact;
    FoldArtifact(id, t, seen, result, last);
    FoldStatus(id, t, Merged(seen, [result]), done, last);
    StreamedAppend([ArtifactAdded(id, result)], [StatusChanged(id, done)], t.contextId, last);
    FoldAppend(id, Live(t, seen), Streamed([ArtifactAdded(id, result)], t.contextId, last),
      Streamed([StatusChanged(id, done)], t.contextId, last));
  }

  lemma FoldArtifact(id: string, t: Task, seen: seq<Artifact>, a: Artifact, last: Task)
    ensures Fold(id, Live(t, seen), Streamed([ArtifactAdded(id, a)], t.contextId, last)) == Live(t, Merged(seen, [a]))
  {
    hide HasArtifact;
    var e := [ArtifactAdded(id, a)];
    assert e[1..] == [] && [a][1..] == [];
    assert Streamed(e[1..], t.contextId, last) == [];
    var p := Streamed(e, t.contextId, last);
    assert p == [ArtifactUpdate(Some(a))] + [];
    assert p[1..] == [];
  }

  lemma FoldStatus(id: string, t: Task, seen: seq<Artifact>, status: TaskStatus, last: Task)
    requires t.id == id
    ensures Fold(id, Live(t, seen), Streamed([StatusChanged(id, status)], t.contextId, last)) ==
      if IsTerminal(status.state) then Finished(View(t.(status := status)).(artifacts := seen)) else Live(t, seen)
  {
    var e := [StatusChanged(id, status)];
    assert e[1..] == [];
    var u := StatusUpdate(Some(id), t.contextId, Some(status));
    var p := Streamed(e, t.contextId, last);
    assert p[0] == u;
    if !IsTerminal(status.state) {
      assert Streamed(e[1..], t.contextId, last) == [];
      assert p == [u] + [];
      assert p[1..] == [];
      assert Fold(id, Receive(id, Live(t, seen), u), []) == Live(t, seen);
    }
  }

  /** The artifacts of an event are in the task from that moment on. */
  lemma StepKeepsArtifacts(s: Store, op: Op, id: string, ops: seq<Op>)
    requires Inv(s) && Fresh(s, op) && FreshRun(After(s, op), ops) && id in s.tasks
    ensures id in After(s, op).tasks && id in Run(After(s, op), ops).tasks
    ensures s.tasks[id].artifacts <= After(s, op).tasks[id].artifacts <= Run(After(s, op), ops).tasks[id].artifacts
    ensures After(s, op).tasks[id].contextId == s.tasks[id].contextId
    ensures forall e :: e in EventsOf(s, op, id) && e.ArtifactAdded? ==> e.artifact in After(s, op).tasks[id].artifacts
    ensures forall e :: e in EventsOf(s, op, id) && e.StatusChanged? ==>
      e.taskId == id && e.status == After(s, op).tasks[id].status
  {
    StepEvolves(s, op, id);
    TasksEvolve(After(s, op), ops, id);
  }

  /** Events the snapshot already contains leave the client where the snapshot put it. */
  lemma {:induction false} ReplayIsIgnored(events: seq<TaskEvent>, snapshot: Task, last: Task)
    requires forall e :: e in events && e.ArtifactAdded? ==> e.artifact in snapshot.artifacts
    requires forall e :: e in events && e.StatusChanged? ==> e.taskId == snapshot.id && !IsTerminal(e.status.state)
    ensures Fold(snapshot.id, Live(snapshot, snapshot.artifacts), Streamed(events, snapshot.contextId, last)) ==
      Live(snapshot, snapshot.artifacts)
  {
    if events != [] {
      assert events[0] in events && forall e :: e in events[1..] ==> e in events;
      ReplayIsIgnored(events[1..], snapshot, last);
      var rest := Streamed(events[1..], snapshot.contextId, last);
      var p := Streamed(events, snapshot.contextId, last);
      assert p[1..] == rest;
      if events[0].ArtifactAdded? {
        var i :| 0 <= i < |snapshot.artifacts| && snapshot.artifacts[i] == events[0].artifact;
        assert HasArtifact(snapshot.artifacts, events[0].artifact.artifactId);
      }
      assert Receive(snapshot.id, Live(snapshot, snapshot.artifacts), p[0]) == Live(snapshot, snapshot.artifacts);
    }
  }

  lemma {:induction false} StreamedAppend(a: seq<TaskEvent>, b: seq<TaskEvent>, ctx: Option<string>, last: Task)
    requires forall e :: e in a && e.StatusChanged? ==> !IsTerminal(e.status.state)
    ensures Streamed(a + b, ctx, last) == Streamed(a, ctx, last) + Streamed(b, ctx, last)
  {
    if a == [] {
      assert a + b == b && [] + Streamed(b, ctx, last) == Streamed(b, ctx, last);
    } else {
      assert a[0] in a && forall e :: e in a[1..] ==> e in a;
      assert (a + b)[0] == a[0] && (a + b)[1..] == a[1..] + b;
      StreamedAppend(a[1..], b, ctx, last);
      assert Streamed(a, ctx, last) + Streamed(b, ctx, last)
          == [Streamed(a, ctx, last)[0]] + (Streamed(a[1..], ctx, last) + Streamed(b, ctx, last));
    }
  }

  /** What the events of a run that leaves the task unfinished have in common. */
  lemma {:induction false} UnfinishedEvents(s: Store, ops: seq<Op>, id: string)
    requires Inv(s) && FreshRun(s, ops) && id in s.tasks
    requires id in Run(s, ops).tasks && !IsTerminal(Run(s, ops).tasks[id].State())
    ensures Run(s, ops).tasks[id].contextId == s.tasks[id].contextId && !IsTerminal(s.tasks[id].State())
    ensures forall e :: e in Published(s, ops, id) && e.ArtifactAdded? ==> e.artifact in Run(s, ops).tasks[id].artifacts
    ensures forall e :: e in Published(s, ops, id) && e.StatusChanged? ==> e.taskId == id && !IsTerminal(e.status.state)
    decreases |ops|
  {
    if ops != [] {
      var s' := After(s, ops[0]);
      StepKeepsInv(s, ops[0]);
      StepKeepsArtifacts(s, ops[0], id, ops[1..]);
      StepEvolves(s, ops[0], id);
      TasksEvolve(s', ops[1..], id);
      hide After, EventsOf, Inv, Fresh;
      UnfinishedEvents(s', ops[1..], id);
      var a, b := s'.tasks[id].artifacts, Run(s, ops).tasks[id].artifacts;
      assert forall x :: x in a ==> x in b;
    }
  }

  lemma GainedAdds(t: Task, mid: Task, end: Task)
    requires t.artifacts <= mid.artifacts <= end.artifacts
    ensures Gained(t, end) == Gained(t, mid) + Gained(mid, end)
  {
  }

  /** From any view of the task on, folding the events of a run to its terminal step merges what the task gained. */
  lemma {:induction false} LiveFold(s: Store, ops: seq<Op>, id: string, seen: seq<Artifact>, last: Task)
    requires Inv(s) && FreshRun(s, ops) && EndsTerminal(s, ops, id) && id in Run(s, ops).tasks
    ensures var t, end := s.tasks[id], Run(s, ops).tasks[id];
      Fold(id, Live(t, seen), Streamed(Published(s, ops, id), t.contextId, last)) ==
      Finished(View(end).(artifacts := Merged(seen, Gained(t, end))))
    decreases |ops|
  {
    var s', t := After(s, ops[0]), s.tasks[id];
    StepKeepsInv(s, ops[0]);
    StepKeepsArtifacts(s, ops[0], id, ops[1..]);
    StepIsFolded(s, ops[0], id, seen, last);
    hide After, EventsOf, Inv, Fresh, Merged, Gained;
    var now, later := EventsOf(s, ops[0], id), Published(s', ops[1..], id);
    if IsTerminal(s'.tasks[id].State()) {
      assert now + later == now;
    } else {
      var t', end := s'.tasks[id], Run(s, ops).tasks[id];
      LiveFold(s', ops[1..], id, Merged(seen, Gained(t, t')), last);
      GainedAdds(t, t', end);
      MergedConcat(seen, Gained(t, t'), Gained(t', end));
      StreamedAppend(now, later, t.contextId, last);
      FoldAppend(id, Live(t, seen), Streamed(now, t.contextId, last), Streamed(later, t.contextId, last));
    }
  }

  /** The stored task as the client can know it: its artifacts merged into those of the snapshot it began with. */
  function Collected(snapshot: Task, end: Task): Task
  {
    View(end).(artifacts := Merged(snapshot.artifacts, Gained(snapshot, end)))
  }

  /** The artifacts after the snapshot bring new ids: none of them repeats one that the task had by then. */
  predicate FreshArtifacts(snapshot: Task, end: Task) { BringNewIds(snapshot.artifacts, Gained(snapshot, end)) }

  /**
   * The subscriber's journey. A client subscribes, the store goes through `before`, the server reads its snapshot,
   * the store goes through `after`, whose last step ends the task. Although the snapshot repeats some of the events,
   * the client ends with the stored task's id, context and status, and with its artifacts exactly when none that came
   * after the snapshot repeats an id: the client takes a repeated id for a replay.
   */
  lemma SubscriberSeesTheStoredTask(s: Store, before: seq<Op>, after: seq<Op>, id: string, last: Task)
    requires Inv(s) && FreshRun(s, before) && FreshRun(Run(s, before), after)
    requires id in s.tasks && EndsTerminal(Run(s, before), after, id)
    ensures id in Run(s, before).tasks && id in Run(s, before + after).tasks
    ensures var snapshot, end := Run(s, before).tasks[id], Run(s, before + after).tasks[id];
      && Fold(id, Begin, Stream(snapshot, Published(s, before + after, id), s.tasks[id].contextId, last))
         == Finished(Collected(snapshot, end))
      && (Collected(snapshot, end) == View(end) <==> FreshArtifacts(snapshot, end))
  {
    hide Run, Published, Inv, FreshRun, EndsTerminal, Evolves, Merged, BringNewIds, HasArtifact, Streamed, Fold, Gained;
    var m := Run(s, before);
    UnfinishedAtStart(m, after, id);
    RunKeepsInv(s, before);
    InvParts(m);
    PublishedSplit(s, before, after, id);
    TasksEvolve(s, before, id);
    UnfinishedEvents(s, before, id);
    ArtifactsGrow(m, after, id);
    var snapshot, ctx, end := m.tasks[id], s.tasks[id].contextId, Run(m, after).tasks[id];
    var old', new' := Published(s, before, id), Published(m, after, id);
    ReplayIsIgnored(old', snapshot, last);
    LiveFold(m, after, id, snapshot.artifacts, last);
    StreamedAppend(old', new', ctx, last);
    FoldAppend(id, Live(snapshot, snapshot.artifacts), Streamed(old', ctx, last), Streamed(new', ctx, last));
    FoldOfStream(id, snapshot, old' + new', ctx, last);
    MergedKeepsAllIff(snapshot.artifacts, Gained(snapshot, end));
    GainedIsTheRest(snapshot, end);
  }

  lemma FoldOfStream(id: string, snapshot: Task, events: seq<TaskEvent>, ctx: Option<string>, last: Task)
    requires !IsTerminal(snapshot.State())
    ensures Fold(id, Begin, Stream(snapshot, events, ctx, last)) ==
      Fold(id, Live(snapshot, snapshot.artifacts), Streamed(events, ctx, last))
  {
    hide Streamed;
    var stream := Stream(snapshot, events, ctx, last);
    assert stream[1..] == Streamed(events, ctx, last);
  }

  lemma GainedIsTheRest(t: Task, t': Task)
    requires t.artifacts <= t'.artifacts
    ensures t.artifacts + Gained(t, t') == t'.artifacts
  {
  }

  lemma UnfinishedAtStart(s: Store, ops: seq<Op>, id: string)
    requires EndsTerminal(s, ops, id)
    ensures id in s.tasks && !IsTerminal(s.tasks[id].State())
  {
  }

  lemma ArtifactsGrow(s: Store, ops: seq<Op>, id: string)
    requires FreshRun(s, ops) && id in s.tasks
    ensures id in Run(s, ops).tasks && s.tasks[id].artifacts <= Run(s, ops).tasks[id].artifacts
  {
    TasksEvolve(s, ops, id);
  }

  /** What one event of the channel becomes on the wire. */
  function OnTheWire(e: TaskEvent, contextId: Option<string>): Payload
  {
    match e
    case StatusChanged(id, status) => StatusUpdate(Some(id), contextId, Some(status))
    case ArtifactAdded(_, a) => ArtifactUpdate(Some(a))
  }

  lemma StreamedStep(events: seq<TaskEvent>, contextId: Option<string>, last: Task)
    requires events != []
    ensures Streamed(events, contextId, last) == [OnTheWire(events[0], contextId)] +
      if IsEnd(events[0]) then [TaskSnapshot(Some(last))] else Streamed(events[1..], contextId, last)
  {
  }

  /** Behind a terminal status, and only there, the stream ends in a snapshot with all artifacts. */
  lemma {:induction false} StreamEndsInASnapshot(events: seq<TaskEvent>, contextId: Option<string>, last: Task)
    ensures var stream := Streamed(events, contextId, last);
      if EndsIn(events) then stream != [] && stream[|stream| - 1] == TaskSnapshot(Some(last)) else |stream| == |events|
    decreases |events|
  {
    if events != [] {
      hide IsEnd, OnTheWire, Streamed;
      var e, tail := events[0], events[1..];
      assert events == [e] + tail;
      StreamedStep(events, contextId, last);
      EndsInSum([e], tail);
      assert EndsIn([e]) <==> IsEnd(e) by { assert [e][0] == e; }
      if !IsEnd(e) { StreamEndsInASnapshot(tail, contextId, last); }
    }
  }

  /** The client never looks at that snapshot: it has its answer by then, whatever the snapshot says. */
  lemma {:induction false} LastSnapshotGoesUnread(
      requested: string, p: Progress, events: seq<TaskEvent>, contextId: Option<string>, last: Task, other: Task)
    requires p.Following?
    ensures Fold(requested, p, Streamed(events, contextId, last)) == Fold(requested, p, Streamed(events, contextId, other))
    decreases |events|
  {
    if events != [] {
      hide Receive, OnTheWire, Streamed, Fold;
      var e, first, tail := events[0], OnTheWire(events[0], contextId), events[1..];
      StreamedStep(events, contextId, last);
      StreamedStep(events, contextId, other);
      FoldOne(requested, p, first);
      var next := Receive(requested, p, first);
      if IsEnd(e) {
        assert first.StatusUpdate? && first.status == Some(e.status) by { ToldAsStatus(e, contextId); }
        StopsAtTheEnd(requested, p, first, last);
        StopsAtTheEnd(requested, p, first, other);
      } else {
        FoldAppend(requested, p, [first], Streamed(tail, contextId, last));
        FoldAppend(requested, p, [first], Streamed(tail, contextId, other));
        if next.Following? {
          LastSnapshotGoesUnread(requested, next, tail, contextId, last, other);
        } else {
          FinishedStays(requested, next, Streamed(tail, contextId, last));
          FinishedStays(requested, next, Streamed(tail, contextId, other));
        }
      }
    }
  }

  lemma ToldAsStatus(e: TaskEvent, contextId: Option<string>)
    requires e.StatusChanged?
    ensures OnTheWire(e, contextId).StatusUpdate? && OnTheWire(e, contextId).status == Some(e.status)
  {
  }

  lemma FinishedStays(requested: string, p: Progress, more: seq<Payload>)
    requires p.Finished?
    ensures Fold(requested, p, more) == p
  {
  }

  lemma StopsAtTheEnd(requested: string, p: Progress, said: Payload, last: Task)
    requires p.Following? && said.StatusUpdate? && said.status.Some? && IsTerminal(said.status.value.state)
    ensures Fold(requested, p, [said] + [TaskSnapshot(Some(last))]) == Receive(requested, p, said)
  {
    FoldOne(requested, p, said);
    FoldAppend(requested, p, [said], [TaskSnapshot(Some(last))]);
  }

  /** A snapshot that is already terminal is the answer, whatever follows. */
  lemma TerminalSnapshotIsTheAnswer(id: string, snapshot: Task, events: seq<TaskEvent>, ctx: Option<string>, last: Task)
    requires IsTerminal(snapshot.State())
    ensures Fold(id, Begin, Stream(snapshot, events, ctx, last)) == Finished(snapshot)
  {
  }

  // ---- Over the wire ----

  /** Serialization the decoders undo, in frames the wire can carry; keep-alive comments carry no data. */
  ghost predicate FaithfulWire(d: Decoder, wire: Payload -> Bytes)
  {
    forall p :: IsFrame(wire(p)) && PayloadOf(d, wire(p)) == p
  }

  /**
   * How the server writes an event: on one line, as `data: ` and a text that decodes to the payload. What the line's
   * bytes are and what the text is, is up to the encoders.
   */
  ghost predicate OneLineEach(d: Decoder, wire: Payload -> Bytes, text: Payload -> string)
  {
    forall p ::
      && 0x0A !in wire(p) && d.lossy(wire(p)) == "data: " + text(p)
      && text(p) != "" && OneLine(text(p)) && d.json(text(p)) == p
  }

  lemma OneLineEachIsFaithful(d: Decoder, wire: Payload -> Bytes, text: Payload -> string)
    requires OneLineEach(d, wire, text)
    ensures FaithfulWire(d, wire)
  {
    forall p ensures IsFrame(wire(p)) && PayloadOf(d, wire(p)) == p {
      LineIsFrame(wire(p));
      OneDataLine(d, wire(p), text(p));
    }
  }

  /** The frames of `stream` with any number of comment frames in between. */
  ghost predicate Interleaved(d: Decoder, wire: Payload -> Bytes, frames: seq<Bytes>, stream: seq<Payload>)
  {
    if frames == [] then stream == []
    else
      IsFrame(frames[0]) &&
      (|| (stream != [] && frames[0] == wire(stream[0]) && Interleaved(d, wire, frames[1..], stream[1..]))
       || (PayloadOf(d, frames[0]) == NotJson && Interleaved(d, wire, frames[1..], stream)))
  }

  lemma {:induction false} CommentsAreIgnored(
      d: Decoder, wire: Payload -> Bytes, frames: seq<Bytes>, stream: seq<Payload>, requested: string, p: Progress)
    requires FaithfulWire(d, wire) && Interleaved(d, wire, frames, stream)
    ensures forall i :: 0 <= i < |frames| ==> IsFrame(frames[i])
    ensures Fold(requested, p, Payloads(d, frames)) == Fold(requested, p, stream)
    decreases |frames|
  {
    if frames != [] {
      var rest, ps := frames[1..], Payloads(d, frames);
      assert ps[1..] == Payloads(d, rest) && ps[0] == PayloadOf(d, frames[0]);
      hide PayloadOf, IsFrame, Receive;
      if stream != [] && frames[0] == wire(stream[0]) && Interleaved(d, wire, rest, stream[1..]) {
        assert PayloadOf(d, wire(stream[0])) == stream[0];
        CommentsAreIgnored(d, wire, rest, stream[1..], requested, if p.Following? then Receive(requested, p, stream[0]) else p);
      } else {
        CommentsAreIgnored(d, wire, rest, stream, requested, p);
      }
      assert forall i :: 0 < i < |frames| ==> frames[i] == rest[i - 1];
    }
  }

  // ---- Through the channel ----

  /** The server's stream stops at the end of the task, whatever else it receives. */
  lemma {:induction false} StreamStopsAtTheEnd(a: seq<TaskEvent>, b: seq<TaskEvent>, ctx: Option<string>, last: Task)
    requires EndsIn(a)
    ensures Streamed(a + b, ctx, last) == Streamed(a, ctx, last)
  {
    assert (a + b)[0] == a[0] && (a + b)[1..] == a[1..] + b;
    if !IsEnd(a[0]) {
      EndsInSum([a[0]], a[1..]);
      assert a == [a[0]] + a[1..];
      assert !EndsIn([a[0]]);
      StreamStopsAtTheEnd(a[1..], b, ctx, last);
    }
  }

  /** A client that follows a task finishes exactly when the end of the task is among the events. */
  lemma {:induction false} ClientFinishesIff(
      events: seq<TaskEvent>, id: string, p: Progress, ctx: Option<string>, last: Task)
    requires p.Following?
    ensures Fold(id, p, Streamed(events, ctx, last)).Finished? <==> EndsIn(events)
    decreases |events|
  {
    hide HasArtifact;
    if events != [] {
      var stream := Streamed(events, ctx, last);
      var next := Receive(id, p, stream[0]);
      EndsInSum([events[0]], events[1..]);
      assert events == [events[0]] + events[1..];
      assert EndsIn([events[0]]) <==> IsEnd(events[0]) by { assert [events[0]][0] == events[0]; }
      if !IsEnd(events[0]) {
        assert stream[1..] == Streamed(events[1..], ctx, last);
        ClientFinishesIff(events[1..], id, next, ctx, last);
      }
    }
  }

  /** A run that ends a task publishes its end. */
  lemma {:induction false} EndIsPublished(s: Store, ops: seq<Op>, id: string)
    requires FreshRun(s, ops) && EndsTerminal(s, ops, id)
    ensures EndsIn(Published(s, ops, id))
    decreases |ops|
  {
    var s', es := After(s, ops[0]), EventsOf(s, ops[0], id);
    if IsTerminal(s'.tasks[id].State()) {
      EndingStep(s, ops[0], id);
      assert IsEnd(es[|es| - 1]);
      assert es + [] == es;
    } else {
      hide After, EventsOf, Fresh, EndsIn;
      EndIsPublished(s', ops[1..], id);
      EndsInSum(es, Published(s', ops[1..], id));
    }
  }

  lemma TheEndIsReceived(s: Store, before: seq<Op>, after: seq<Op>, later: seq<Op>, id: string, c: nat)
    requires FreshRun(Run(s, before), after) && EndsTerminal(Run(s, before), after, id)
    requires Waiting(s.subs, id, c, [])
    requires forall i :: 0 <= i < |before + after + later| ==> Leaves((before + after + later)[i], id, c)
    requires NeverFull(s, before + after, id, c, [])
    requires |Received(s, before + after + later, id, c, [])| >= |Published(s, before + after, id)|
    ensures Published(s, before + after, id) <= Received(s, before + after + later, id, c, [])
    ensures EndsIn(Published(s, before + after, id))
  {
    hide Run, Published, Received, FreshRun, EndsTerminal, NeverFull, EndsIn, Waiting, Leaves;
    PublishedSplit(s, before, after, id);
    EndIsPublished(Run(s, before), after, id);
    EndsInSum(Published(s, before, id), Published(Run(s, before), after, id));
    ReceivedByNow(s, before + after, later, id, c);
  }

  /**
   * Through the channel: the client that subscribed before `before`, whose snapshot was read before `after` and whose
   * channel was never full up to the end of the task, ends with the stored task once the server has taken as many
   * events as were published by then, whatever happens `later`.
   */
  lemma SubscriberIsServedThroughItsChannel(
      s: Store, before: seq<Op>, after: seq<Op>, later: seq<Op>, id: string, c: nat, last: Task)
    requires Inv(s) && FreshRun(s, before) && FreshRun(Run(s, before), after)
    requires id in s.tasks && EndsTerminal(Run(s, before), after, id)
    requires Waiting(s.subs, id, c, [])
    requires forall i :: 0 <= i < |before + after + later| ==> Leaves((before + after + later)[i], id, c)
    requires NeverFull(s, before + after, id, c, [])
    requires |Received(s, before + after + later, id, c, [])| >= |Published(s, before + after, id)|
    ensures id in Run(s, before).tasks && id in Run(s, before + after).tasks
    ensures var snapshot, end := Run(s, before).tasks[id], Run(s, before + after).tasks[id];
      Fold(id, Begin, Stream(snapshot, Received(s, before + after + later, id, c, []), s.tasks[id].contextId, last))
      == Finished(Collected(snapshot, end))
  {
    hide Run, Published, Received, Inv, FreshRun, EndsTerminal, NeverFull, EndsIn, Streamed, Fold, Waiting, Leaves;
    SubscriberSeesTheStoredTask(s, before, after, id, last);
    TheEndIsReceived(s, before, after, later, id, c);
    var told, got := Published(s, before + after, id), Received(s, before + after + later, id, c, []);
    StreamStopsAtTheEnd(told, got[|told|..], s.tasks[id].contextId, last);
    assert told + got[|told|..] == got;
  }

  lemma NoEndBefore(s: Store, ops: seq<Op>, id: string, c: nat)
    requires Inv(s) && FreshRun(s, ops) && Waiting(s.subs, id, c, []) && forall i :: 0 <= i < |ops| ==> Leaves(ops[i], id, c)
    requires id in s.tasks && id in Run(s, ops).tasks && !IsTerminal(Run(s, ops).tasks[id].State())
    ensures !EndsIn(Received(s, ops, id, c, []))
    ensures !EndsIn(QueueAfter(s, ops, id, c, [])) && |QueueAfter(s, ops, id, c, [])| <= CAPACITY
  {
    hide Run, Received, QueueAfter, Inv, FreshRun, Waiting, Leaves, Published;
    UnfinishedEvents(s, ops, id);
    NoEndReceived(s, ops, id, c, []);
    DeliveryIsCompleteIff(s, ops, id, c, []);
  }

  lemma LostEndIsNotReceived(s: Store, ops: seq<Op>, op: Op, later: seq<Op>, id: string, c: nat)
    requires Inv(s) && FreshRun(s, ops + [op] + later) && Waiting(s.subs, id, c, [])
    requires forall i :: 0 <= i < |ops| ==> Leaves(ops[i], id, c)
    requires id in s.tasks && id in Run(s, ops).tasks && !IsTerminal(Run(s, ops).tasks[id].State())
    requires id in After(Run(s, ops), op).tasks && IsTerminal(After(Run(s, ops), op).tasks[id].State())
    requires !HasRoom(Run(s, ops), op, id, QueueAfter(s, ops, id, c, []))
    ensures !EndsIn(Received(s, ops + [op] + later, id, c, []))
  {
    hide Run, After, Inv, EndsIn, QueueStep, EventsOf, HasRoom, Waiting, Leaves, QueueAfter, Fresh;
    var mid, q := Run(s, ops), QueueAfter(s, ops, id, c, []);
    var end, q' := After(mid, op), QueueStep(mid, op, id, c, q);
    var rest := [op] + later;
    assert ops + [op] + later == ops + rest && rest[0] == op && rest[1..] == later;
    PublishedSplit(s, ops, rest, id);
    RunKeepsInv(s, ops);
    NoEndBefore(s, ops, id, c);
    EndIsQueuedIff(mid, op, id, c, q);
    EndingStep(mid, op, id);
    NoSecondEnd(end, later, id);
    NoEndReceived(end, later, id, c, q');
    ReceivedSplit(s, ops, rest, id, c, []);
    assert Received(mid, rest, id, c, q) == Received(end, later, id, c, q') by {
      assert Received(mid, rest, id, c, q) == TakenBy(op, id, c, q) + Received(end, later, id, c, q');
    }
    EndsInSum(Received(s, ops, id, c, []), Received(end, later, id, c, q'));
  }

  /**
   * Without the guard: when the step that ends the task finds no room for what it publishes, the end is lost, no later
   * event makes up for it, and the client never finishes.
   */
  lemma LostEndIsNeverMadeUpFor(
      s: Store, ops: seq<Op>, op: Op, later: seq<Op>, id: string, c: nat, last: Task, snapshot: Task, ctx: Option<string>)
    requires Inv(s) && FreshRun(s, ops + [op] + later) && Waiting(s.subs, id, c, [])
    requires forall i :: 0 <= i < |ops| ==> Leaves(ops[i], id, c)
    requires id in s.tasks && id in Run(s, ops).tasks && !IsTerminal(Run(s, ops).tasks[id].State())
    requires id in After(Run(s, ops), op).tasks && IsTerminal(After(Run(s, ops), op).tasks[id].State())
    requires !HasRoom(Run(s, ops), op, id, QueueAfter(s, ops, id, c, [])) && !IsTerminal(snapshot.State())
    ensures Fold(id, Begin, Stream(snapshot, Received(s, ops + [op] + later, id, c, []), ctx, last)).Following?
  {
    hide Run, Received, After, Inv, FreshRun, EndsIn, QueueAfter, HasRoom, Waiting, Stream, Fold, Leaves;
    LostEndIsNotReceived(s, ops, op, later, id, c);
    StreamOfUnfinished(snapshot, Received(s, ops + [op] + later, id, c, []), id, ctx, last);
  }

  lemma StreamOfUnfinished(snapshot: Task, events: seq<TaskEvent>, id: string, ctx: Option<string>, last: Task)
    requires !IsTerminal(snapshot.State())
    ensures Fold(id, Begin, Stream(snapshot, events, ctx, last)).Finished? <==> EndsIn(events)
  {
    hide Streamed, EndsIn;
    var stream := Stream(snapshot, events, ctx, last);
    assert stream[1..] == Streamed(events, ctx, last);
    ClientFinishesIff(events, id, Live(snapshot, snapshot.artifacts), ctx, last);
  }

  /**
   * End to end: whatever chunks the network delivers, with keep-alive comments anywhere between the events
   * and a last frame cut short, the client of a channel that was never full up to the end of the task returns
   * the task as the store holds it, unless an artifact published after the snapshot repeats an id.
   */
  lemma ClientReturnsTheStoredTask(
      d: Decoder, wire: Payload -> Bytes, text: Payload -> string, s: Store, before: seq<Op>, after: seq<Op>,
      later: seq<Op>, id: string, c: nat, last: Task, frames: seq<Bytes>, partial: Bytes, chunks: seq<Bytes>, end: StreamEnd)
    requires OneLineEach(d, wire, text)
    requires Inv(s) && FreshRun(s, before) && FreshRun(Run(s, before), after)
    requires id in s.tasks && id in Run(s, before).tasks && EndsTerminal(Run(s, before), after, id)
    requires Waiting(s.subs, id, c, [])
    requires forall i :: 0 <= i < |before + after + later| ==> Leaves((before + after + later)[i], id, c)
    requires NeverFull(s, before + after, id, c, [])
    requires |Received(s, before + after + later, id, c, [])| >= |Published(s, before + after, id)|
    requires Interleaved(d, wire, frames,
      Stream(Run(s, before).tasks[id], Received(s, before + after + later, id, c, []), s.tasks[id].contextId, last))
    requires FindBreak(partial).None? && Flatten(chunks) == Join(frames) + partial
    ensures id in Run(s, before + after).tasks
    ensures var snapshot, stored := Run(s, before).tasks[id], Run(s, before + after).tasks[id];
      && Outcome(d, id, Flatten(chunks), end) == Ok(Collected(snapshot, stored))
      && (Outcome(d, id, Flatten(chunks), end) == Ok(View(stored)) <==> FreshArtifacts(snapshot, stored))
  {
    hide NeverFull, Leaves, Received, Waiting, Published, Run, FreshRun, EndsTerminal;
    SubscriberSeesTheStoredTask(s, before, after, id, last);
    SubscriberIsServedThroughItsChannel(s, before, after, later, id, c, last);
    OneLineEachIsFaithful(d, wire, text);
    var got := Received(s, before + after + later, id, c, []);
    CommentsAreIgnored(d, wire, frames, Stream(Run(s, before).tasks[id], got, s.tasks[id].contextId, last), id, Begin);
    FramesOfJoin(frames, partial);
  }

  lemma MergedLast(known: seq<Artifact>, more: seq<Artifact>, a: Artifact)
    requires !HasArtifact(known, a.artifactId) && !HasArtifact(more, a.artifactId)
    ensures Merged(known, more + [a]) == Merged(known, more) + [a]
  {
    hide HasArtifact;
    MergedConcat(known, more, [a]);
    MergedHasIff(known, more, a.artifactId);
    assert [a][1..] == [];
  }

  /** What completing task `id` with this result writes. */
  lemma CompletionWritesTheResult(
      s: Store, before: seq<Op>, rest: seq<Op>, id: string, artifactId: string, result: Json, messageId: string, now: int)
    requires FreshRun(s, before) && FreshRun(Run(s, before), rest) && id in s.tasks && id in Run(s, before).tasks
    requires id in Run(s, before + rest).tasks && Run(s, before + rest).tasks[id].State() == Working
    ensures var op := OpComplete(id, Artifact(artifactId, Some("result"), [result]),
        TaskStatus(Completed, now, Some(Message(messageId, ["Task completed successfully"]))));
      var was, stored := Run(s, before + rest).tasks[id], After(Run(s, before + rest), op).tasks;
      && id in stored
      && stored[id].status == TaskStatus(Completed, now, Some(Message(messageId, ["Task completed successfully"])))
      && stored[id].artifacts == was.artifacts + [Artifact(artifactId, Some("result"), [result])]
  {
    hide Notified;
  }

  /**
   * The agent's answer reaches its client: when the run ends with the completion of the task with `result`, the client
   * of a channel that was never full returns a task that is completed at that time, with the success message, and whose
   * last artifact is the result under the given id, if no earlier artifact of the task has that id.
   */
  lemma ResultReachesTheClient(
      d: Decoder, wire: Payload -> Bytes, text: Payload -> string, s: Store, before: seq<Op>, rest: seq<Op>,
      later: seq<Op>, id: string, c: nat, last: Task, frames: seq<Bytes>, partial: Bytes, chunks: seq<Bytes>, end: StreamEnd,
      artifactId: string, result: Json, messageId: string, now: int)
    requires OneLineEach(d, wire, text)
    requires var done := TaskStatus(Completed, now, Some(Message(messageId, ["Task completed successfully"])));
      var after := rest + [OpComplete(id, Artifact(artifactId, Some("result"), [result]), done)];
      && Inv(s) && FreshRun(s, before) && FreshRun(Run(s, before), after)
      && id in s.tasks && id in Run(s, before).tasks && EndsTerminal(Run(s, before), after, id)
      && Waiting(s.subs, id, c, [])
      && (forall i :: 0 <= i < |before + after + later| ==> Leaves((before + after + later)[i], id, c))
      && NeverFull(s, before + after, id, c, [])
      && |Received(s, before + after + later, id, c, [])| >= |Published(s, before + after, id)|
      && Interleaved(d, wire, frames,
           Stream(Run(s, before).tasks[id], Received(s, before + after + later, id, c, []), s.tasks[id].contextId, last))
    requires FindBreak(partial).None? && Flatten(chunks) == Join(frames) + partial
    requires id in Run(s, before + rest).tasks ==> !HasArtifact(Run(s, before + rest).tasks[id].artifacts, artifactId)
    ensures var r := Outcome(d, id, Flatten(chunks), end);
      && r.Ok? && r.value.id == id
      && r.value.status == TaskStatus(Completed, now, Some(Message(messageId, ["Task completed successfully"])))
      && r.value.artifacts != []
      && r.value.artifacts[|r.value.artifacts| - 1] == Artifact(artifactId, Some("result"), [result])
  {
    hide NeverFull, Leaves, Received, Waiting, Published, Run, FreshRun, EndsTerminal, HasArtifact, Interleaved, OneLineEach, Outcome,
      Stream, After, Inv, Merged;
    var result' := Artifact(artifactId, Some("result"), [result]);
    var op := OpComplete(id, result', TaskStatus(Completed, now, Some(Message(messageId, ["Task completed successfully"]))));
    var after := rest + [op];
    ClientReturnsTheStoredTask(d, wire, text, s, before, after, later, id, c, last, frames, partial, chunks, end);
    RunIsAppended(s, before, rest, op);
    PublishedSplit(s, before, rest, id);
    LastStepEnds(Run(s, before), rest, op, id);
    OnlyWorkingCompletes(Run(s, before + rest), op, id);
    CompletionWritesTheResult(s, before, rest, id, artifactId, result, messageId, now);
    ArtifactsGrow(Run(s, before), rest, id);
    PublishedSplit(s, before, after, id);
    FreshSum(s, before, after);
    IdIsKept(s, before + after, id);
    var snapshot, was, stored := Run(s, before).tasks[id], Run(s, before + rest).tasks[id], Run(s, before + after).tasks[id];
    GainedIsTheRest(snapshot, was);
    assert Gained(snapshot, stored) == Gained(snapshot, was) + [result'];
    HasInSum(snapshot.artifacts, Gained(snapshot, was), artifactId);
    MergedLast(snapshot.artifacts, Gained(snapshot, was), result');
  }

  lemma {:induction false} LastStepEnds(s: Store, rest: seq<Op>, op: Op, id: string)
    requires EndsTerminal(s, rest + [op], id)
    ensures id in Run(s, rest).tasks && !IsTerminal(Run(s, rest).tasks[id].State())
    ensures id in After(Run(s, rest), op).tasks && IsTerminal(After(Run(s, rest), op).tasks[id].State())
    decreases |rest|
  {
    hide After;
    if rest == [] {
      assert [] + [op] == [op] && [op][1..] == [];
    } else {
      assert (rest + [op])[0] == rest[0] && (rest + [op])[1..] == rest[1..] + [op];
      LastStepEnds(After(s, rest[0]), rest[1..], op, id);
    }
  }

  lemma OnlyWorkingCompletes(s: Store, op: Op, id: string)
    requires op.OpComplete? && op.id == id && id in s.tasks && !IsTerminal(s.tasks[id].State())
    requires id in After(s, op).tasks && IsTerminal(After(s, op).tasks[id].State())
    ensures s.tasks[id].State() == Working
  {
    hide Notified;
  }

  lemma RunIsAppended(s: Store, before: seq<Op>, rest: seq<Op>, op: Op)
    ensures Run(s, before + (rest + [op])) == After(Run(s, before + rest), op)
    ensures FreshRun(Run(s, before), rest + [op]) ==> FreshRun(Run(s, before), rest)
  {
    hide After, Fresh;
    PublishedSplit(s, before + rest, [op], "");
    PublishedSplit(Run(s, before), rest, [op], "");
    assert before + (rest + [op]) == (before + rest) + [op];
    assert [op][1..] == [];
  }

  lemma {:induction false} FreshSum(s: Store, a: seq<Op>, b: seq<Op>)
    requires FreshRun(s, a) && FreshRun(Run(s, a), b)
    ensures FreshRun(s, a + b)
    decreases |a|
  {
    hide After, Fresh;
    if a == [] {
      assert a + b == b;
    } else {
      assert (a + b)[0] == a[0] && (a + b)[1..] == a[1..] + b;
      FreshSum(After(s, a[0]), a[1..], b);
    }
  }

  lemma IdIsKept(s: Store, ops: seq<Op>, id: string)
    requires Inv(s) && FreshRun(s, ops) && id in Run(s, ops).tasks
    ensures Run(s, ops).tasks[id].id == id
  {
    RunKeepsInv(s, ops);
    InvParts(Run(s, ops));
  }

  /** And when the end found no room, the client gets no task at all, only the end of the connection. */
  lemma ClientWithFullChannelGetsNoTask(
      d: Decoder, wire: Payload -> Bytes, text: Payload -> string, s: Store, ops: seq<Op>, op: Op, later: seq<Op>,
      id: string, c: nat, last: Task, snapshot: Task, ctx: Option<string>, frames: seq<Bytes>, partial: Bytes, chunks: seq<Bytes>, end: StreamEnd)
    requires OneLineEach(d, wire, text) && !IsTerminal(snapshot.State())
    requires Inv(s) && FreshRun(s, ops + [op] + later) && Waiting(s.subs, id, c, [])
    requires forall i :: 0 <= i < |ops| ==> Leaves(ops[i], id, c)
    requires id in s.tasks && id in Run(s, ops).tasks && !IsTerminal(Run(s, ops).tasks[id].State())
    requires id in After(Run(s, ops), op).tasks && IsTerminal(After(Run(s, ops), op).tasks[id].State())
    requires !HasRoom(Run(s, ops), op, id, QueueAfter(s, ops, id, c, []))
    requires Interleaved(d, wire, frames, Stream(snapshot, Received(s, ops + [op] + later, id, c, []), ctx, last))
    requires FindBreak(partial).None? && Flatten(chunks) == Join(frames) + partial
    ensures Outcome(d, id, Flatten(chunks), end) == Err(ErrorOf(end))
  {
    hide Leaves, Received, Waiting, Run, FreshRun, After, HasRoom, QueueAfter, Inv;
    LostEndIsNeverMadeUpFor(s, ops, op, later, id, c, last, snapshot, ctx);
    var stream := Stream(snapshot, Received(s, ops + [op] + later, id, c, []), ctx, last);
    OneLineEachIsFaithful(d, wire, text);
    CommentsAreIgnored(d, wire, frames, stream, id, Begin);
    FramesOfJoin(frames, partial);
  }
}
