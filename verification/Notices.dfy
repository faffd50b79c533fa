/**
 * Operations in two steps. The store releases the task map before it notifies, so the notices of concurrent writers
 * may reach the subscribers in another order than their changes reached the tasks.
 */
module Notices {
  import opened Options
  import opened Sequences
  import opened Tasks
  import opened TaskStore
  import opened TaskRuns
  import opened Delivery
  import opened Sse
  import opened Journey

  /** The events an operation still has to announce about one task, in its own order. */
  datatype Notice = Notice(id: string, events: seq<TaskEvent>)

  datatype Busy = Busy(store: Store, outbox: seq<Notice>)

  /** An operation changes the maps, or the `k`-th operation still in the middle sends its next notice. */
  datatype Phase = Commits(op: Op) | Notifies(k: nat)

  predicate Announces(op: Op) { op.OpSetStatus? || op.OpAddArtifact? || op.OpComplete? }

  function Committed(s: Store, op: Op): Store { if Announces(op) then After(s, op).(subs := s.subs) else After(s, op) }

  function NoticesOf(s: Store, op: Op): seq<Notice>
  {
    if Announces(op) && EventsOf(s, op, op.id) != [] then [Notice(op.id, EventsOf(s, op, op.id))] else []
  }

  predicate CanNotify(b: Busy, k: nat) { k < |b.outbox| && b.outbox[k].events != [] }

  function Advance(b: Busy, ph: Phase): Busy
  {
    match ph
    case Commits(op) => Busy(Committed(b.store, op), b.outbox + NoticesOf(b.store, op))
    case Notifies(k) =>
      if !CanNotify(b, k) then b
      else
        var n := b.outbox[k];
        var rest := if |n.events| == 1 then [] else [Notice(n.id, n.events[1..])];
        Busy(Notify(b.store, n.id, n.events[0]), b.outbox[..k] + rest + b.outbox[k + 1..])
  }

  function SentBy(b: Busy, ph: Phase, id: string): seq<TaskEvent>
  {
    if ph.Notifies? && CanNotify(b, ph.k) && b.outbox[ph.k].id == id then [b.outbox[ph.k].events[0]] else []
  }

  function AfterAll(b: Busy, phases: seq<Phase>): Busy
    decreases |phases|
  {
    if phases == [] then b else AfterAll(Advance(b, phases[0]), phases[1..])
  }

  /** The events announced about one task, in the order in which the notices are sent. */
  function Sent(b: Busy, phases: seq<Phase>, id: string): seq<TaskEvent>
    decreases |phases|
  {
    if phases == [] then [] else SentBy(b, phases[0], id) + Sent(Advance(b, phases[0]), phases[1..], id)
  }

  /** The operations in the order of their changes. */
  function Changes(phases: seq<Phase>): seq<Op>
  {
    if phases == [] then []
    else (if phases[0].Commits? then [phases[0].op] else []) + Changes(phases[1..])
  }

  // ---- The tasks follow the changes ----

  predicate SameTasks(a: Store, b: Store)
  {
    a.tasks == b.tasks && a.keys == b.keys && a.seqs == b.seqs && a.nextSeq == b.nextSeq
  }

  lemma StepIgnoresSubscribers(a: Store, b: Store, op: Op)
    requires SameTasks(a, b)
    ensures SameTasks(Committed(a, op), After(b, op))
  {
    AfterIgnoresSubscribers(a, b, op);
    hide After;
  }

  lemma AfterIgnoresSubscribers(a: Store, b: Store, op: Op)
    requires SameTasks(a, b)
    ensures SameTasks(After(a, op), After(b, op))
  {
    hide Notified, Registered, Pruned, Taken, HungUp, NewlySubmitted, IsValidTransition, IsTerminal;
  }

  /** Whatever notices are sent when, the tasks are those of the run of whole operations in the order of their changes. */
  lemma {:induction false} TasksFollowChanges(b: Busy, s: Store, phases: seq<Phase>)
    requires SameTasks(b.store, s)
    ensures SameTasks(AfterAll(b, phases).store, Run(s, Changes(phases)))
    decreases |phases|
  {
    hide Committed, After, NoticesOf, Notified, SameTasks;
    if phases != [] {
      var next := Advance(b, phases[0]);
      if phases[0].Commits? {
        var op := phases[0].op;
        StepIgnoresSubscribers(b.store, s, op);
        assert Changes(phases)[0] == op && Changes(phases)[1..] == Changes(phases[1..]);
        TasksFollowChanges(next, After(s, op), phases[1..]);
      } else {
        assert Changes(phases) == Changes(phases[1..]);
        NotifyKeepsTasks(b, phases[0].k, s);
        TasksFollowChanges(next, s, phases[1..]);
      }
    }
  }

  lemma NotifyKeepsTasks(b: Busy, k: nat, s: Store)
    requires SameTasks(b.store, s)
    ensures SameTasks(Advance(b, Notifies(k)).store, s)
  {
    hide Notified;
  }

  // ---- No notice is lost ----

  /** The events about one task that operations still in the middle have to announce. */
  function Pending(outbox: seq<Notice>, id: string): multiset<TaskEvent>
  {
    if outbox == [] then multiset{}
    else (if outbox[0].id == id then multiset(outbox[0].events) else multiset{}) + Pending(outbox[1..], id)
  }

  lemma {:induction false} PendingConcat(xs: seq<Notice>, ys: seq<Notice>, id: string)
    ensures Pending(xs + ys, id) == Pending(xs, id) + Pending(ys, id)
  {
    if xs == [] {
      assert xs + ys == ys;
    } else {
      assert (xs + ys)[0] == xs[0] && (xs + ys)[1..] == xs[1..] + ys;
      PendingConcat(xs[1..], ys, id);
    }
  }

  lemma PendingOne(n: Notice, id: string)
    ensures Pending([n], id) == if n.id == id then multiset(n.events) else multiset{}
  {
    assert [n][1..] == [];
  }

  lemma CommitIsPending(s: Store, op: Op, id: string)
    ensures Pending(NoticesOf(s, op), id) == multiset(EventsOf(s, op, id))
  {
    if NoticesOf(s, op) != [] { PendingOne(NoticesOf(s, op)[0], id); }
  }

  lemma EventsIgnoreSubscribers(a: Store, b: Store, op: Op, id: string)
    requires SameTasks(a, b)
    ensures EventsOf(a, op, id) == EventsOf(b, op, id)
  {
    hide Notified, Registered, Pruned, Taken, HungUp;
  }

  lemma NotifyTakesOne(b: Busy, k: nat, id: string)
    ensures multiset(SentBy(b, Notifies(k), id)) + Pending(Advance(b, Notifies(k)).outbox, id) == Pending(b.outbox, id)
  {
    hide Notified;
    if CanNotify(b, k) {
      var front, n, back := b.outbox[..k], b.outbox[k], b.outbox[k + 1..];
      var rest := if |n.events| == 1 then [] else [Notice(n.id, n.events[1..])];
      assert b.outbox == front + [n] + back;
      assert n.events == [n.events[0]] + n.events[1..];
      PendingConcat(front + [n], back, id);
      PendingConcat(front, [n], id);
      PendingConcat(front + rest, back, id);
      PendingConcat(front, rest, id);
      PendingOne(n, id);
      PendingOne(Notice(n.id, n.events[1..]), id);
    }
  }

  lemma NoPhases(b: Busy, s: Store, id: string)
    ensures Sent(b, [], id) == [] && AfterAll(b, []) == b && Published(s, Changes([]), id) == []
  {
  }

  lemma SentStep(b: Busy, phases: seq<Phase>, id: string)
    requires phases != []
    ensures multiset(Sent(b, phases, id)) ==
      multiset(SentBy(b, phases[0], id)) + multiset(Sent(Advance(b, phases[0]), phases[1..], id))
    ensures AfterAll(b, phases) == AfterAll(Advance(b, phases[0]), phases[1..])
  {
    hide SentBy, Advance;
  }

  lemma PublishedStep(s: Store, phases: seq<Phase>, id: string)
    requires phases != []
    ensures phases[0].Notifies? ==> Published(s, Changes(phases), id) == Published(s, Changes(phases[1..]), id)
    ensures phases[0].Commits? ==>
      multiset(Published(s, Changes(phases), id)) ==
      multiset(EventsOf(s, phases[0].op, id)) + multiset(Published(After(s, phases[0].op), Changes(phases[1..]), id))
  {
    hide EventsOf, After;
    if phases[0].Commits? {
      assert Changes(phases)[0] == phases[0].op && Changes(phases)[1..] == Changes(phases[1..]);
    } else {
      assert Changes(phases) == Changes(phases[1..]);
    }
  }

  lemma CommitMovesToPending(b: Busy, s: Store, op: Op, id: string)
    requires SameTasks(b.store, s)
    ensures var next := Advance(b, Commits(op));
      && SameTasks(next.store, After(s, op)) && SentBy(b, Commits(op), id) == []
      && Pending(next.outbox, id) == Pending(b.outbox, id) + multiset(EventsOf(s, op, id))
  {
    hide Committed, After, NoticesOf, EventsOf, SameTasks, Pending;
    StepIgnoresSubscribers(b.store, s, op);
    EventsIgnoreSubscribers(b.store, s, op, id);
    CommitIsPending(b.store, op, id);
    PendingConcat(b.outbox, NoticesOf(b.store, op), id);
  }

  /**
   * In every schedule each notice is sent once: what was announced about a task and what still has to be is what had to
   * be before and what the run of whole operations, in the order of the changes, publishes.
   */
  lemma {:induction false} EveryNoticeIsSentOnce(b: Busy, s: Store, phases: seq<Phase>, id: string)
    requires SameTasks(b.store, s)
    ensures multiset(Sent(b, phases, id)) + Pending(AfterAll(b, phases).outbox, id) ==
      Pending(b.outbox, id) + multiset(Published(s, Changes(phases), id))
    decreases |phases|
  {
    hide Advance, After, EventsOf, SameTasks, SentBy, Pending, Sent, AfterAll, Published, Changes;
    if phases == [] {
      NoPhases(b, s, id);
    } else {
      var ph, rest := phases[0], phases[1..];
      SentStep(b, phases, id);
      PublishedStep(s, phases, id);
      var sent, later := multiset(SentBy(b, ph, id)), multiset(Sent(Advance(b, ph), rest, id));
      var left, waiting := Pending(AfterAll(b, phases).outbox, id), Pending(Advance(b, ph).outbox, id);
      match ph
      case Commits(op) =>
        CommitMovesToPending(b, s, op, id);
        EveryNoticeIsSentOnce(Advance(b, ph), After(s, op), rest, id);
        Balance(sent, later, left, Pending(b.outbox, id), waiting, multiset(EventsOf(s, op, id)),
                multiset(Published(After(s, op), Changes(rest), id)));
      case Notifies(k) =>
        NotifyKeepsTasks(b, k, s);
        NotifyTakesOne(b, k, id);
        EveryNoticeIsSentOnce(Advance(b, ph), s, rest, id);
        Balance(sent, later, left, Pending(b.outbox, id), waiting, multiset{}, multiset(Published(s, Changes(rest), id)));
    }
  }

  /** What one phase moves, and all later ones, in sum. */
  lemma Balance<T>(
      sent: multiset<T>, later: multiset<T>, left: multiset<T>, before: multiset<T>, waiting: multiset<T>,
      made: multiset<T>, published: multiset<T>)
    requires sent + waiting == before + made && later + left == waiting + published
    ensures (sent + later) + left == before + (made + published)
  {
    forall e ensures ((sent + later) + left)[e] == (before + (made + published))[e] {
      assert (sent + waiting)[e] == (before + made)[e] && (later + left)[e] == (waiting + published)[e];
    }
  }

  /** A whole operation is the two steps without anything in between. */
  lemma WholeOperationIsASchedule(s: Store, op: Op)
    requires Announces(op) && Step(s, op).1.value.Done?
    ensures var notify := if op.OpComplete? then [Notifies(0), Notifies(0)] else [Notifies(0)];
      AfterAll(Busy(s, []), [Commits(op)] + notify) == Busy(After(s, op), [])
  {
    hide Notified;
    var b, one := Advance(Busy(s, []), Commits(op)), [Notifies(0)];
    var n := NoticesOf(s, op);
    assert b == Busy(Committed(s, op), n) by { assert [] + n == n; }
    assert one[0] == Notifies(0) && one[1..] == [];
    if op.OpComplete? {
      var two := [Notifies(0), Notifies(0)];
      assert two[0] == Notifies(0) && two[1..] == one;
      var es := n[0].events;
      assert es[1..] == [es[1]];
      var mid := Advance(b, Notifies(0));
      assert mid == Busy(Notify(b.store, op.id, es[0]), [Notice(op.id, es[1..])]);
      assert Advance(mid, Notifies(0)) == Busy(After(s, op), []);
      assert ([Commits(op)] + two)[1..] == two;
      assert AfterAll(b, two) == AfterAll(mid, one) == AfterAll(Advance(mid, Notifies(0)), []);
    } else {
      assert Advance(b, Notifies(0)) == Busy(After(s, op), []);
      assert ([Commits(op)] + one)[1..] == one;
      assert AfterAll(b, one) == AfterAll(Advance(b, Notifies(0)), []);
    }
  }

  /** An operation that announces nothing, and a refused one, is a single step. */
  lemma QuietOperationIsOneStep(s: Store, op: Op, outbox: seq<Notice>)
    requires Announces(op) ==> Step(s, op).1.value.Refused?
    ensures Advance(Busy(s, outbox), Commits(op)) == Busy(After(s, op), outbox)
  {
    hide Notified, Registered, Pruned, Taken, HungUp;
    assert NoticesOf(s, op) == [];
  }

  lemma {:induction false} CommittedArtifactIsStored(s: Store, ops: seq<Op>, id: string, a: Artifact, i: nat)
    requires FreshRun(s, ops) && id in s.tasks && i < |ops| && ops[i] == OpAddArtifact(id, a)
    ensures id in Run(s, ops).tasks && a in Run(s, ops).tasks[id].artifacts
    decreases |ops|
  {
    var s' := After(s, ops[0]);
    StepEvolves(s, ops[0], id);
    if i > 0 {
      CommittedArtifactIsStored(s', ops[1..], id, a, i - 1);
    } else {
      TasksEvolve(s', ops[1..], id);
      var was, now := s'.tasks[id].artifacts, Run(s', ops[1..]).tasks[id].artifacts;
      assert was[|was| - 1] == a;
    }
  }

  // ---- What the client collects ----

  /** The artifacts announced before the end of the task. */
  function Timely(events: seq<TaskEvent>): seq<Artifact>
  {
    if events == [] || IsEnd(events[0]) then []
    else (if events[0].ArtifactAdded? then [events[0].artifact] else []) + Timely(events[1..])
  }

  /** The client's task has the timely artifacts, merged into those it knew. */
  lemma {:induction false} ClientCollectsTheTimely(
      events: seq<TaskEvent>, id: string, seen: seq<Artifact>, task: Option<string>, at: Option<string>,
      ctx: Option<string>, last: Task)
    requires EndsIn(events)
    ensures var p := Fold(id, Following(seen, task, at), Streamed(events, ctx, last));
      p.Finished? && p.task.artifacts == Merged(seen, Timely(events))
    decreases |events|
  {
    hide HasArtifact;
    var e, p := events[0], Following(seen, task, at);
    var stream := Streamed(events, ctx, last);
    if IsEnd(e) {
      assert Receive(id, p, stream[0]).Finished?;
    } else {
      EndsInSum([e], events[1..]);
      assert events == [e] + events[1..] && !EndsIn([e]);
      assert stream[1..] == Streamed(events[1..], ctx, last);
      var next := Receive(id, p, stream[0]);
      ClientCollectsTheTimely(events[1..], id, next.artifacts, next.taskId, next.contextId, ctx, last);
      if e.ArtifactAdded? { MergedConcat(seen, [e.artifact], Timely(events[1..])); assert [e.artifact][1..] == []; }
      else { assert [] + Timely(events[1..]) == Timely(events[1..]); }
    }
  }

  /**
   * For every schedule of changes and notices: an artifact whose change was made is stored, but the client of a
   * channel with room gets its id exactly when the snapshot had it or its notice was sent before the end of the
   * task. A concurrent artifact is overtaken by the end exactly when the end's notice comes first.
   */
  lemma ArtifactArrivesIffNotOvertaken(
      s: Store, phases: seq<Phase>, id: string, a: Artifact, i: nat, ctx: Option<string>, last: Task)
    requires id in s.tasks && FreshRun(s, Changes(phases))
    requires i < |Changes(phases)| && Changes(phases)[i] == OpAddArtifact(id, a)
    requires EndsIn(Sent(Busy(s, []), phases, id))
    ensures var told, snapshot, stored := Sent(Busy(s, []), phases, id), s.tasks[id], AfterAll(Busy(s, []), phases).store;
      var p := Fold(id, Live(snapshot, snapshot.artifacts), Streamed(told, ctx, last));
      && id in stored.tasks && a in stored.tasks[id].artifacts
      && p.Finished?
      && (HasArtifact(p.task.artifacts, a.artifactId) <==>
            HasArtifact(snapshot.artifacts, a.artifactId) || HasArtifact(Timely(told), a.artifactId))
  {
    hide Streamed, EndsIn, HasArtifact, Merged, Timely;
    var told, snapshot := Sent(Busy(s, []), phases, id), s.tasks[id];
    TasksFollowChanges(Busy(s, []), s, phases);
    CommittedArtifactIsStored(s, Changes(phases), id, a, i);
    ClientCollectsTheTimely(told, id, snapshot.artifacts, Some(snapshot.id), snapshot.contextId, ctx, last);
    MergedHasIff(snapshot.artifacts, Timely(told), a.artifactId);
  }

  lemma OnePhase(b: Busy, ph: Phase, rest: seq<Phase>, id: string)
    ensures AfterAll(b, [ph] + rest) == AfterAll(Advance(b, ph), rest)
    ensures Sent(b, [ph] + rest, id) == SentBy(b, ph, id) + Sent(Advance(b, ph), rest, id)
  {
    assert ([ph] + rest)[1..] == rest;
  }

  /** Both notices of the second writer, and then the one of the first. */
  lemma SecondWriterTellsFirst(b: Busy, id: string, e1: TaskEvent, e2: TaskEvent, e3: TaskEvent)
    requires b.outbox == [Notice(id, [e3]), Notice(id, [e1, e2])]
    ensures Sent(b, [Notifies(1), Notifies(1), Notifies(0)], id) == [e1, e2, e3]
    ensures AfterAll(b, [Notifies(1), Notifies(1), Notifies(0)]).store.tasks == b.store.tasks
  {
    hide Notified, AfterAll, Sent;
    var b1 := Advance(b, Notifies(1));
    assert [e1, e2][1..] == [e2];
    assert b1.outbox == [Notice(id, [e3]), Notice(id, [e2])];
    var b2 := Advance(b1, Notifies(1));
    assert b2.outbox == [Notice(id, [e3])];
    assert SentBy(b, Notifies(1), id) == [e1] && SentBy(b1, Notifies(1), id) == [e2] && SentBy(b2, Notifies(0), id) == [e3];
    hide SentBy;
    OnePhase(b, Notifies(1), [Notifies(1), Notifies(0)], id);
    OnePhase(b1, Notifies(1), [Notifies(0)], id);
    OnePhase(b2, Notifies(0), [], id);
    NothingLeft(Advance(b2, Notifies(0)), id);
    assert [Notifies(1)] + [Notifies(1), Notifies(0)] == [Notifies(1), Notifies(1), Notifies(0)];
    assert [Notifies(1)] + [Notifies(0)] == [Notifies(1), Notifies(0)] && [Notifies(0)] + [] == [Notifies(0)];
  }

  lemma NothingLeft(b: Busy, id: string)
    ensures AfterAll(b, []) == b && Sent(b, [], id) == []
  {
  }

  /** A schedule of two writers in which the end overtakes an artifact that was stored before it. */
  lemma EndCanOvertake(s: Store, id: string, a: Artifact, result: Artifact, done: TaskStatus)
    requires id in s.tasks && s.tasks[id].State() == Working && done.state == Completed
    ensures var phases := [Commits(OpAddArtifact(id, a)), Commits(OpComplete(id, result, done)),
                           Notifies(1), Notifies(1), Notifies(0)];
      && Sent(Busy(s, []), phases, id) == [ArtifactAdded(id, result), StatusChanged(id, done), ArtifactAdded(id, a)]
      && Timely(Sent(Busy(s, []), phases, id)) == [result]
      && id in AfterAll(Busy(s, []), phases).store.tasks
      && AfterAll(Busy(s, []), phases).store.tasks[id].artifacts == s.tasks[id].artifacts + [a, result]
  {
    hide Notified, AfterAll, Sent;
    var add, end := Commits(OpAddArtifact(id, a)), Commits(OpComplete(id, result, done));
    var e1, e2, e3 := ArtifactAdded(id, result), StatusChanged(id, done), ArtifactAdded(id, a);
    var b := Busy(s, []);
    var b1 := Advance(b, add);
    var b2 := Advance(b1, end);
    assert b2.outbox == [Notice(id, [e3]), Notice(id, [e1, e2])];
    assert s.tasks[id].artifacts + [a] + [result] == s.tasks[id].artifacts + [a, result];
    assert b2.store.tasks[id].artifacts == s.tasks[id].artifacts + [a, result];
    hide Advance;
    var notices := [Notifies(1), Notifies(1), Notifies(0)];
    SecondWriterTellsFirst(b2, id, e1, e2, e3);
    OnePhase(b, add, [end] + notices, id);
    OnePhase(b1, end, notices, id);
    assert [add] + ([end] + notices) == [add, end, Notifies(1), Notifies(1), Notifies(0)];
    assert [e1, e2, e3][1..] == [e2, e3] && [result] + [] == [result];
  }
}
