/**
 * Lock discipline of the task store. The first half is a system of any number of threads over five
 * reader-writer locks; the second half lists the lock steps of the store's operations.
 */
module Locks {
  import opened Options

  datatype Lock = IdempotencyKeys | Subscriptions | PushConfigs | TaskMap | UpdateSeq
  datatype Mode = Read | Write
  datatype LockStep = Acquire(lock: Lock, mode: Mode) | Release(lock: Lock)
  type Program = seq<LockStep>

  function Rank(l: Lock): (r: nat)
    ensures r < 5
  {
    match l
    case IdempotencyKeys => 0
    case Subscriptions => 1
    case PushConfigs => 2
    case TaskMap => 3
    case UpdateSeq => 4
  }

  /** What is held after `p`; `None` once a step acquires out of rank order or releases what is not held. */
  function Replay(p: Program, held: set<Lock>): Option<set<Lock>>
  {
    if p == [] then Some(held)
    else match p[0]
      case Acquire(l, _) =>
        if forall h :: h in held ==> Rank(h) < Rank(l) then Replay(p[1..], held + {l}) else None
      case Release(l) => if l in held then Replay(p[1..], held - {l}) else None
  }

  /** `p` acquires strictly upward in rank, releases only what it holds, and ends holding nothing. */
  predicate Disciplined(p: Program, held: set<Lock>) { Replay(p, held) == Some({}) }

  lemma {:induction false} ReplayConcat(p: Program, q: Program, held: set<Lock>)
    ensures Replay(p + q, held)
         == match Replay(p, held) { case Some(mid) => Replay(q, mid) case None => None }
  {
    if p == [] {
      assert p + q == q;
    } else {
      assert (p + q)[1..] == p[1..] + q;
      match p[0]
      case Acquire(l, _) => ReplayConcat(p[1..], q, held + {l});
      case Release(l) => ReplayConcat(p[1..], q, held - {l});
    }
  }

  /** One lock around a piece that gives back exactly what it was started with. */
  lemma ReplayBracket(l: Lock, m: Mode, p: Program, held: set<Lock>)
    requires forall h :: h in held ==> Rank(h) < Rank(l)
    requires Replay(p, held + {l}) == Some(held + {l})
    ensures Replay([Acquire(l, m)] + p + [Release(l)], held) == Some(held)
  {
    assert l !in held;
    assert held + {l} - {l} == held;
    ReplayConcat(p, [Release(l)], held + {l});
    assert [Acquire(l, m)] + p + [Release(l)] == [Acquire(l, m)] + (p + [Release(l)]);
    assert Replay([Release(l)], held + {l}) == Some(held);
  }

  // ---- Threads ----

  datatype Thread = Thread(held: map<Lock, Mode>, todo: Program)
  {
    predicate Wants(l: Lock, m: Mode) { todo != [] && todo[0] == Acquire(l, m) }
  }

  type System = seq<Thread>

  /** Thread `i` waits for thread `j`: `j` holds the lock in a conflicting mode, or is a queued writer. */
  predicate WaitsFor(sys: System, i: nat, j: nat)
    requires i < |sys| && j < |sys|
  {
    i != j && sys[i].todo != [] && sys[i].todo[0].Acquire? &&
    var Acquire(l, m) := sys[i].todo[0];
    || (l in sys[j].held && (m == Write || sys[j].held[l] == Write))
    || (m == Read && sys[j].Wants(l, Write))
  }

  /** Enabled under the strictest policy: a reader also queues behind any waiting writer. */
  predicate Enabled(sys: System, i: nat)
    requires i < |sys|
  {
    sys[i].todo != [] && forall j :: 0 <= j < |sys| ==> !WaitsFor(sys, i, j)
  }

  function Fire(sys: System, i: nat): System
    requires i < |sys| && sys[i].todo != []
  {
    var t := sys[i];
    match t.todo[0]
    case Acquire(l, m) => sys[i := Thread(t.held[l := m], t.todo[1..])]
    case Release(l) => sys[i := Thread(t.held - {l}, t.todo[1..])]
  }

  /**
   * A step the locks themselves allow: no conflicting holder. It may or may not let a reader overtake
   * a queued writer, so the runs below cover both scheduling policies.
   */
  predicate Allowed(sys: System, i: nat)
  {
    i < |sys| && sys[i].todo != [] &&
    (sys[i].todo[0].Acquire? ==>
      var Acquire(l, m) := sys[i].todo[0];
      forall j :: 0 <= j < |sys| && j != i && l in sys[j].held ==> m == Read && sys[j].held[l] == Read)
  }

  predicate Runs(sys: System, schedule: seq<nat>)
    decreases |schedule|
  {
    schedule == [] || (Allowed(sys, schedule[0]) && Runs(Fire(sys, schedule[0]), schedule[1..]))
  }

  function After(sys: System, schedule: seq<nat>): System
    requires Runs(sys, schedule)
    decreases |schedule|
  {
    if schedule == [] then sys else After(Fire(sys, schedule[0]), schedule[1..])
  }

  predicate AllDisciplined(sys: System)
  {
    forall i :: 0 <= i < |sys| ==> Disciplined(sys[i].todo, sys[i].held.Keys)
  }

  /** Writers exclude everyone else. */
  predicate Exclusive(sys: System)
  {
    forall i, j, l :: 0 <= i < |sys| && 0 <= j < |sys| && i != j && l in sys[i].held && l in sys[j].held
      ==> sys[i].held[l] == Read && sys[j].held[l] == Read
  }

  lemma {:induction false} RunsKeepTheInvariant(sys: System, schedule: seq<nat>)
    requires AllDisciplined(sys) && Exclusive(sys) && Runs(sys, schedule)
    ensures |After(sys, schedule)| == |sys|
    ensures AllDisciplined(After(sys, schedule)) && Exclusive(After(sys, schedule))
    decreases |schedule|
  {
    if schedule != [] {
      var i := schedule[0];
      FireKeepsTheInvariant(sys, i);
      RunsKeepTheInvariant(Fire(sys, i), schedule[1..]);
    }
  }

  lemma FireKeepsTheInvariant(sys: System, i: nat)
    requires AllDisciplined(sys) && Exclusive(sys) && Allowed(sys, i)
    ensures AllDisciplined(Fire(sys, i)) && Exclusive(Fire(sys, i))
  {
    var t := sys[i];
    match t.todo[0]
    case Acquire(l, m) => assert t.held[l := m].Keys == t.held.Keys + {l};
    case Release(l) => assert (t.held - {l}).Keys == t.held.Keys - {l};
  }

  /** The weight of what a thread waits for; every wait points to a heavier wait or to a running thread. */
  function Weight(t: Thread): nat
  {
    if t.todo == [] || !t.todo[0].Acquire? then 10
    else 2 * Rank(t.todo[0].lock) + (if t.todo[0].mode == Write then 1 else 0)
  }

  /** No wait-for cycle exists, however long. */
  lemma {:induction false} NoWaitCycle(sys: System, chain: seq<nat>)
    requires AllDisciplined(sys) && |chain| >= 2 && forall k :: 0 <= k < |chain| ==> chain[k] < |sys|
    requires forall k :: 0 < k < |chain| ==> WaitsFor(sys, chain[k - 1], chain[k])
    ensures Weight(sys[chain[0]]) < Weight(sys[chain[|chain| - 1]])
    ensures chain[0] != chain[|chain| - 1]
  {
    var n := |chain| - 1;
    assert WaitsFor(sys, chain[n - 1], chain[n]);
    if n > 1 {
      NoWaitCycle(sys, chain[..n]);
    }
  }

  /** Some thread with work left is enabled: following waits upward must end. */
  lemma {:induction false} SomeThreadMoves(sys: System, i: nat) returns (k: nat)
    requires AllDisciplined(sys) && i < |sys| && sys[i].todo != []
    ensures k < |sys| && Enabled(sys, k)
    decreases 10 - Weight(sys[i])
  {
    if Enabled(sys, i) {
      k := i;
    } else {
      var j :| 0 <= j < |sys| && WaitsFor(sys, i, j);
      assert Disciplined(sys[j].todo, sys[j].held.Keys);
      k := SomeThreadMoves(sys, j);
    }
  }

  function Start(programs: seq<Program>): System
  {
    seq(|programs|, i requires 0 <= i < |programs| => Thread(map[], programs[i]))
  }

  /**
   * Deadlock freedom: any number of threads, any disciplined programs, any schedule the locks allow.
   * As long as one thread has work left, some thread can take its next step even when readers queue
   * behind writers, and writers stay exclusive throughout.
   */
  lemma DeadlockFree(programs: seq<Program>, schedule: seq<nat>)
    requires forall i :: 0 <= i < |programs| ==> Disciplined(programs[i], {})
    requires Runs(Start(programs), schedule)
    ensures var sys := After(Start(programs), schedule);
      && Exclusive(sys)
      && ((exists i :: 0 <= i < |sys| && sys[i].todo != []) ==> exists k :: 0 <= k < |sys| && Enabled(sys, k))
  {
    var start := Start(programs);
    assert forall i :: 0 <= i < |start| ==> start[i].held.Keys == {};
    RunsKeepTheInvariant(start, schedule);
    var sys := After(start, schedule);
    if i :| 0 <= i < |sys| && sys[i].todo != [] {
      var k := SomeThreadMoves(sys, i);
    }
  }

  function Work(sys: System): nat
  {
    if sys == [] then 0 else |sys[0].todo| + Work(sys[1..])
  }

  lemma {:induction false} WorkAfterUpdate(sys: System, i: nat, t: Thread)
    requires i < |sys|
    ensures Work(sys[i := t]) == Work(sys) - |sys[i].todo| + |t.todo|
  {
    var sys' := sys[i := t];
    if i == 0 {
      assert sys'[1..] == sys[1..];
    } else {
      assert sys'[1..] == sys[1..][i - 1 := t];
      WorkAfterUpdate(sys[1..], i - 1, t);
    }
  }

  /** Every schedule is finite: it has exactly one step per lock step performed. */
  lemma {:induction false} SchedulesAreFinite(sys: System, schedule: seq<nat>)
    requires Runs(sys, schedule)
    ensures |schedule| + Work(After(sys, schedule)) == Work(sys)
    decreases |schedule|
  {
    if schedule != [] {
      var i := schedule[0];
      WorkAfterUpdate(sys, i, Fire(sys, i)[i]);
      assert Fire(sys, i) == sys[i := Fire(sys, i)[i]];
      SchedulesAreFinite(Fire(sys, i), schedule[1..]);
    }
  }

  // ---- The store's operations ----

  function Around(l: Lock, m: Mode, p: Program): Program { [Acquire(l, m)] + p + [Release(l)] }

  const Get: Program := Around(TaskMap, Read, [])

  /** `notify_push_configs`: the task is read only when the task has webhooks. */
  function NotifyPush(hooked: bool): Program { Around(PushConfigs, Read, if hooked then Get else []) }

  /**
   * `notify_status_change` and `notify_artifact_added`: with subscribers the read guard is dropped
   * before pruning and before the webhooks, without subscribers it lives to the end of the call.
   */
  function Notify(subscribed: bool, refused: bool, hooked: bool): Program
  {
    if subscribed then
      Around(Subscriptions, Read, []) + (if refused then Around(Subscriptions, Write, []) else []) + NotifyPush(hooked)
    else
      Around(Subscriptions, Read, NotifyPush(hooked))
  }

  /** A write to the task map that also stamps the update sequence before the guard is dropped. */
  const Stamped: Program := Around(TaskMap, Write, Around(UpdateSeq, Write, []))

  /** A write to the task map alone. */
  const Touched: Program := Around(TaskMap, Write, [])

  /** Both idempotent creations hold the key lock across the lookup and the creation. */
  function CreateIdempotent(known: bool, duplicate: bool): Program
  {
    Around(IdempotencyKeys, Write, (if known then Get else []) + (if duplicate then [] else Stamped))
  }

  const Register: Program := Around(Subscriptions, Write, [])

  const Subscribe: Program := Around(Subscriptions, Write, Get)

  const ListFiltered: Program := Around(TaskMap, Read, Around(UpdateSeq, Read, []))

  /** The trait's listing drops the task map before it reads the sequence. */
  const ListTrait: Program := Get + Around(UpdateSeq, Read, [])

  /** The lock steps of every operation, one constructor per operation and one flag per data-dependent branch. */
  datatype Operation =
    | GetTask
    | CreateTask
    | CreateKeyed(known: bool, duplicate: bool)
    | CreateKeyedAndRegister(known: bool, duplicate: bool)
    | SetStatus(done: bool, status: Notification)
    | AddArtifact(done: bool, artifact: Notification)
    | Complete(done: bool, artifact: Notification, status: Notification)
    | AppendHistory
    | SubscribeTo
    | Prune
    | List
    | ListThroughTrait
    | ListByState
    | ReadPushConfigs
    | WritePushConfigs

  datatype Notification = Notification(subscribed: bool, refused: bool, hooked: bool)
  {
    function Steps(): Program { Notify(subscribed, refused, hooked) }
  }

  function Steps(op: Operation): Program
  {
    match op
    case GetTask => Get
    case CreateTask => Stamped
    case CreateKeyed(known, duplicate) => CreateIdempotent(known, duplicate)
    case CreateKeyedAndRegister(known, duplicate) => CreateIdempotent(known, duplicate) + Register
    case SetStatus(done, n) => if done then Stamped + n.Steps() else Touched
    case AddArtifact(done, n) => Touched + (if done then n.Steps() else [])
    case Complete(done, a, s) => Touched + (if done then a.Steps() + s.Steps() else [])
    case AppendHistory => Touched
    case SubscribeTo => Subscribe
    case Prune => Register
    case List => ListFiltered
    case ListThroughTrait => ListTrait
    case ListByState => Get
    case ReadPushConfigs => Around(PushConfigs, Read, [])
    case WritePushConfigs => Around(PushConfigs, Write, [])
  }

  /**
   * The steps spelled out, for every operation without a notice: what is written is locked for writing, the update
   * sequence is stamped while the task map is still locked, and a keyed creation holds the key lock from its first step
   * to its last.
   */
  lemma WhatIsLocked(known: bool, duplicate: bool)
    ensures Steps(GetTask) == Steps(ListByState) == [Acquire(TaskMap, Read), Release(TaskMap)]
    ensures Steps(AppendHistory) == [Acquire(TaskMap, Write), Release(TaskMap)]
    ensures Steps(CreateTask) == [Acquire(TaskMap, Write), Acquire(UpdateSeq, Write), Release(UpdateSeq), Release(TaskMap)]
    ensures Steps(List) == [Acquire(TaskMap, Read), Acquire(UpdateSeq, Read), Release(UpdateSeq), Release(TaskMap)]
    ensures Steps(ListThroughTrait) == [Acquire(TaskMap, Read), Release(TaskMap), Acquire(UpdateSeq, Read), Release(UpdateSeq)]
    ensures Steps(SubscribeTo) ==
      [Acquire(Subscriptions, Write), Acquire(TaskMap, Read), Release(TaskMap), Release(Subscriptions)]
    ensures Steps(Prune) == [Acquire(Subscriptions, Write), Release(Subscriptions)]
    ensures Steps(ReadPushConfigs) == [Acquire(PushConfigs, Read), Release(PushConfigs)]
    ensures Steps(WritePushConfigs) == [Acquire(PushConfigs, Write), Release(PushConfigs)]
    ensures var lookup, stamp := Steps(GetTask), Steps(CreateTask);
      var p := Steps(CreateKeyed(known, duplicate));
      && p == [Acquire(IdempotencyKeys, Write)] + (if known then lookup else []) + (if duplicate then [] else stamp)
              + [Release(IdempotencyKeys)]
      && Steps(CreateKeyedAndRegister(known, duplicate)) == p + [Acquire(Subscriptions, Write), Release(Subscriptions)]
  {
    assert Around(UpdateSeq, Write, []) == [Acquire(UpdateSeq, Write), Release(UpdateSeq)];
    assert Around(UpdateSeq, Read, []) == [Acquire(UpdateSeq, Read), Release(UpdateSeq)];
  }

  /** A refused change only looks at the task map; a change notifies after it has let go of it. */
  lemma WhatAChangeLocks(n: Notification, m: Notification)
    ensures Steps(SetStatus(false, n)) == Steps(AddArtifact(false, n)) == Steps(Complete(false, n, m)) == Steps(AppendHistory)
    ensures Steps(SetStatus(true, n)) == Steps(CreateTask) + n.Steps()
    ensures Steps(AddArtifact(true, n)) == Steps(AppendHistory) + n.Steps()
    ensures Steps(Complete(true, n, m)) == Steps(AppendHistory) + (n.Steps() + m.Steps())
  {
    hide Notification.Steps, Around;
    assert Touched + [] == Touched;
  }

  /**
   * The subscribers are locked for reading, and for writing as well if one of them refused, and the webhooks are looked
   * up, together with the task if it has any. Without subscribers their lock is kept to the end.
   */
  lemma WhatANoticeLocks(n: Notification)
    ensures var push := [Acquire(PushConfigs, Read)] + (if n.hooked then Steps(GetTask) else []) + [Release(PushConfigs)];
      n.Steps() ==
        if !n.subscribed then [Acquire(Subscriptions, Read)] + push + [Release(Subscriptions)]
        else [Acquire(Subscriptions, Read), Release(Subscriptions)] +
             (if n.refused then [Acquire(Subscriptions, Write), Release(Subscriptions)] else []) + push
  {
    NoticeParts(n);
    assert Around(Subscriptions, Read, []) == [Acquire(Subscriptions, Read), Release(Subscriptions)];
    assert Around(Subscriptions, Write, []) == [Acquire(Subscriptions, Write), Release(Subscriptions)];
  }

  lemma NoticeParts(n: Notification)
    ensures NotifyPush(n.hooked) == [Acquire(PushConfigs, Read)] + (if n.hooked then Steps(GetTask) else []) + [Release(PushConfigs)]
  {
  }

  lemma GetReplays(held: set<Lock>)
    requires forall h :: h in held ==> Rank(h) < Rank(TaskMap)
    ensures Replay(Get, held) == Some(held)
  {
    ReplayBracket(TaskMap, Read, [], held);
  }

  lemma StampedReplays(held: set<Lock>)
    requires forall h :: h in held ==> Rank(h) < Rank(TaskMap)
    ensures Replay(Stamped, held) == Some(held)
  {
    ReplayBracket(UpdateSeq, Write, [], held + {TaskMap});
    ReplayBracket(TaskMap, Write, Around(UpdateSeq, Write, []), held);
  }

  lemma NotifyReplays(n: Notification)
    ensures Replay(n.Steps(), {}) == Some({})
  {
    var held: set<Lock> := if n.subscribed then {} else {Subscriptions};
    var inner := if n.hooked then Get else [];
    if n.hooked { GetReplays(held + {PushConfigs}); }
    ReplayBracket(PushConfigs, Read, inner, held);
    assert Replay(NotifyPush(n.hooked), held) == Some(held);
    if n.subscribed {
      ReplayBracket(Subscriptions, Read, [], {});
      ReplayBracket(Subscriptions, Write, [], {});
      var prune := if n.refused then Around(Subscriptions, Write, []) else [];
      ReplayConcat(Around(Subscriptions, Read, []), prune, {});
      ReplayConcat(Around(Subscriptions, Read, []) + prune, NotifyPush(n.hooked), {});
    } else {
      assert {} + {Subscriptions} == {Subscriptions};
      ReplayBracket(Subscriptions, Read, NotifyPush(n.hooked), {});
    }
  }

  lemma KeyedReplays(known: bool, duplicate: bool)
    ensures Replay(CreateIdempotent(known, duplicate), {}) == Some({})
  {
    var held := {IdempotencyKeys};
    assert {} + {IdempotencyKeys} == held;
    var lookup, creation := if known then Get else [], if duplicate then [] else Stamped;
    GetReplays(held);
    StampedReplays(held);
    ReplayConcat(lookup, creation, held);
    ReplayBracket(IdempotencyKeys, Write, lookup + creation, {});
  }

  /** Every operation of the store, along every branch, acquires its locks strictly upward and returns them all. */
  lemma OperationsAreDisciplined(op: Operation)
    ensures Disciplined(Steps(op), {})
  {
    GetReplays({});
    StampedReplays({});
    ReplayBracket(TaskMap, Write, [], {});
    ReplayBracket(Subscriptions, Write, [], {});
    match op
    case CreateKeyed(known, duplicate) => KeyedReplays(known, duplicate);
    case CreateKeyedAndRegister(known, duplicate) =>
      KeyedReplays(known, duplicate);
      ReplayConcat(CreateIdempotent(known, duplicate), Register, {});
    case SetStatus(done, n) =>
      NotifyReplays(n);
      ReplayConcat(Stamped, n.Steps(), {});
    case AddArtifact(done, n) =>
      NotifyReplays(n);
      ReplayConcat(Touched, if done then n.Steps() else [], {});
    case Complete(done, a, s) =>
      NotifyReplays(a);
      NotifyReplays(s);
      ReplayConcat(a.Steps(), s.Steps(), {});
      ReplayConcat(Touched, if done then a.Steps() + s.Steps() else [], {});
    case SubscribeTo =>
      assert {} + {Subscriptions} == {Subscriptions};
      GetReplays({Subscriptions});
      ReplayBracket(Subscriptions, Write, Get, {});
    case List =>
      assert {} + {TaskMap} == {TaskMap};
      ReplayBracket(UpdateSeq, Read, [], {TaskMap});
      ReplayBracket(TaskMap, Read, Around(UpdateSeq, Read, []), {});
    case ListThroughTrait =>
      ReplayBracket(UpdateSeq, Read, [], {});
      ReplayConcat(Get, Around(UpdateSeq, Read, []), {});
    case ReadPushConfigs => ReplayBracket(PushConfigs, Read, [], {});
    case WritePushConfigs => ReplayBracket(PushConfigs, Write, [], {});
    case _ =>
  }

  /** The lock steps of a client thread that performs `ops` one after the other. */
  function ProgramOf(ops: seq<Operation>): Program
  {
    if ops == [] then [] else Steps(ops[0]) + ProgramOf(ops[1..])
  }

  lemma {:induction false} ProgramsAreDisciplined(ops: seq<Operation>)
    ensures Disciplined(ProgramOf(ops), {})
  {
    if ops != [] {
      OperationsAreDisciplined(ops[0]);
      ProgramsAreDisciplined(ops[1..]);
      ReplayConcat(Steps(ops[0]), ProgramOf(ops[1..]), {});
    }
  }

  /**
   * The task store cannot deadlock: any number of clients, each performing any operations, under any
   * schedule the locks allow. While one of them has work left, one of them can move.
   */
  lemma StoreIsDeadlockFree(clients: seq<seq<Operation>>, schedule: seq<nat>)
    requires Runs(Start(Programs(clients)), schedule)
    ensures var sys := After(Start(Programs(clients)), schedule);
      && Exclusive(sys)
      && ((exists i :: 0 <= i < |sys| && sys[i].todo != []) ==> exists k :: 0 <= k < |sys| && Enabled(sys, k))
  {
    forall i | 0 <= i < |clients| ensures Disciplined(Programs(clients)[i], {}) {
      ProgramsAreDisciplined(clients[i]);
    }
    DeadlockFree(Programs(clients), schedule);
  }

  function Programs(clients: seq<seq<Operation>>): seq<Program>
  {
    seq(|clients|, i requires 0 <= i < |clients| => ProgramOf(clients[i]))
  }
}
