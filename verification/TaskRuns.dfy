/** Whole runs of the task store: any sequence of operations, starting from an empty store. */
module TaskRuns {
  import opened Options
  import opened Sequences
  import opened Tasks
  import opened TaskStore

  /** A keyed creation through the trait also registers a sender whose receiver is gone already. */
  datatype Form = Inherent | ThroughTrait(channel: nat)

  datatype Op =
    | OpCreate(n: NewTask)
    | OpCreateKeyed(key: string, n: NewTask, form: Form)
    | OpSetStatus(id: string, status: TaskStatus)
    | OpAddArtifact(id: string, artifact: Artifact)
    | OpComplete(id: string, result: Artifact, done: TaskStatus)
    | OpAppendHistory(id: string, message: Message)
    | OpSubscribe(id: string, channel: nat)
    | OpPrune(id: string)
    | OpReceive(id: string, channel: nat)
    | OpHangUp(id: string, channel: nat)

  /** A completion writes a `Completed` status, the only kind the store builds for it. */
  predicate WellFormed(op: Op) { op.OpComplete? ==> op.done.state == Completed }

  function Announced(s: Store, id: string, form: Form): Store
  {
    match form
    case Inherent => s
    case ThroughTrait(c) => s.(subs := Registered(s.subs, id, Sender(c, false, [])))
  }

  function Step(s: Store, op: Op): (Store, Option<Reply>)
  {
    match op
    case OpCreate(n) => (Create(s, n), Some(Done(NewlySubmitted(n))))
    case OpCreateKeyed(key, n, form) => var (s', r) := CreateKeyed(s, key, n); (Announced(s', r.task.id, form), Some(r))
    case OpSetStatus(id, status) => var (s', r) := SetStatus(s, id, status); (s', Some(r))
    case OpAddArtifact(id, a) => var (s', r) := AddArtifact(s, id, a); (s', Some(r))
    case OpComplete(id, result, done) => var (s', r) := Complete(s, id, result, done); (s', Some(r))
    case OpAppendHistory(id, m) => var (s', r) := AppendHistory(s, id, m); (s', Some(r))
    case OpSubscribe(id, channel) => (s.(subs := Registered(s.subs, id, Sender(channel, true, []))), None)
    case OpPrune(id) => (s.(subs := Pruned(s.subs, id)), None)
    case OpReceive(id, channel) => (s.(subs := Taken(s.subs, id, channel)), None)
    case OpHangUp(id, channel) => (s.(subs := HungUp(s.subs, id, channel)), None)
  }

  function After(s: Store, op: Op): Store { Step(s, op).0 }

  /** `Uuid::new_v4` never repeats: a generated id is not in the store. */
  predicate Fresh(s: Store, op: Op)
  {
    WellFormed(op) && (op.OpCreate? || op.OpCreateKeyed? ==> op.n.id !in s.tasks)
  }

  predicate FreshRun(s: Store, ops: seq<Op>)
    decreases |ops|
  {
    ops == [] || (Fresh(s, ops[0]) && FreshRun(After(s, ops[0]), ops[1..]))
  }

  function Run(s: Store, ops: seq<Op>): Store
    decreases |ops|
  {
    if ops == [] then s else Run(After(s, ops[0]), ops[1..])
  }

  function ReplyAt(s: Store, ops: seq<Op>, i: nat): Option<Reply>
    requires i < |ops|
    decreases |ops|
  {
    if i == 0 then Step(s, ops[0]).1 else ReplyAt(After(s, ops[0]), ops[1..], i - 1)
  }

  const Empty := Store(map[], map[], map[], 0, map[])

  // ---- What every store satisfies ----

  ghost predicate Inv(s: Store)
  {
    && (forall id :: id in s.tasks ==> s.tasks[id].id == id)
    && s.seqs.Keys == s.tasks.Keys
    && (forall id :: id in s.seqs ==> s.seqs[id] < s.nextSeq)
    && (forall a, b :: a in s.seqs && b in s.seqs && s.seqs[a] == s.seqs[b] ==> a == b)
    && (forall k :: k in s.keys ==> s.keys[k] in s.tasks)
    && (forall k, l :: k in s.keys && l in s.keys && s.keys[k] == s.keys[l] ==> k == l)
  }

  lemma CreateKeepsInv(s: Store, n: NewTask)
    requires Inv(s) && n.id !in s.tasks
    ensures Inv(Create(s, n))
  {
    InvParts(s);
    hide Inv;
  }

  lemma CreateKeyedKeepsInv(s: Store, key: string, n: NewTask)
    requires Inv(s) && n.id !in s.tasks
    ensures Inv(CreateKeyed(s, key, n).0)
  {
    InvParts(s);
    CreateKeepsInv(s, n);
    hide Inv;
  }

  lemma AnnouncingKeepsInv(s: Store, id: string, form: Form)
    requires Inv(s)
    ensures Inv(Announced(s, id, form))
  {
  }

  lemma SetStatusKeepsInv(s: Store, id: string, status: TaskStatus)
    requires Inv(s)
    ensures Inv(SetStatus(s, id, status).0)
  {
    InvParts(s);
    hide Inv, Notified;
  }

  lemma ReplacingKeepsInv(s: Store, id: string, task: Task, subs: Subscriptions)
    requires Inv(s) && id in s.tasks && (s.tasks[id].id == id ==> task.id == id)
    ensures Inv(s.(tasks := s.tasks[id := task], subs := subs))
  {
    InvParts(s);
    hide Inv;
    SameTasksKeepInv(s, s.(tasks := s.tasks[id := task], subs := subs));
  }

  lemma AddArtifactKeepsInv(s: Store, id: string, a: Artifact)
    requires Inv(s)
    ensures Inv(AddArtifact(s, id, a).0)
  {
    hide Inv, Notified;
    var t := AddArtifact(s, id, a).0;
    if id in s.tasks { ReplacingKeepsInv(s, id, t.tasks[id], t.subs); }
  }

  lemma CompleteKeepsInv(s: Store, id: string, result: Artifact, done: TaskStatus)
    requires Inv(s)
    ensures Inv(Complete(s, id, result, done).0)
  {
    hide Inv, Notified;
    var t := Complete(s, id, result, done).0;
    if id in s.tasks && t != s { ReplacingKeepsInv(s, id, t.tasks[id], t.subs); }
  }

  lemma AppendHistoryKeepsInv(s: Store, id: string, m: Message)
    requires Inv(s)
    ensures Inv(AppendHistory(s, id, m).0)
  {
    hide Inv;
    var t := AppendHistory(s, id, m).0;
    if id in s.tasks && t != s { ReplacingKeepsInv(s, id, t.tasks[id], t.subs); }
  }

  lemma StepKeepsInv(s: Store, op: Op)
    requires Inv(s) && Fresh(s, op)
    ensures Inv(After(s, op))
  {
    hide Inv, Create, SetStatus, AddArtifact, Complete, AppendHistory, Announced;
    match op
    case OpCreate(n) => CreateKeepsInv(s, n);
    case OpCreateKeyed(key, n, form) =>
      CreateKeyedKeepsInv(s, key, n);
      AnnouncingKeepsInv(CreateKeyed(s, key, n).0, CreateKeyed(s, key, n).1.task.id, form);
    case OpSetStatus(id, status) => SetStatusKeepsInv(s, id, status);
    case OpAddArtifact(id, a) => AddArtifactKeepsInv(s, id, a);
    case OpComplete(id, result, done) => CompleteKeepsInv(s, id, result, done);
    case OpAppendHistory(id, m) => AppendHistoryKeepsInv(s, id, m);
    case _ => InvParts(s); SameTasksKeepInv(s, After(s, op));
  }

  lemma InvParts(s: Store)
    requires Inv(s)
    ensures forall id :: id in s.tasks ==> s.tasks[id].id == id
    ensures forall k :: k in s.keys ==> s.keys[k] in s.tasks
  {
  }

  lemma SameTasksKeepInv(s: Store, t: Store)
    requires Inv(s) && t.tasks.Keys == s.tasks.Keys && t.keys == s.keys && t.seqs == s.seqs && t.nextSeq == s.nextSeq
    requires forall x :: x in t.tasks ==> t.tasks[x].id == x
    ensures Inv(t)
  {
  }

  lemma {:induction false} RunKeepsInv(s: Store, ops: seq<Op>)
    requires Inv(s) && FreshRun(s, ops)
    ensures Inv(Run(s, ops))
    decreases |ops|
  {
    if ops != [] {
      StepKeepsInv(s, ops[0]);
      RunKeepsInv(After(s, ops[0]), ops[1..]);
    }
  }

  // ---- One task over time ----

  /** What may have become of a task: its identity is fixed, its artifacts only grow, a terminal task is frozen. */
  predicate Evolves(t: Task, t': Task)
  {
    && t.Identity() == t'.Identity()
    && t.artifacts <= t'.artifacts
    && (t.history.Some? ==> t'.history.Some? && t.history.value <= t'.history.value)
    && (IsTerminal(t.State()) ==> t.status == t'.status && t.history == t'.history)
  }

  lemma OtherTasksStay(s: Store, op: Op, id: string)
    requires Fresh(s, op) && id in s.tasks
    requires !op.OpCreate? && !op.OpCreateKeyed? ==> op.id != id || op.OpSubscribe? || op.OpPrune? || op.OpReceive? || op.OpHangUp?
    ensures id in After(s, op).tasks && After(s, op).tasks[id] == s.tasks[id]
  {
    hide Notified, Registered, Pruned, Taken, HungUp;
  }

  lemma StepEvolves(s: Store, op: Op, id: string)
    requires Fresh(s, op) && id in s.tasks
    ensures var s' := After(s, op);
      && id in s'.tasks && Evolves(s.tasks[id], s'.tasks[id])
      && (s.tasks[id].State() == s'.tasks[id].State()
          || IsValidTransition(s.tasks[id].State(), s'.tasks[id].State()))
  {
    hide Notified;
    if (op.OpSetStatus? || op.OpAddArtifact? || op.OpComplete? || op.OpAppendHistory?) && op.id == id {
    } else {
      OtherTasksStay(s, op, id);
      hide After, Fresh;
    }
  }

  /** Over every run no task disappears, and a terminal task keeps its status and history for good. */
  lemma {:induction false} TasksEvolve(s: Store, ops: seq<Op>, id: string)
    requires FreshRun(s, ops) && id in s.tasks
    ensures id in Run(s, ops).tasks && Evolves(s.tasks[id], Run(s, ops).tasks[id])
    decreases |ops|
  {
    if ops != [] {
      StepEvolves(s, ops[0], id);
      TasksEvolve(After(s, ops[0]), ops[1..], id);
    }
  }

  /** The states task `id` goes through during a run, without repetitions. */
  function Trace(s: Store, ops: seq<Op>, id: string): (p: seq<TaskState>)
    ensures id in s.tasks ==> p != [] && p[0] == s.tasks[id].State()
    decreases |ops|
  {
    var here := if id in s.tasks then [s.tasks[id].State()] else [];
    if ops == [] then here
    else
      var later := Trace(After(s, ops[0]), ops[1..], id);
      if here != [] && later != [] && later[0] == here[0] then later else here + later
  }

  /** Every task's states form a path of allowed transitions, from the state it has now to its last one. */
  lemma {:induction false} TraceIsPath(s: Store, ops: seq<Op>, id: string)
    requires FreshRun(s, ops)
    ensures var p := Trace(s, ops, id);
      && IsPath(p)
      && (id in Run(s, ops).tasks <==> p != [])
      && (p != [] ==> p[|p| - 1] == Run(s, ops).tasks[id].State())
      && (id !in s.tasks && p != [] ==> p[0] == Submitted)
    decreases |ops|
  {
    hide After, Evolves, Fresh;
    if ops != [] {
      var s' := After(s, ops[0]);
      TraceIsPath(s', ops[1..], id);
      if id in s.tasks {
        StepEvolves(s, ops[0], id);
        TasksEvolve(s', ops[1..], id);
      } else if id in s'.tasks {
        NewTaskIsSubmitted(s, ops[0], id);
      }
    }
  }

  lemma NewTaskIsSubmitted(s: Store, op: Op, id: string)
    requires Fresh(s, op) && id !in s.tasks && id in After(s, op).tasks
    ensures After(s, op).tasks[id].State() == Submitted
  {
    hide Notified, Registered, Pruned, Taken, HungUp;
  }

  /**
   * Whole-run safety from the empty store: every stored task started as `Submitted`, followed allowed
   * transitions only, left no terminal state, and was `Working` just before it completed, failed or
   * asked for input.
   */
  lemma TaskLifecycle(ops: seq<Op>, id: string)
    requires FreshRun(Empty, ops) && id in Run(Empty, ops).tasks
    ensures var p, last := Trace(Empty, ops, id), Run(Empty, ops).tasks[id].State();
      && p != [] && p[0] == Submitted && p[|p| - 1] == last && IsPath(p)
      && !last.Unspecified? && !last.AuthRequired?
      && (forall i :: 0 <= i < |p| - 1 ==> !IsTerminal(p[i]))
      && (last.Completed? || last.Failed? || last.InputRequired? ==> |p| >= 2 && p[|p| - 2] == Working)
  {
    TraceIsPath(Empty, ops, id);
    PathsFromSubmitted(Trace(Empty, ops, id));
  }

  /** The operation a finished turn sends to the store: completion on success, failure otherwise. */
  function TurnOutcome(id: string, result: Artifact, done: TaskStatus, failed: TaskStatus, success: bool): Op
  {
    if success then OpComplete(id, result, done) else OpSetStatus(id, failed)
  }

  /** A turn that ends late changes nothing at all: not the task, not the sequence, not a subscriber. */
  lemma LateTurnCannotRevive(
      s: Store, id: string, result: Artifact, done: TaskStatus, failed: TaskStatus, success: bool)
    requires id in s.tasks && IsTerminal(s.tasks[id].State())
    requires done.state == Completed && failed.state == TaskState.Failed
    ensures var op := TurnOutcome(id, result, done, failed, success);
      && After(s, op) == s
      && Step(s, op).1 == Some(Refused(InvalidStateTransition(s.tasks[id].State(),
                                if success then Completed else TaskState.Failed)))
  {
  }

  // ---- What the store accepts, and what a task is made of ----

  /** The operations that are refused, with the error, and the task that every other one returns. */
  lemma RefusedIff(s: Store, op: Op)
    requires Inv(s)
    ensures var s', r := After(s, op), Step(s, op).1;
      && (op.OpSubscribe? || op.OpPrune? || op.OpReceive? || op.OpHangUp? <==> r == None)
      && (r.Some? && r.value.Refused? ==> s' == s)
      && (r.Some? && !r.value.Refused? ==> r.value.task.id in s'.tasks && s'.tasks[r.value.task.id] == r.value.task)
      && match op
         case OpSetStatus(id, status) =>
           && r.Some? && !r.value.Duplicate?
           && (r.value == Refused(TaskNotFound(id)) <==> id !in s.tasks)
           && (id in s.tasks && IsValidTransition(s.tasks[id].State(), status.state) <==> r.value.Done?)
           && (r.value.Refused? && id in s.tasks ==> r.value.error == InvalidStateTransition(s.tasks[id].State(), status.state))
         case OpAddArtifact(id, _) => r.Some? && (if id in s.tasks then r.value.Done? else r.value == Refused(TaskNotFound(id)))
         case OpComplete(id, _, _) =>
           r.Some? && (if id !in s.tasks then r.value == Refused(TaskNotFound(id))
                       else if s.tasks[id].State() == Working then r.value.Done?
                       else r.value == Refused(InvalidStateTransition(s.tasks[id].State(), Completed)))
         case OpAppendHistory(id, _) =>
           r.Some? && (if id !in s.tasks then r.value == Refused(TaskNotFound(id))
                       else if s.tasks[id].State() in {Completed, TaskState.Failed, Canceled, Rejected}
                       then r.value == Refused(InvalidStateTransition(s.tasks[id].State(), s.tasks[id].State()))
                       else r.value.Done?)
         case _ => r.Some? ==> !r.value.Refused?
  {
    InvParts(s);
    hide Inv, Notified, Registered, Pruned, Taken, HungUp;
  }

  /**
   * A new task has what its creator gave it, is submitted, and has neither history nor artifacts. It gets the next
   * number, and a key that is not in use is recorded with it, while one in use creates nothing.
   */
  lemma CreatedAs(s: Store, n: NewTask, key: string)
    ensures var t := Create(s, n).tasks[n.id];
      && t.id == n.id && t.contextId == n.contextId && t.parentTaskId == n.parentTaskId && t.metadata == n.metadata
      && t.createdAt == Some(n.createdAt) && t.status == TaskStatus(TaskState.Submitted, n.timestamp, None)
      && t.history == None && t.artifacts == []
    ensures Create(s, n).seqs == s.seqs[n.id := s.nextSeq] && Create(s, n).nextSeq == s.nextSeq + 1
    ensures var (s', r) := CreateKeyed(s, key, n);
      if key in s.keys && s.keys[key] in s.tasks then s' == s && r == Duplicate(s.tasks[s.keys[key]])
      else s' == Create(s, n).(keys := s.keys[key := n.id]) && r == Done(Create(s, n).tasks[n.id])
  {
  }

  /** The artifact, the message and the status that one accepted operation gives to task `id`. */
  function GainOf(s: Store, op: Op, id: string): seq<Artifact>
    requires id in s.tasks
  {
    if op.OpAddArtifact? && op.id == id then [op.artifact]
    else if op.OpComplete? && op.id == id && s.tasks[id].State() == Working then [op.result]
    else []
  }

  function WordOf(s: Store, op: Op, id: string): seq<Message>
    requires id in s.tasks
  {
    if op.OpAppendHistory? && op.id == id && !IsTerminal(s.tasks[id].State()) then [op.message] else []
  }

  function StatusOf(s: Store, op: Op, id: string): seq<TaskStatus>
    requires id in s.tasks
  {
    if op.OpSetStatus? && op.id == id && IsValidTransition(s.tasks[id].State(), op.status.state) then [op.status]
    else if op.OpComplete? && op.id == id && s.tasks[id].State() == Working then [op.done]
    else []
  }

  function Said(t: Task): seq<Message> { if t.history.Some? then t.history.value else [] }

  function Latest(
      first: TaskStatus, more: seq<TaskStatus>): TaskStatus { if more == [] then first else more[|more| - 1] }

  lemma StepOnTask(s: Store, op: Op, id: string)
    requires Fresh(s, op) && id in s.tasks
    ensures var s' := After(s, op);
      && id in s'.tasks && s'.tasks[id].Identity() == s.tasks[id].Identity()
      && s'.tasks[id].artifacts == s.tasks[id].artifacts + GainOf(s, op, id)
      && Said(s'.tasks[id]) == Said(s.tasks[id]) + WordOf(s, op, id)
      && s'.tasks[id].status == Latest(s.tasks[id].status, StatusOf(s, op, id))
  {
    hide Notified;
    if (op.OpSetStatus? || op.OpAddArtifact? || op.OpComplete? || op.OpAppendHistory?) && op.id == id {
    } else {
      OtherTasksStay(s, op, id);
      hide After, Fresh;
    }
  }

  function Gains(s: Store, ops: seq<Op>, id: string): seq<Artifact>
    requires FreshRun(s, ops) && id in s.tasks
    decreases |ops|
  {
    if ops == [] then []
    else
      StepOnTask(s, ops[0], id);
      GainOf(s, ops[0], id) + Gains(After(s, ops[0]), ops[1..], id)
  }

  function Words(s: Store, ops: seq<Op>, id: string): seq<Message>
    requires FreshRun(s, ops) && id in s.tasks
    decreases |ops|
  {
    if ops == [] then []
    else
      StepOnTask(s, ops[0], id);
      WordOf(s, ops[0], id) + Words(After(s, ops[0]), ops[1..], id)
  }

  function Statuses(s: Store, ops: seq<Op>, id: string): seq<TaskStatus>
    requires FreshRun(s, ops) && id in s.tasks
    decreases |ops|
  {
    if ops == [] then []
    else
      StepOnTask(s, ops[0], id);
      StatusOf(s, ops[0], id) + Statuses(After(s, ops[0]), ops[1..], id)
  }

  /**
   * Over any run a task is made of exactly what was accepted for it: its artifacts are the earlier ones and those added
   * since, with the result of its completion, its history the earlier messages and those appended before it ended, both
   * in order, and its status is the last one it was given.
   */
  lemma {:induction false} TaskIsTheSumOfItsChanges(s: Store, ops: seq<Op>, id: string)
    requires FreshRun(s, ops) && id in s.tasks
    ensures id in Run(s, ops).tasks
    ensures var t, t' := s.tasks[id], Run(s, ops).tasks[id];
      && t'.Identity() == t.Identity()
      && t'.artifacts == t.artifacts + Gains(s, ops, id)
      && Said(t') == Said(t) + Words(s, ops, id)
      && t'.status == Latest(t.status, Statuses(s, ops, id))
    decreases |ops|
  {
    hide After, Fresh, GainOf, WordOf, StatusOf, Said;
    if ops == [] {
      assert s.tasks[id].artifacts + [] == s.tasks[id].artifacts && Said(s.tasks[id]) + [] == Said(s.tasks[id]);
    } else {
      var s' := After(s, ops[0]);
      StepOnTask(s, ops[0], id);
      TaskIsTheSumOfItsChanges(s', ops[1..], id);
      Regroup(s.tasks[id].artifacts, GainOf(s, ops[0], id), Gains(s', ops[1..], id));
      Regroup(Said(s.tasks[id]), WordOf(s, ops[0], id), Words(s', ops[1..], id));
    }
  }

  // ---- Idempotency keys ----

  /** One step keeps every known key, and adds at most the key of the call itself. */
  lemma StepKeys(s: Store, op: Op)
    requires Inv(s) && Fresh(s, op)
    ensures var keys, keys' := s.keys, After(s, op).keys;
      && (forall k :: k in keys ==> k in keys' && keys'[k] == keys[k])
      && (forall k :: k in keys' <==> k in keys || (op.OpCreateKeyed? && k == op.key))
  {
    if op.OpCreateKeyed? {
      InvParts(s);
      hide Inv, CreateKeyed, Registered;
    } else {
      OnlyKeyedCallsTouchKeys(s, op);
      hide After, Inv;
    }
  }

  lemma OnlyKeyedCallsTouchKeys(s: Store, op: Op)
    requires !op.OpCreateKeyed?
    ensures After(s, op).keys == s.keys
  {
    hide Notified, Registered, Pruned, Taken, HungUp;
  }

  /** A keyed call answers with the task its key now names. */
  lemma KeyOfReply(s: Store, op: Op)
    requires Inv(s) && Fresh(s, op) && op.OpCreateKeyed?
    ensures var s', r := After(s, op), Step(s, op).1;
      && r.Some? && (r.value.Done? || r.value.Duplicate?)
      && op.key in s'.keys && s'.keys[op.key] == r.value.task.id
      && (r.value.Done? <==> op.key !in s.keys)
      && (r.value.Duplicate? ==> s' == s.(subs := s'.subs) && (op.form.Inherent? ==> s' == s))
  {
    hide Registered;
  }

  lemma {:induction false} KnownKeyIsAnswered(s: Store, ops: seq<Op>, j: nat)
    requires Inv(s) && FreshRun(s, ops) && j < |ops| && ops[j].OpCreateKeyed? && ops[j].key in s.keys
    ensures ReplyAt(s, ops, j) != None && var r := ReplyAt(s, ops, j).value;
      r.Duplicate? && r.task.id == s.keys[ops[j].key]
    decreases |ops|
  {
    hide After, Step, Inv, Fresh;
    StepKeys(s, ops[0]);
    if j > 0 {
      StepKeepsInv(s, ops[0]);
      KnownKeyIsAnswered(After(s, ops[0]), ops[1..], j - 1);
    } else {
      KeyOfReply(s, ops[0]);
    }
  }

  /** Of all calls with one key, the first creates the task and every later one returns that same task. */
  lemma {:induction false} OneTaskPerKey(s: Store, ops: seq<Op>, i: nat, j: nat)
    requires Inv(s) && FreshRun(s, ops) && i < j < |ops|
    requires ops[i].OpCreateKeyed? && ops[j].OpCreateKeyed? && ops[i].key == ops[j].key
    ensures ReplyAt(s, ops, i).Some? && ReplyAt(s, ops, j).Some?
    ensures var first, later := ReplyAt(s, ops, i).value, ReplyAt(s, ops, j).value;
      (first.Done? || first.Duplicate?) && later.Duplicate? && later.task.id == first.task.id
    decreases |ops|
  {
    hide After;
    var s' := After(s, ops[0]);
    StepKeepsInv(s, ops[0]);
    StepKeys(s, ops[0]);
    if i > 0 {
      OneTaskPerKey(s', ops[1..], i - 1, j - 1);
    } else {
      KeyOfReply(s, ops[0]);
      KnownKeyIsAnswered(s', ops[1..], j - 1);
    }
  }

  /** A call creates exactly when its key was never used before. */
  lemma {:induction false} CreatesIffFirst(s: Store, ops: seq<Op>, i: nat)
    requires Inv(s) && FreshRun(s, ops) && i < |ops| && ops[i].OpCreateKeyed?
    ensures ReplyAt(s, ops, i).Some?
    ensures ReplyAt(s, ops, i).value.Done? <==>
      ops[i].key !in s.keys && forall j :: 0 <= j < i ==> !(ops[j].OpCreateKeyed? && ops[j].key == ops[i].key)
    decreases |ops|
  {
    if i > 0 {
      var s', rest := After(s, ops[0]), ops[1..];
      hide After;
      StepKeepsInv(s, ops[0]);
      StepKeys(s, ops[0]);
      CreatesIffFirst(s', rest, i - 1);
      assert forall j :: 0 < j < i ==> ops[j] == rest[j - 1];
      assert forall j :: 0 <= j < i - 1 ==> rest[j] == ops[j + 1];
    }
  }

  lemma {:induction false} KeysPersist(s: Store, ops: seq<Op>, key: string)
    requires Inv(s) && FreshRun(s, ops) && key in s.keys
    ensures key in Run(s, ops).keys && Run(s, ops).keys[key] == s.keys[key]
    decreases |ops|
  {
    if ops != [] {
      hide After;
      StepKeepsInv(s, ops[0]);
      StepKeys(s, ops[0]);
      KeysPersist(After(s, ops[0]), ops[1..], key);
    }
  }

  /** The final key table records, for every keyed call, the task that call returned. */
  lemma {:induction false} KeyTableIsComplete(s: Store, ops: seq<Op>, i: nat)
    requires Inv(s) && FreshRun(s, ops) && i < |ops| && ops[i].OpCreateKeyed?
    ensures ReplyAt(s, ops, i).Some? && !ReplyAt(s, ops, i).value.Refused?
    ensures ops[i].key in Run(s, ops).keys && Run(s, ops).keys[ops[i].key] == ReplyAt(s, ops, i).value.task.id
    decreases |ops|
  {
    var s' := After(s, ops[0]);
    StepKeepsInv(s, ops[0]);
    if i > 0 {
      KeyTableIsComplete(s', ops[1..], i - 1);
    } else {
      KeysPersist(s', ops[1..], ops[0].key);
    }
  }

  /** Distinct keys never share a task. */
  lemma DistinctKeysDistinctTasks(ops: seq<Op>, i: nat, j: nat)
    requires FreshRun(Empty, ops) && i < |ops| && j < |ops|
    requires ops[i].OpCreateKeyed? && ops[j].OpCreateKeyed? && ops[i].key != ops[j].key
    ensures ReplyAt(Empty, ops, i).Some? && ReplyAt(Empty, ops, j).Some?
    ensures !ReplyAt(Empty, ops, i).value.Refused? && !ReplyAt(Empty, ops, j).value.Refused?
    ensures ReplyAt(Empty, ops, i).value.task.id != ReplyAt(Empty, ops, j).value.task.id
  {
    KeyTableIsComplete(Empty, ops, i);
    KeyTableIsComplete(Empty, ops, j);
    RunKeepsInv(Empty, ops);
  }

  // ---- The update sequence ----

  /**
   * When, counted in operations, a task last changed status and was last stamped; `atOnce` says that the
   * last change was a completion, which writes result and status together.
   */
  datatype Age = Age(changed: nat, stamped: nat, atOnce: bool)

  datatype Ages<K> = Ages(now: nat, of: map<K, Age>)

  const NoAges: Ages<string> := Ages(0, map[])

  /** The task whose status the step changed and stamped, or changed without stamping. */
  function StampedBy(op: Op, r: Option<Reply>): Option<string>
  {
    if r.Some? && r.value.Done? && (op.OpCreate? || op.OpCreateKeyed? || op.OpSetStatus?)
    then Some(r.value.task.id) else None
  }

  function CompletedBy(op: Op, r: Option<Reply>): Option<string>
  {
    if r.Some? && r.value.Done? && op.OpComplete? then Some(r.value.task.id) else None
  }

  function Aged(g: Ages<string>, op: Op, r: Option<Reply>): Ages<string>
  {
    match (StampedBy(op, r), CompletedBy(op, r))
    case (Some(id), _) => Ages(g.now + 1, g.of[id := Age(g.now, g.now, false)])
    case (None, Some(id)) =>
      Ages(g.now + 1, g.of[id := Age(g.now, if id in g.of then g.of[id].stamped else g.now, true)])
    case (None, None) => g.(now := g.now + 1)
  }

  /** The clock reading a step writes into a status, if it writes one. */
  function Reading(op: Op, clock: int): int
  {
    match op
    case OpCreate(n) => n.timestamp
    case OpCreateKeyed(_, n, _) => n.timestamp
    case OpSetStatus(_, status) => status.timestamp
    case OpComplete(_, _, done) => done.timestamp
    case _ => clock
  }

  function Times(s: Store): map<string, int> { map id | id in s.tasks :: s.tasks[id].status.timestamp }

  lemma CreateEffect(s: Store, n: NewTask)
    ensures var s' := Create(s, n);
      s'.seqs == s.seqs[n.id := s.nextSeq] && Times(s') == Times(s)[n.id := n.timestamp]
  {
  }

  lemma TimesAfterUpdate(s: Store, t: Store, id: string, task: Task)
    requires t.tasks == s.tasks[id := task]
    ensures Times(t) == Times(s)[id := task.status.timestamp]
  {
  }

  lemma SetStatusEffect(s: Store, id: string, status: TaskStatus)
    requires Inv(s)
    ensures var (s', r) := SetStatus(s, id, status);
      && (!r.Done? ==> s' == s)
      && (r.Done? ==> r.task.id == id && s'.seqs == s.seqs[id := s.nextSeq] && Times(s') == Times(s)[id := status.timestamp])
  {
    InvParts(s);
    hide Inv, Notified, Times;
    var (s', r) := SetStatus(s, id, status);
    if r.Done? { TimesAfterUpdate(s, s', id, r.task); }
  }

  lemma CompleteEffect(s: Store, id: string, result: Artifact, done: TaskStatus)
    requires Inv(s)
    ensures var (s', r) := Complete(s, id, result, done);
      && (!r.Done? ==> s' == s)
      && (r.Done? ==> r.task.id == id && id in s.tasks && s'.seqs == s.seqs && Times(s') == Times(s)[id := done.timestamp])
  {
    InvParts(s);
    hide Inv, Notified, Times;
    var (s', r) := Complete(s, id, result, done);
    if r.Done? { TimesAfterUpdate(s, s', id, r.task); }
  }

  lemma TouchEffect(s: Store, id: string, t: Task, subs: Subscriptions)
    requires id in s.tasks && t.status == s.tasks[id].status
    ensures Times(s.(tasks := s.tasks[id := t], subs := subs)) == Times(s)
  {
  }

  lemma OtherEffect(s: Store, op: Op)
    requires !op.OpCreate? && !op.OpCreateKeyed? && !op.OpSetStatus? && !op.OpComplete?
    ensures After(s, op).seqs == s.seqs && Times(After(s, op)) == Times(s)
  {
    hide Notified, Registered, Pruned, Taken, HungUp, Times;
    var s' := After(s, op);
    if (op.OpAddArtifact? || op.OpAppendHistory?) && op.id in s.tasks {
      TouchEffect(s, op.id, s'.tasks[op.id], s'.subs);
    } else {
      TimesIgnoresSubscribers(s, s'.subs);
    }
  }

  lemma TimesIgnoresSubscribers(s: Store, subs: Subscriptions)
    ensures Times(s.(subs := subs)) == Times(s)
  {
  }

  /** What one step does to the stamps and to the status timestamps. */
  lemma StepEffect(s: Store, op: Op)
    requires Inv(s)
    ensures var s', r := After(s, op), Step(s, op).1;
      match (StampedBy(op, r), CompletedBy(op, r))
      case (Some(id), _) => s'.seqs == s.seqs[id := s.nextSeq] && Times(s') == Times(s)[id := Reading(op, 0)]
      case (None, Some(id)) => id in s.tasks && s'.seqs == s.seqs && Times(s') == Times(s)[id := Reading(op, 0)]
      case (None, None) => s'.seqs == s.seqs && Times(s') == Times(s)
  {
    hide Create, SetStatus, Complete, AddArtifact, AppendHistory, Times, Inv;
    match op
    case OpCreate(n) => CreateEffect(s, n);
    case OpCreateKeyed(key, n, form) =>
      CreateEffect(s, n);
      var (s', r) := CreateKeyed(s, key, n);
      if !KnownKey(s, key) { TimesIgnoresKeys(Create(s, n), s.keys[key := n.id]); }
      TimesIgnoresSubscribers(s', Announced(s', r.task.id, form).subs);
    case OpSetStatus(id, status) => SetStatusEffect(s, id, status);
    case OpComplete(id, result, done) => CompleteEffect(s, id, result, done);
    case _ => OtherEffect(s, op);
  }

  lemma TimesIgnoresKeys(s: Store, keys: map<string, string>)
    ensures Times(s.(keys := keys)) == Times(s)
  {
  }

  function RunAges(s: Store, ops: seq<Op>, g: Ages<string>): Ages<string>
    decreases |ops|
  {
    if ops == [] then g else RunAges(After(s, ops[0]), ops[1..], Aged(g, ops[0], Step(s, ops[0]).1))
  }

  /** The last stamps order the tasks as their sequence numbers do, and are current unless `atOnce`. */
  ghost predicate Fits<K>(seqs: map<K, nat>, g: Ages<K>)
  {
    && g.of.Keys == seqs.Keys
    && (forall k :: k in g.of ==> g.of[k].stamped <= g.of[k].changed < g.now)
    && (forall k :: k in g.of ==> (g.of[k].stamped == g.of[k].changed <==> !g.of[k].atOnce))
    && OneChangeAtATime(g)
    && StampsOrderSequence(seqs, g)
  }

  ghost predicate OneChangeAtATime<K>(g: Ages<K>)
  {
    forall a, b :: a in g.of && b in g.of && g.of[a].changed == g.of[b].changed ==> a == b
  }

  ghost predicate StampsOrderSequence<K>(seqs: map<K, nat>, g: Ages<K>)
  {
    forall a, b :: a in g.of && b in g.of && a in seqs && b in seqs
      ==> (g.of[a].stamped < g.of[b].stamped <==> seqs[a] < seqs[b])
  }

  lemma ChangeIsAlone<K>(g: Ages<K>, h: Ages<K>, id: K)
    requires OneChangeAtATime(g) && (forall k :: k in g.of ==> g.of[k].changed < g.now)
    requires id in h.of && h.of[id].changed == g.now && h.of == g.of[id := h.of[id]]
    ensures OneChangeAtATime(h)
  {
    assert forall k :: k in g.of && k != id ==> h.of[k] == g.of[k];
  }

  lemma StampIsLast<K>(seqs: map<K, nat>, next: nat, g: Ages<K>, h: Ages<K>, id: K)
    requires StampsOrderSequence(seqs, g) && g.of.Keys == seqs.Keys && (forall k :: k in seqs ==> seqs[k] < next)
    requires forall k :: k in g.of ==> g.of[k].stamped < g.now
    requires id in h.of && h.of[id].stamped == g.now && h.of == g.of[id := h.of[id]]
    ensures StampsOrderSequence(seqs[id := next], h)
  {
    assert forall k :: k in g.of && k != id ==> h.of[k] == g.of[k] && seqs[id := next][k] == seqs[k];
  }

  lemma FitsAfterStamp<K>(seqs: map<K, nat>, next: nat, g: Ages<K>, id: K)
    requires Fits(seqs, g) && forall k :: k in seqs ==> seqs[k] < next
    ensures Fits(seqs[id := next], Ages(g.now + 1, g.of[id := Age(g.now, g.now, false)]))
  {
    hide OneChangeAtATime, StampsOrderSequence;
    var h := Ages(g.now + 1, g.of[id := Age(g.now, g.now, false)]);
    ChangeIsAlone(g, h, id);
    StampIsLast(seqs, next, g, h, id);
  }

  lemma SameStamps<K>(seqs: map<K, nat>, g: Ages<K>, h: Ages<K>)
    requires StampsOrderSequence(seqs, g) && h.of.Keys == g.of.Keys
    requires forall k :: k in g.of ==> h.of[k].stamped == g.of[k].stamped
    ensures StampsOrderSequence(seqs, h)
  {
  }

  lemma FitsAfterComplete<K>(seqs: map<K, nat>, g: Ages<K>, id: K)
    requires Fits(seqs, g) && id in seqs
    ensures Fits(seqs, Ages(g.now + 1, g.of[id := Age(g.now, g.of[id].stamped, true)]))
  {
    hide OneChangeAtATime, StampsOrderSequence;
    var h := Ages(g.now + 1, g.of[id := Age(g.now, g.of[id].stamped, true)]);
    ChangeIsAlone(g, h, id);
    SameStamps(seqs, g, h);
  }

  lemma AgedParts(g: Ages<string>, op: Op, r: Option<Reply>)
    ensures forall id :: StampedBy(op, r) == Some(id) ==>
      Aged(g, op, r) == Ages(g.now + 1, g.of[id := Age(g.now, g.now, false)])
    ensures forall id :: StampedBy(op, r) == None && CompletedBy(op, r) == Some(id) && id in g.of ==>
      Aged(g, op, r) == Ages(g.now + 1, g.of[id := Age(g.now, g.of[id].stamped, true)])
    ensures StampedBy(op, r) == None && CompletedBy(op, r) == None ==> Aged(g, op, r) == g.(now := g.now + 1)
  {
    hide StampedBy, CompletedBy;
  }

  lemma StepAges(s: Store, op: Op, g: Ages<string>)
    requires Inv(s) && Fresh(s, op) && Fits(s.seqs, g)
    ensures Fits(After(s, op).seqs, Aged(g, op, Step(s, op).1))
  {
    FitsKeys(s.seqs, g);
    var seqs', r := After(s, op).seqs, Step(s, op).1;
    hide Step, After, StampedBy, CompletedBy, Inv, Fresh, Fits, Times, Aged;
    StepEffect(s, op);
    AgedParts(g, op, r);
    if StampedBy(op, r).Some? {
      FitsAfterStamp(s.seqs, s.nextSeq, g, StampedBy(op, r).value);
    } else if CompletedBy(op, r).Some? {
      FitsAfterComplete(s.seqs, g, CompletedBy(op, r).value);
    } else {
      FitsAfterOther(s.seqs, g);
    }
  }

  lemma FitsKeys<K>(seqs: map<K, nat>, g: Ages<K>)
    requires Fits(seqs, g)
    ensures g.of.Keys == seqs.Keys && forall k :: k in g.of ==> g.of[k].changed < g.now
  {
  }

  lemma FitsAfterOther<K>(seqs: map<K, nat>, g: Ages<K>)
    requires Fits(seqs, g)
    ensures Fits(seqs, g.(now := g.now + 1))
  {
    assert StampsOrderSequence(seqs, g.(now := g.now + 1));
  }

  /**
   * Over every run the update sequence orders tasks by their last stamp, and a task's stamp is its last
   * status change exactly when that change was not made by completion. The store's own comment claims
   * the stamp is never older than the status.
   */
  lemma {:induction false} SequenceIsStaleIffCompleted(s: Store, ops: seq<Op>, g: Ages<string>)
    requires Inv(s) && FreshRun(s, ops) && Fits(s.seqs, g)
    ensures Fits(Run(s, ops).seqs, RunAges(s, ops, g))
    decreases |ops|
  {
    if ops != [] {
      hide After, Step, Aged;
      StepAges(s, ops[0], g);
      StepKeepsInv(s, ops[0]);
      SequenceIsStaleIffCompleted(After(s, ops[0]), ops[1..], Aged(g, ops[0], Step(s, ops[0]).1));
    }
  }

  /** The wall clock never runs backwards. */
  predicate Monotone(ops: seq<Op>, clock: int)
  {
    ops == [] || (clock <= Reading(ops[0], clock) && Monotone(ops[1..], Reading(ops[0], clock)))
  }

  ghost predicate InStep<K>(times: map<K, int>, g: Ages<K>, clock: int)
  {
    && times.Keys == g.of.Keys
    && (forall k :: k in times ==> times[k] <= clock)
    && (forall a, b :: a in times && b in times && g.of[a].changed <= g.of[b].changed ==> times[a] <= times[b])
  }

  /** The task changed last carries the newest reading. */
  lemma InStepAfterChange<K>(times: map<K, int>, g: Ages<K>, h: Ages<K>, id: K, clock: int, reading: int)
    requires InStep(times, g, clock) && clock <= reading && (forall k :: k in g.of ==> g.of[k].changed < g.now)
    requires id in h.of && h.of[id].changed == g.now && h.of == g.of[id := h.of[id]]
    ensures InStep(times[id := reading], h, reading)
  {
    var times' := times[id := reading];
    assert forall k :: k in g.of && k != id ==> h.of[k] == g.of[k] && times'[k] == times[k];
  }

  /** A change carries the clock reading of its operation. */
  lemma ChangesReadTheClock(op: Op, r: Option<Reply>, clock: int)
    ensures StampedBy(op, r).Some? || CompletedBy(op, r).Some? ==> Reading(op, 0) == Reading(op, clock)
  {
  }

  lemma StepClock(s: Store, op: Op, g: Ages<string>, clock: int)
    requires Inv(s) && Fresh(s, op) && Fits(s.seqs, g) && InStep(Times(s), g, clock) && clock <= Reading(op, clock)
    ensures InStep(Times(After(s, op)), Aged(g, op, Step(s, op).1), Reading(op, clock))
  {
    var r := Step(s, op).1;
    var h, now := Aged(g, op, r), Reading(op, clock);
    ChangesReadTheClock(op, r, clock);
    FitsKeys(s.seqs, g);
    hide Step, After, Fits, Inv, Times, StampedBy, CompletedBy, Reading, Fresh;
    StepEffect(s, op);
    match (StampedBy(op, r), CompletedBy(op, r))
    case (Some(id), _) => InStepAfterChange(Times(s), g, h, id, clock, now);
    case (None, Some(id)) => InStepAfterChange(Times(s), g, h, id, clock, now);
    case (None, None) =>
  }

  /** With a clock that never runs backwards, a later status change carries a later or equal timestamp. */
  lemma {:induction false} ClockOrdersChanges(s: Store, ops: seq<Op>, g: Ages<string>, clock: int) returns (clock': int)
    requires Inv(s) && FreshRun(s, ops) && Fits(s.seqs, g) && InStep(Times(s), g, clock) && Monotone(ops, clock)
    ensures InStep(Times(Run(s, ops)), RunAges(s, ops, g), clock')
    decreases |ops|
  {
    clock' := clock;
    if ops != [] {
      hide After, Step, Aged;
      StepAges(s, ops[0], g);
      StepClock(s, ops[0], g, clock);
      StepKeepsInv(s, ops[0]);
      clock' := ClockOrdersChanges(After(s, ops[0]), ops[1..], Aged(g, ops[0], Step(s, ops[0]).1), Reading(ops[0], clock));
    }
  }
}
