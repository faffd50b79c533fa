/**
 * The in-memory A2A task store: what each operation does to the whole store, as a function of the old
 * store, and the class whose methods carry the operations out under the store's locks.
 */
module TaskStore {
  import opened Options
  import opened Tasks
  import Locks

  /** Room of a subscriber's channel. */
  const CAPACITY := 64

  /** The sending half of one subscriber's channel, with the events its receiver has not taken yet. */
  datatype Sender = Sender(channel: nat, open: bool, queue: seq<TaskEvent>)
  {
    predicate Refuses() { !open || |queue| >= CAPACITY }

    function Offer(e: TaskEvent): Sender { if Refuses() then this else this.(queue := queue + [e]) }

    /** The receiver of channel `c` takes the first waiting event, or is dropped. */
    function Take(c: nat): Sender { if channel == c && queue != [] then this.(queue := queue[1..]) else this }

    function HangUp(c: nat): Sender { if channel == c then this.(open := false) else this }
  }

  type Subscriptions = map<string, seq<Sender>>

  /** Everything behind the store's locks. */
  datatype Store = Store(
    tasks: map<string, Task>, keys: map<string, string>, seqs: map<string, nat>, nextSeq: nat, subs: Subscriptions)

  datatype StoreError = TaskNotFound(id: string) | InvalidStateTransition(from: TaskState, to: TaskState)

  /** What a caller supplies for a new task; the id is the freshly generated UUID. */
  datatype NewTask = NewTask(
    id: string, contextId: Option<string>, parentTaskId: Option<string>, metadata: Option<Json>,
    timestamp: int, createdAt: int)

  datatype PushConfig = PushConfig(id: string, url: string, taskId: string, authentication: Option<string>, createdAt: int)

  datatype Reply = Done(task: Task) | Duplicate(task: Task) | Refused(error: StoreError)

  // ---- The operations as functions of the store ----

  function NewlySubmitted(n: NewTask): Task
  {
    Task(n.id, n.contextId, n.parentTaskId, TaskStatus(TaskState.Submitted, n.timestamp, None),
         None, [], Some(n.createdAt), n.metadata)
  }

  function Stamp(s: Store, id: string): Store
  {
    s.(seqs := s.seqs[id := s.nextSeq], nextSeq := s.nextSeq + 1)
  }

  function Create(s: Store, n: NewTask): Store
  {
    Stamp(s.(tasks := s.tasks[n.id := NewlySubmitted(n)]), n.id)
  }

  predicate KnownKey(s: Store, key: string) { key in s.keys && s.keys[key] in s.tasks }

  function CreateKeyed(s: Store, key: string, n: NewTask): (Store, Reply)
  {
    if KnownKey(s, key) then (s, Duplicate(s.tasks[s.keys[key]]))
    else (Create(s, n).(keys := s.keys[key := n.id]), Done(NewlySubmitted(n)))
  }

  function OfferAll(senders: seq<Sender>, e: TaskEvent): seq<Sender>
  {
    seq(|senders|, i requires 0 <= i < |senders| => senders[i].Offer(e))
  }

  function OpenOnly(senders: seq<Sender>): seq<Sender>
  {
    if senders == [] then []
    else (if senders[0].open then [senders[0]] else []) + OpenOnly(senders[1..])
  }

  function Pruned(subs: Subscriptions, id: string): Subscriptions
  {
    if id !in subs then subs
    else if OpenOnly(subs[id]) == [] then subs - {id}
    else subs[id := OpenOnly(subs[id])]
  }

  predicate AnyRefuses(senders: seq<Sender>)
  {
    exists i :: 0 <= i < |senders| && senders[i].Refuses()
  }

  function Notified(subs: Subscriptions, id: string, e: TaskEvent): Subscriptions
  {
    if id !in subs then subs
    else
      var sent := subs[id := OfferAll(subs[id], e)];
      if AnyRefuses(subs[id]) then Pruned(sent, id) else sent
  }

  function Notify(s: Store, id: string, e: TaskEvent): Store { s.(subs := Notified(s.subs, id, e)) }

  function SetStatus(s: Store, id: string, status: TaskStatus): (Store, Reply)
  {
    if id !in s.tasks then (s, Refused(TaskNotFound(id)))
    else if !IsValidTransition(s.tasks[id].State(), status.state) then
      (s, Refused(InvalidStateTransition(s.tasks[id].State(), status.state)))
    else
      var task := s.tasks[id].(status := status);
      (Notify(Stamp(s.(tasks := s.tasks[id := task]), id), id, StatusChanged(id, status)), Done(task))
  }

  function AddArtifact(s: Store, id: string, a: Artifact): (Store, Reply)
  {
    if id !in s.tasks then (s, Refused(TaskNotFound(id)))
    else
      var task := s.tasks[id].(artifacts := s.tasks[id].artifacts + [a]);
      (Notify(s.(tasks := s.tasks[id := task]), id, ArtifactAdded(id, a)), Done(task))
  }

  /** Completion stores the result and the status together and does not stamp the update sequence. */
  function Complete(s: Store, id: string, result: Artifact, status: TaskStatus): (Store, Reply)
  {
    if id !in s.tasks then (s, Refused(TaskNotFound(id)))
    else if !IsValidTransition(s.tasks[id].State(), Completed) then
      (s, Refused(InvalidStateTransition(s.tasks[id].State(), Completed)))
    else
      var task := s.tasks[id].(artifacts := s.tasks[id].artifacts + [result], status := status);
      (Notify(Notify(s.(tasks := s.tasks[id := task]), id, ArtifactAdded(id, result)),
              id, StatusChanged(id, status)),
       Done(task))
  }

  function AppendHistory(s: Store, id: string, m: Message): (Store, Reply)
  {
    if id !in s.tasks then (s, Refused(TaskNotFound(id)))
    else if IsTerminal(s.tasks[id].State()) then
      (s, Refused(InvalidStateTransition(s.tasks[id].State(), s.tasks[id].State())))
    else
      var said := s.tasks[id].history;
      var task := s.tasks[id].(history := Some((if said.Some? then said.value else []) + [m]));
      (s.(tasks := s.tasks[id := task]), Done(task))
  }

  function Registered(subs: Subscriptions, id: string, sender: Sender): Subscriptions
  {
    subs[id := (if id in subs then subs[id] else []) + [sender]]
  }

  /** The receiver end of a channel acts without the store's locks. */
  function Taken(subs: Subscriptions, id: string, c: nat): Subscriptions
  {
    if id in subs then subs[id := seq(|subs[id]|, i requires 0 <= i < |subs[id]| => subs[id][i].Take(c))] else subs
  }

  function HungUp(subs: Subscriptions, id: string, c: nat): Subscriptions
  {
    if id in subs then subs[id := seq(|subs[id]|, i requires 0 <= i < |subs[id]| => subs[id][i].HangUp(c))] else subs
  }

  function FirstConfig(configs: seq<PushConfig>, id: string): (r: Option<PushConfig>)
    ensures r.Some? ==> r.value in configs && r.value.id == id
    ensures r.None? ==> forall x :: x in configs ==> x.id != id
  {
    if configs == [] then None
    else
      assert configs == [configs[0]] + configs[1..];
      if configs[0].id == id then Some(configs[0]) else FirstConfig(configs[1..], id)
  }

  function WithoutConfig(configs: seq<PushConfig>, id: string): (r: seq<PushConfig>)
    ensures forall x :: x in r <==> x in configs && x.id != id
  {
    if configs == [] then []
    else
      assert configs == [configs[0]] + configs[1..];
      (if configs[0].id == id then [] else [configs[0]]) + WithoutConfig(configs[1..], id)
  }

  /** The lock steps of a notification about `id`, given who is registered. */
  function NoticeOf(subs: Subscriptions, hooks: map<string, seq<PushConfig>>, id: string): Locks.Notification
  {
    Locks.Notification(id in subs, id in subs && AnyRefuses(subs[id]), id in hooks)
  }

  /** A notice finds a refusal when some channel is closed or has 64 events waiting. */
  lemma WhatANoticeFinds(subs: Subscriptions, hooks: map<string, seq<PushConfig>>, id: string)
    ensures var n := NoticeOf(subs, hooks, id);
      && (n.subscribed <==> id in subs) && (n.hooked <==> id in hooks)
      && (n.refused <==> id in subs && exists x :: x in subs[id] && (!x.open || |x.queue| >= 64))
  {
    if id in subs {
      forall x | x in subs[id] && (!x.open || |x.queue| >= 64) ensures AnyRefuses(subs[id]) {
        var i :| 0 <= i < |subs[id]| && subs[id][i] == x;
        assert subs[id][i].Refuses();
      }
    }
  }

  /** Read guard, then a write guard when a sender refused. */
  function DeliverySteps(failed: bool): Locks.Program
  {
    Locks.Around(Locks.Subscriptions, Locks.Read, [])
    + (if failed then Locks.Around(Locks.Subscriptions, Locks.Write, []) else [])
  }

  lemma AroundIsConcat(log: Locks.Program, l: Locks.Lock, m: Locks.Mode, p: Locks.Program)
    ensures log + [Locks.Acquire(l, m)] + p + [Locks.Release(l)] == log + Locks.Around(l, m, p)
  {
    Concat4(log, [Locks.Acquire(l, m)], p, [Locks.Release(l)]);
    Concat4([], [Locks.Acquire(l, m)], p, [Locks.Release(l)]);
    assert [] + [Locks.Acquire(l, m)] == [Locks.Acquire(l, m)];
    assert [] + ([Locks.Acquire(l, m)] + (p + [Locks.Release(l)])) == [Locks.Acquire(l, m)] + (p + [Locks.Release(l)]);
  }

  lemma Concat4<T>(a: seq<T>, b: seq<T>, c: seq<T>, d: seq<T>)
    ensures a + b + c + d == a + (b + (c + d))
    ensures d == [] ==> a + b + c == a + (b + c)
  {
  }

  // ---- The store itself ----

  class InMemoryTaskStore {
    var tasks: map<string, Task>
    var subscriptions: Subscriptions
    var pushConfigs: map<string, seq<PushConfig>>
    var idempotencyKeys: map<string, string>
    var updateSeq: map<string, nat>
    var nextSeq: nat
    /** Every lock step performed so far. */
    ghost var lockLog: Locks.Program

    function Contents(): Store
      reads this
    {
      Store(tasks, idempotencyKeys, updateSeq, nextSeq, subscriptions)
    }

    constructor ()
      ensures Contents() == Store(map[], map[], map[], 0, map[]) && pushConfigs == map[] && lockLog == []
    {
      tasks, subscriptions, pushConfigs, idempotencyKeys, updateSeq, nextSeq := map[], map[], map[], map[], map[], 0;
      lockLog := [];
    }

    ghost method Acquire(l: Locks.Lock, m: Locks.Mode)
      modifies this`lockLog
      ensures lockLog == old(lockLog) + [Locks.Acquire(l, m)]
    {
      lockLog := lockLog + [Locks.Acquire(l, m)];
    }

    ghost method Release(l: Locks.Lock)
      modifies this`lockLog
      ensures lockLog == old(lockLog) + [Locks.Release(l)]
    {
      lockLog := lockLog + [Locks.Release(l)];
    }

    method GetTask(id: string) returns (r: Result<Task, StoreError>)
      modifies this`lockLog
      ensures r == if id in tasks then Ok(tasks[id]) else Err(TaskNotFound(id))
      ensures lockLog == old(lockLog) + Locks.Steps(Locks.GetTask)
    {
      Acquire(Locks.TaskMap, Locks.Read);
      r := if id in tasks then Ok(tasks[id]) else Err(TaskNotFound(id));
      Release(Locks.TaskMap);
    }

    method CreatePushConfig(taskId: string, id: string, url: string, authentication: Option<string>, now: int)
      returns (config: PushConfig)
      modifies this`pushConfigs, this`lockLog
      ensures config == PushConfig(id, url, taskId, authentication, now)
      ensures pushConfigs == old(pushConfigs)[taskId := (if taskId in old(pushConfigs) then old(pushConfigs)[taskId] else []) + [config]]
      ensures lockLog == old(lockLog) + Locks.Steps(Locks.WritePushConfigs)
    {
      Acquire(Locks.PushConfigs, Locks.Write);
      config := PushConfig(id, url, taskId, authentication, now);
      pushConfigs := pushConfigs[taskId := (if taskId in pushConfigs then pushConfigs[taskId] else []) + [config]];
      Release(Locks.PushConfigs);
    }

    method ListPushConfigs(taskId: string) returns (configs: seq<PushConfig>)
      modifies this`lockLog
      ensures configs == if taskId in pushConfigs then pushConfigs[taskId] else []
      ensures lockLog == old(lockLog) + Locks.Steps(Locks.ReadPushConfigs)
    {
      Acquire(Locks.PushConfigs, Locks.Read);
      configs := if taskId in pushConfigs then pushConfigs[taskId] else [];
      Release(Locks.PushConfigs);
    }

    method GetPushConfig(taskId: string, id: string) returns (config: Option<PushConfig>)
      modifies this`lockLog
      ensures config == FirstConfig(if taskId in pushConfigs then pushConfigs[taskId] else [], id)
      ensures lockLog == old(lockLog) + Locks.Steps(Locks.ReadPushConfigs)
    {
      Acquire(Locks.PushConfigs, Locks.Read);
      config := None;
      var configs := if taskId in pushConfigs then pushConfigs[taskId] else [];
      var i := 0;
      while i < |configs| && config.None?
        invariant i <= |configs|
        invariant FirstConfig(configs, id) == if config.Some? then config else FirstConfig(configs[i..], id)
      {
        if configs[i].id == id { config := Some(configs[i]); }
        assert configs[i..][1..] == configs[i + 1..];
        i := i + 1;
      }
      Release(Locks.PushConfigs);
    }

    method DeletePushConfig(taskId: string, id: string)
      modifies this`pushConfigs, this`lockLog
      ensures pushConfigs == if taskId in old(pushConfigs)
        then old(pushConfigs)[taskId := WithoutConfig(old(pushConfigs)[taskId], id)] else old(pushConfigs)
      ensures lockLog == old(lockLog) + Locks.Steps(Locks.WritePushConfigs)
    {
      Acquire(Locks.PushConfigs, Locks.Write);
      if taskId in pushConfigs { pushConfigs := pushConfigs[taskId := WithoutConfig(pushConfigs[taskId], id)]; }
      Release(Locks.PushConfigs);
    }

    method AssignUpdateSeq(id: string)
      modifies this`updateSeq, this`nextSeq, this`lockLog
      ensures Contents() == Stamp(old(Contents()), id)
      ensures lockLog == old(lockLog) + Locks.Around(Locks.UpdateSeq, Locks.Write, [])
    {
      var seqNo := nextSeq;
      nextSeq := nextSeq + 1;
      Acquire(Locks.UpdateSeq, Locks.Write);
      updateSeq := updateSeq[id := seqNo];
      Release(Locks.UpdateSeq);
    }

    method CreateTask(n: NewTask) returns (task: Task)
      modifies this`tasks, this`updateSeq, this`nextSeq, this`lockLog
      ensures Contents() == Create(old(Contents()), n) && task == NewlySubmitted(n)
      ensures lockLog == old(lockLog) + Locks.Steps(Locks.CreateTask)
    {
      task := NewlySubmitted(n);
      Acquire(Locks.TaskMap, Locks.Write);
      tasks := tasks[n.id := task];
      AssignUpdateSeq(n.id);
      Release(Locks.TaskMap);
    }

    method CreateTaskWithIdempotency(key: string, n: NewTask) returns (reply: Reply)
      modifies this`tasks, this`updateSeq, this`nextSeq, this`idempotencyKeys, this`lockLog
      ensures (Contents(), reply) == CreateKeyed(old(Contents()), key, n)
      ensures lockLog == old(lockLog) + Locks.Steps(Locks.CreateKeyed(key in old(idempotencyKeys), reply.Duplicate?))
    {
      ghost var log0, look := lockLog, if key in idempotencyKeys then Locks.Get else [];
      Acquire(Locks.IdempotencyKeys, Locks.Write);
      if key in idempotencyKeys {
        var known := GetTask(idempotencyKeys[key]);
        if known.Ok? {
          Release(Locks.IdempotencyKeys);
          AroundIsConcat(log0, Locks.IdempotencyKeys, Locks.Write, look);
          assert look + [] == look;
          return Duplicate(known.value);
        }
      }
      ghost var log1 := lockLog;
      assert log1 == log0 + [Locks.Acquire(Locks.IdempotencyKeys, Locks.Write)] + look;
      var task := CreateTask(n);
      idempotencyKeys := idempotencyKeys[key := task.id];
      Release(Locks.IdempotencyKeys);
      Concat4(log0 + [Locks.Acquire(Locks.IdempotencyKeys, Locks.Write)], look, Locks.Stamped, []);
      AroundIsConcat(log0, Locks.IdempotencyKeys, Locks.Write, look + Locks.Stamped);
      reply := Done(task);
    }

    /**
     * The trait's form: the same creation, plus a sender whose receiver is gone when the call returns.
     */
    method CreateTaskAndRegister(key: string, n: NewTask, channel: nat) returns (reply: Reply)
      modifies this
      ensures var (s, r) := CreateKeyed(old(Contents()), key, n);
        reply == r && Contents() == s.(subs := Registered(s.subs, r.task.id, Sender(channel, false, [])))
      ensures pushConfigs == old(pushConfigs)
      ensures lockLog == old(lockLog)
        + Locks.Steps(Locks.CreateKeyedAndRegister(key in old(idempotencyKeys), reply.Duplicate?))
    {
      reply := CreateTaskWithIdempotency(key, n);
      RegisterSender(reply.task.id, Sender(channel, false, []));
      Concat4(old(lockLog), Locks.CreateIdempotent(key in old(idempotencyKeys), reply.Duplicate?), Locks.Register, []);
    }

    method RegisterSender(id: string, sender: Sender)
      modifies this`subscriptions, this`lockLog
      ensures subscriptions == Registered(old(subscriptions), id, sender)
      ensures lockLog == old(lockLog) + Locks.Register
    {
      Acquire(Locks.Subscriptions, Locks.Write);
      subscriptions := Registered(subscriptions, id, sender);
      Release(Locks.Subscriptions);
    }

    method Subscribe(id: string, channel: nat) returns (exists': bool)
      modifies this`subscriptions, this`lockLog
      ensures subscriptions == Registered(old(subscriptions), id, Sender(channel, true, []))
      ensures exists' == (id in tasks)
      ensures lockLog == old(lockLog) + Locks.Steps(Locks.SubscribeTo)
    {
      Acquire(Locks.Subscriptions, Locks.Write);
      subscriptions := Registered(subscriptions, id, Sender(channel, true, []));
      Acquire(Locks.TaskMap, Locks.Read);
      exists' := id in tasks;
      Release(Locks.TaskMap);
      Release(Locks.Subscriptions);
    }

    method PruneSubscriptions(id: string)
      modifies this`subscriptions, this`lockLog
      ensures subscriptions == Pruned(old(subscriptions), id)
      ensures lockLog == old(lockLog) + Locks.Steps(Locks.Prune)
    {
      Acquire(Locks.Subscriptions, Locks.Write);
      if id in subscriptions {
        var senders := OpenOnly(subscriptions[id]);
        if senders == [] {
          subscriptions := subscriptions - {id};
        } else {
          subscriptions := subscriptions[id := senders];
        }
      }
      Release(Locks.Subscriptions);
    }

    /** `notify_status_change` and `notify_artifact_added`, which differ only in the event. */
    method NotifySubscribers(id: string, e: TaskEvent)
      modifies this`subscriptions, this`lockLog
      ensures subscriptions == Notified(old(subscriptions), id, e)
      ensures lockLog == old(lockLog) + NoticeOf(old(subscriptions), pushConfigs, id).Steps()
    {
      ghost var log0, push := lockLog, Locks.NotifyPush(id in pushConfigs);
      if id in subscriptions {
        ghost var failed := AnyRefuses(subscriptions[id]);
        DeliverAndPrune(id, e);
        NotifyPushConfigs(id);
        Concat4(log0, DeliverySteps(failed), push, []);
      } else {
        Acquire(Locks.Subscriptions, Locks.Read);
        NotifyPushConfigs(id);
        Release(Locks.Subscriptions);
        AroundIsConcat(log0, Locks.Subscriptions, Locks.Read, push);
      }
    }

    /** The half of a notification that runs when the task has subscribers. */
    method DeliverAndPrune(id: string, e: TaskEvent)
      requires id in subscriptions
      modifies this`subscriptions, this`lockLog
      ensures subscriptions == Notified(old(subscriptions), id, e)
      ensures lockLog == old(lockLog) + DeliverySteps(AnyRefuses(old(subscriptions)[id]))
    {
      Acquire(Locks.Subscriptions, Locks.Read);
      var senders, failed := TrySendAll(subscriptions[id], e);
      subscriptions := subscriptions[id := senders];
      Release(Locks.Subscriptions);
      if failed {
        PruneSubscriptions(id);
      }
    }

    /** Offers the event to every sender; a full or closed channel is only remembered. */
    method TrySendAll(before: seq<Sender>, e: TaskEvent) returns (senders: seq<Sender>, failed: bool)
      ensures senders == OfferAll(before, e) && failed == AnyRefuses(before)
    {
      senders, failed := before, false;
      var i := 0;
      while i < |senders|
        invariant 0 <= i <= |senders| == |before|
        invariant forall j :: 0 <= j < i ==> senders[j] == before[j].Offer(e)
        invariant forall j :: i <= j < |senders| ==> senders[j] == before[j]
        invariant failed <==> exists j :: 0 <= j < i && before[j].Refuses()
      {
        if senders[i].Refuses() { failed := true; }
        senders := senders[i := senders[i].Offer(e)];
        i := i + 1;
      }
    }

    /** Webhook delivery itself is spawned; only its lock steps belong to the store. */
    method NotifyPushConfigs(id: string)
      modifies this`lockLog
      ensures lockLog == old(lockLog) + Locks.NotifyPush(id in pushConfigs)
    {
      Acquire(Locks.PushConfigs, Locks.Read);
      if id in pushConfigs {
        var task := GetTask(id);
      }
      Release(Locks.PushConfigs);
    }

    method UpdateStatus(id: string, newState: TaskState, message: Option<Message>, now: int) returns (reply: Reply)
      modifies this`tasks, this`updateSeq, this`nextSeq, this`subscriptions, this`lockLog
      ensures (Contents(), reply) == SetStatus(old(Contents()), id, TaskStatus(newState, now, message))
      ensures lockLog == old(lockLog) + Locks.Steps(Locks.SetStatus(reply.Done?, NoticeOf(old(subscriptions), pushConfigs, id)))
    {
      hide NoticeOf, Notified, IsValidTransition;
      Acquire(Locks.TaskMap, Locks.Write);
      if id !in tasks {
        Release(Locks.TaskMap);
        return Refused(TaskNotFound(id));
      }
      var task := tasks[id];
      if !IsValidTransition(task.status.state, newState) {
        Release(Locks.TaskMap);
        return Refused(InvalidStateTransition(task.status.state, newState));
      }
      var newStatus := TaskStatus(newState, now, message);
      task := task.(status := newStatus);
      tasks := tasks[id := task];
      AssignUpdateSeq(id);
      Release(Locks.TaskMap);
      assert lockLog == old(lockLog) + Locks.Stamped;
      NotifySubscribers(id, StatusChanged(id, newStatus));
      Concat4(old(lockLog), Locks.Stamped, NoticeOf(old(subscriptions), pushConfigs, id).Steps(), []);
      reply := Done(task);
    }

    method AddArtifactTo(id: string, artifact: Artifact) returns (reply: Reply)
      modifies this`tasks, this`subscriptions, this`lockLog
      ensures (Contents(), reply) == AddArtifact(old(Contents()), id, artifact)
      ensures lockLog == old(lockLog) + Locks.Steps(Locks.AddArtifact(reply.Done?, NoticeOf(old(subscriptions), pushConfigs, id)))
    {
      hide NoticeOf, Notified, IsValidTransition;
      Acquire(Locks.TaskMap, Locks.Write);
      if id !in tasks {
        Release(Locks.TaskMap);
        return Refused(TaskNotFound(id));
      }
      var task := tasks[id].(artifacts := tasks[id].artifacts + [artifact]);
      tasks := tasks[id := task];
      Release(Locks.TaskMap);
      assert lockLog == old(lockLog) + Locks.Touched;
      NotifySubscribers(id, ArtifactAdded(id, artifact));
      Concat4(old(lockLog), Locks.Touched, NoticeOf(old(subscriptions), pushConfigs, id).Steps(), []);
      reply := Done(task);
    }

    method CompleteTask(id: string, result: Json, artifactId: string, messageId: string, now: int)
      returns (reply: Reply)
      modifies this`tasks, this`subscriptions, this`lockLog
      ensures (Contents(), reply) == Complete(old(Contents()), id, Artifact(artifactId, Some("result"), [result]),
        TaskStatus(Completed, now, Some(Message(messageId, ["Task completed successfully"]))))
      ensures var told := Notified(old(subscriptions), id, ArtifactAdded(id, Artifact(artifactId, Some("result"), [result])));
        lockLog == old(lockLog) + Locks.Steps(Locks.Complete(reply.Done?,
          NoticeOf(old(subscriptions), pushConfigs, id), NoticeOf(told, pushConfigs, id)))
    {
      hide NoticeOf, Notified, IsValidTransition;
      Acquire(Locks.TaskMap, Locks.Write);
      if id !in tasks {
        Release(Locks.TaskMap);
        return Refused(TaskNotFound(id));
      }
      var task := tasks[id];
      if !IsValidTransition(task.status.state, Completed) {
        Release(Locks.TaskMap);
        return Refused(InvalidStateTransition(task.status.state, Completed));
      }
      var artifact := Artifact(artifactId, Some("result"), [result]);
      task := task.(artifacts := task.artifacts + [artifact]);
      task := task.(status := TaskStatus(Completed, now, Some(Message(messageId, ["Task completed successfully"]))));
      tasks := tasks[id := task];
      Release(Locks.TaskMap);
      assert lockLog == old(lockLog) + Locks.Touched;
      NotifySubscribers(id, ArtifactAdded(id, artifact));
      NotifySubscribers(id, StatusChanged(id, task.status));
      Concat4(old(lockLog), Locks.Touched, NoticeOf(old(subscriptions), pushConfigs, id).Steps(),
        NoticeOf(Notified(old(subscriptions), id, ArtifactAdded(id, artifact)), pushConfigs, id).Steps());
      reply := Done(task);
    }

    method AppendHistoryTo(id: string, message: Message) returns (reply: Reply)
      modifies this`tasks, this`lockLog
      ensures (Contents(), reply) == AppendHistory(old(Contents()), id, message)
      ensures lockLog == old(lockLog) + Locks.Steps(Locks.AppendHistory)
    {
      Acquire(Locks.TaskMap, Locks.Write);
      if id !in tasks {
        reply := Refused(TaskNotFound(id));
      } else if IsTerminal(tasks[id].status.state) {
        reply := Refused(InvalidStateTransition(tasks[id].status.state, tasks[id].status.state));
      } else {
        var task := tasks[id];
        var history := if task.history.Some? then task.history.value else [];
        task := task.(history := Some(history + [message]));
        tasks := tasks[id := task];
        reply := Done(task);
      }
      Release(Locks.TaskMap);
    }
  }
}
