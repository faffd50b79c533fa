/**
 * What the notifications of a run put into one subscriber's bounded channel, and what its receiver takes out.
 */
module Delivery {
  import opened Options
  import opened Sequences
  import opened Tasks
  import opened TaskStore
  import opened TaskRuns

  // ---- What a run publishes about one task ----

  function EventsOf(s: Store, op: Op, id: string): seq<TaskEvent>
  {
    var r := Step(s, op).1;
    if r.None? || !r.value.Done? then []
    else match op
      case OpSetStatus(x, status) => if x == id then [StatusChanged(id, status)] else []
      case OpAddArtifact(x, a) => if x == id then [ArtifactAdded(id, a)] else []
      case OpComplete(x, result, done) => if x == id then [ArtifactAdded(id, result), StatusChanged(id, done)] else []
      case _ => []
  }

  function Published(s: Store, ops: seq<Op>, id: string): seq<TaskEvent>
    decreases |ops|
  {
    if ops == [] then [] else EventsOf(s, ops[0], id) + Published(After(s, ops[0]), ops[1..], id)
  }

  lemma {:induction false} PublishedSplit(s: Store, a: seq<Op>, b: seq<Op>, id: string)
    ensures Run(s, a + b) == Run(Run(s, a), b)
    ensures Published(s, a + b, id) == Published(s, a, id) + Published(Run(s, a), b, id)
    ensures FreshRun(s, a + b) ==> FreshRun(s, a) && FreshRun(Run(s, a), b)
    decreases |a|
  {
    hide After, EventsOf, Fresh;
    if a == [] {
      assert a + b == b && [] + Published(s, b, id) == Published(s, b, id);
    } else {
      var s' := After(s, a[0]);
      assert (a + b)[0] == a[0] && (a + b)[1..] == a[1..] + b;
      PublishedSplit(s', a[1..], b, id);
      assert EventsOf(s, a[0], id) + (Published(s', a[1..], id) + Published(Run(s', a[1..]), b, id))
          == (EventsOf(s, a[0], id) + Published(s', a[1..], id)) + Published(Run(s', a[1..]), b, id);
    }
  }

  // ---- One channel among the subscribers ----

  /** The senders of channel `c`; a channel is made for one subscription, so there is at most one. */
  function Of(senders: seq<Sender>, c: nat): seq<Sender>
  {
    if senders == [] then []
    else (if senders[0].channel == c then [senders[0]] else []) + Of(senders[1..], c)
  }

  /** Channel `c` is registered for `id`, open, with exactly `queue` waiting in it. */
  predicate Waiting(subs: Subscriptions, id: string, c: nat, queue: seq<TaskEvent>)
  {
    id in subs && Of(subs[id], c) == [Sender(c, true, queue)]
  }

  lemma {:induction false} OfNone(xs: seq<Sender>, ys: seq<Sender>, c: nat)
    requires |xs| == |ys| && forall i :: 0 <= i < |xs| ==> ys[i].channel == xs[i].channel
    requires Of(xs, c) == []
    ensures Of(ys, c) == []
  {
    if xs != [] { OfNone(xs[1..], ys[1..], c); }
  }

  /** A change of every sender in place changes the sender of `c` in place. */
  lemma {:induction false} OfChanged(xs: seq<Sender>, ys: seq<Sender>, c: nat, x: Sender, y: Sender)
    requires |xs| == |ys| && forall i :: 0 <= i < |xs| ==> ys[i].channel == xs[i].channel && (xs[i] == x ==> ys[i] == y)
    requires Of(xs, c) == [x]
    ensures Of(ys, c) == [y]
  {
    if xs[0].channel == c {
      assert Of(xs, c) == [xs[0]] + Of(xs[1..], c);
      assert |Of(xs[1..], c)| == 0 && xs[0] == Of(xs, c)[0];
      OfNone(xs[1..], ys[1..], c);
    } else {
      OfChanged(xs[1..], ys[1..], c, x, y);
    }
  }

  lemma {:induction false} OfOpenOnly(xs: seq<Sender>, c: nat)
    requires forall x :: x in Of(xs, c) ==> x.open
    ensures Of(OpenOnly(xs), c) == Of(xs, c)
  {
    hide Of;
    if xs != [] {
      var x, tail := xs[0], xs[1..];
      OfTail(xs, c);
      OfOpenOnly(tail, c);
      OfCons(x, OpenOnly(tail), c);
      OfCons(x, tail, c);
      assert xs == [x] + tail;
      assert [] + OpenOnly(tail) == OpenOnly(tail) && [] + Of(tail, c) == Of(tail, c);
    }
  }

  lemma OfCons(x: Sender, tail: seq<Sender>, c: nat)
    ensures Of([x] + tail, c) == (if x.channel == c then [x] else []) + Of(tail, c)
  {
    assert ([x] + tail)[1..] == tail;
  }

  lemma OfTail(xs: seq<Sender>, c: nat)
    requires xs != []
    ensures forall x :: x in Of(xs[1..], c) ==> x in Of(xs, c)
    ensures xs[0].channel == c ==> xs[0] in Of(xs, c)
  {
    var own := if xs[0].channel == c then [xs[0]] else [];
    assert Of(xs, c) == own + Of(xs[1..], c);
    if own != [] { assert Of(xs, c)[0] == xs[0]; }
  }

  lemma {:induction false} OfConcat(xs: seq<Sender>, ys: seq<Sender>, c: nat)
    ensures Of(xs + ys, c) == Of(xs, c) + Of(ys, c)
  {
    if xs == [] {
      assert xs + ys == ys;
    } else {
      assert (xs + ys)[0] == xs[0] && (xs + ys)[1..] == xs[1..] + ys;
      OfConcat(xs[1..], ys, c);
    }
  }

  /** Pruning takes a closed channel out and leaves an open one. */
  lemma {:induction false} OfPruned(xs: seq<Sender>, c: nat)
    requires |Of(xs, c)| <= 1
    ensures Of(OpenOnly(xs), c) == if Of(xs, c) != [] && Of(xs, c)[0].open then Of(xs, c) else []
  {
    if xs != [] {
      var x, tail := xs[0], xs[1..];
      OfPruned(tail, c);
      OfCons(x, OpenOnly(tail), c);
      assert Of(xs, c) == (if x.channel == c then [x] else []) + Of(tail, c);
      assert [] + OpenOnly(tail) == OpenOnly(tail);
    }
  }

  lemma {:induction false} OpenOnesStay(xs: seq<Sender>)
    ensures OpenOnly(xs) == [] <==> forall x :: x in xs ==> !x.open
  {
    if xs != [] {
      assert xs == [xs[0]] + xs[1..];
      OpenOnesStay(xs[1..]);
    }
  }

  /**
   * A notice about `id` meets each of its channels: an open one with fewer than 64 events waiting takes it, a full one
   * stays as it was, and one whose receiver is gone is taken out. The entry goes with its last channel.
   */
  lemma NoticeMeetsChannel(subs: Subscriptions, id: string, e: TaskEvent, c: nat, x: Sender)
    requires id in subs && Of(subs[id], c) == [x]
    ensures x.open ==>
      id in Notified(subs, id, e) &&
      Of(Notified(subs, id, e)[id], c) == [Sender(x.channel, true, if |x.queue| < 64 then x.queue + [e] else x.queue)]
    ensures !x.open ==> id in Notified(subs, id, e) ==> Of(Notified(subs, id, e)[id], c) == []
    ensures id in Notified(subs, id, e) <==> exists y :: y in subs[id] && y.open
    ensures forall k :: k != id ==>
      (k in Notified(subs, id, e) <==> k in subs) && (k in subs ==> Notified(subs, id, e)[k] == subs[k])
  {
    hide OfferAll, OpenOnly, Of, AnyRefuses, Sender.Offer, Sender.Refuses;
    var ys := OfferAll(subs[id], e);
    OffersMeetChannel(subs[id], e, c, x);
    OffersLeaveDoors(subs[id], e);
    OfPruned(ys, c);
    OpenOnesStay(ys);
  }

  lemma OffersMeetChannel(xs: seq<Sender>, e: TaskEvent, c: nat, x: Sender)
    requires Of(xs, c) == [x]
    ensures Of(OfferAll(xs, e), c) == [Sender(x.channel, x.open, if x.open && |x.queue| < 64 then x.queue + [e] else x.queue)]
    ensures !x.open ==> AnyRefuses(xs)
    ensures x in xs
  {
    OfChanged(xs, OfferAll(xs, e), c, x, x.Offer(e));
    SenderIsOf(xs, c, x);
    var i :| 0 <= i < |xs| && xs[i] == x;
    assert !x.open ==> xs[i].Refuses();
  }

  lemma OffersLeaveDoors(xs: seq<Sender>, e: TaskEvent)
    ensures (exists y :: y in OfferAll(xs, e) && y.open) <==> exists y :: y in xs && y.open
    ensures !AnyRefuses(xs) ==> forall y :: y in xs ==> y.open
  {
    var ys := OfferAll(xs, e);
    forall y | y in xs ensures y.Offer(e) in ys && y.Offer(e).open == y.open && (!AnyRefuses(xs) ==> y.open) {
      var i :| 0 <= i < |xs| && xs[i] == y;
      assert ys[i] == y.Offer(e);
      assert !y.open ==> xs[i].Refuses();
    }
    forall y | y in ys ensures exists z :: z in xs && z.open == y.open {
      var i :| 0 <= i < |ys| && ys[i] == y;
      assert xs[i] in xs;
    }
  }

  lemma {:induction false} SenderIsOf(xs: seq<Sender>, c: nat, x: Sender)
    requires x in Of(xs, c)
    ensures x in xs && x.channel == c
  {
    if xs != [] {
      assert xs == [xs[0]] + xs[1..];
      if x in Of(xs[1..], c) { SenderIsOf(xs[1..], c, x); }
    }
  }

  /** A subscription opens an empty channel of its own and leaves every other one as it is. */
  lemma SubscribeOpensAChannel(s: Store, id: string, c: nat, d: nat)
    requires id in s.subs ==> Of(s.subs[id], c) == []
    ensures Waiting(After(s, OpSubscribe(id, c)).subs, id, c, [])
    ensures d != c && id in s.subs ==> Of(After(s, OpSubscribe(id, c)).subs[id], d) == Of(s.subs[id], d)
    ensures forall k :: k != id ==>
      var subs := After(s, OpSubscribe(id, c)).subs; (k in subs <==> k in s.subs) && (k in subs ==> subs[k] == s.subs[k])
  {
    var x := Sender(c, true, []);
    assert [x] + [] == [x];
    OfCons(x, [], c);
    OfCons(x, [], d);
    hide Of;
    if id in s.subs {
      OfConcat(s.subs[id], [x], c);
      OfConcat(s.subs[id], [x], d);
    } else {
      assert [] + [x] == [x];
    }
  }

  /** A receiver that is dropped closes its channel and no other, and leaves what waits in it. */
  lemma HangUpClosesOneChannel(s: Store, id: string, c: nat, d: nat, x: Sender)
    requires id in s.subs && Of(s.subs[id], d) == [x]
    ensures var subs := After(s, OpHangUp(id, c)).subs;
      && id in subs && Of(subs[id], d) == [Sender(d, x.open && c != d, x.queue)]
      && forall k :: k != id ==> (k in subs <==> k in s.subs) && (k in subs ==> subs[k] == s.subs[k])
  {
    SenderIsOf(s.subs[id], d, x);
    OfChanged(s.subs[id], HungUp(s.subs, id, c)[id], d, x, x.HangUp(c));
  }

  /** Pruning keeps the open channels, takes out the closed ones, and the entry with the last. */
  lemma PruningKeepsTheOpen(s: Store, id: string, c: nat, x: Sender)
    requires id in s.subs && Of(s.subs[id], c) == [x]
    ensures var subs := After(s, OpPrune(id)).subs;
      && (x.open ==> id in subs && Of(subs[id], c) == [x])
      && (!x.open && id in subs ==> Of(subs[id], c) == [])
      && (id in subs <==> exists y :: y in s.subs[id] && y.open)
      && forall k :: k != id ==> (k in subs <==> k in s.subs) && (k in subs ==> subs[k] == s.subs[k])
  {
    hide OpenOnly, Of;
    OfPruned(s.subs[id], c);
    OpenOnesStay(s.subs[id]);
    SenderIsOf(s.subs[id], c, x);
  }

  lemma PruneKeepsWaiting(subs: Subscriptions, about: string, id: string, c: nat, queue: seq<TaskEvent>)
    requires Waiting(subs, id, c, queue)
    ensures Waiting(Pruned(subs, about), id, c, queue)
  {
    if about == id {
      OfOpenOnly(subs[id], c);
      assert Of(OpenOnly(subs[id]), c) != [];
    }
  }

  // ---- One offer, one step ----

  /** Offers one after the other; a full queue drops them. */
  function Offered(queue: seq<TaskEvent>, events: seq<TaskEvent>): seq<TaskEvent>
    decreases |events|
  {
    if events == [] then queue else Offered(if |queue| < CAPACITY then queue + [events[0]] else queue, events[1..])
  }

  lemma NoticeIsOffered(subs: Subscriptions, about: string, e: TaskEvent, id: string, c: nat, queue: seq<TaskEvent>)
    requires Waiting(subs, id, c, queue)
    ensures Waiting(Notified(subs, about, e), id, c, Offered(queue, if about == id then [e] else []))
  {
    hide Pruned, Offered;
    var queue' := Offered(queue, if about == id then [e] else []);
    OneOffer(queue, e);
    NoOffer(queue);
    if about == id {
      var x := Sender(c, true, queue);
      OfChanged(subs[id], OfferAll(subs[id], e), c, x, x.Offer(e));
      assert x.Offer(e) == Sender(c, true, queue');
      PruneKeepsWaiting(subs[id := OfferAll(subs[id], e)], id, id, c, queue');
    } else if about in subs {
      PruneKeepsWaiting(subs[about := OfferAll(subs[about], e)], about, id, c, queue);
    }
  }

  /** Nobody registers channel `c` a second time, and its receiver is not dropped. */
  predicate Leaves(op: Op, id: string, c: nat)
  {
    match op
    case OpSubscribe(_, channel) => channel != c
    case OpCreateKeyed(_, _, ThroughTrait(channel)) => channel != c
    case OpHangUp(_, channel) => channel != c
    case _ => true
  }

  function QueueStep(s: Store, op: Op, id: string, c: nat, queue: seq<TaskEvent>): seq<TaskEvent>
  {
    if op == OpReceive(id, c) then (if queue == [] then [] else queue[1..]) else Offered(queue, EventsOf(s, op, id))
  }

  function TakenBy(op: Op, id: string, c: nat, queue: seq<TaskEvent>): seq<TaskEvent>
  {
    if op == OpReceive(id, c) && queue != [] then [queue[0]] else []
  }

  lemma RegistrationKeepsWaiting(
      subs: Subscriptions, about: string, sender: Sender, id: string, c: nat, queue: seq<TaskEvent>)
    requires Waiting(subs, id, c, queue) && sender.channel != c
    ensures Waiting(Registered(subs, about, sender), id, c, queue)
  {
    if about == id { OfConcat(subs[id], [sender], c); }
  }

  lemma ReceiverKeepsWaiting(
      subs: Subscriptions, about: string, channel: nat, id: string, c: nat, queue: seq<TaskEvent>)
    requires Waiting(subs, id, c, queue)
    ensures Waiting(Taken(subs, about, channel), id, c,
                    if about == id && channel == c && queue != [] then queue[1..] else queue)
    ensures channel != c ==> Waiting(HungUp(subs, about, channel), id, c, queue)
  {
    if about == id {
      var x := Sender(c, true, queue);
      OfChanged(subs[id], Taken(subs, id, channel)[id], c, x, x.Take(channel));
      if channel != c { OfChanged(subs[id], HungUp(subs, id, channel)[id], c, x, x); }
    }
  }

  lemma TwoOffers(queue: seq<TaskEvent>, e: TaskEvent, f: TaskEvent)
    ensures Offered(Offered(queue, [e]), [f]) == Offered(queue, [e, f])
    ensures Offered(queue, []) == queue
  {
    assert [e][1..] == [] && [f][1..] == [] && [e, f][1..] == [f];
  }

  lemma StepDelivers(s: Store, op: Op, id: string, c: nat, queue: seq<TaskEvent>)
    requires Waiting(s.subs, id, c, queue) && Leaves(op, id, c)
    ensures Waiting(After(s, op).subs, id, c, QueueStep(s, op, id, c, queue))
  {
    hide Waiting, Notified, Pruned, Registered, Taken, HungUp, Offered;
    match op
    case OpSetStatus(x, status) =>
      NoticeIsOffered(s.subs, x, StatusChanged(x, status), id, c, queue);
      TwoOffers(queue, StatusChanged(x, status), StatusChanged(x, status));
    case OpAddArtifact(x, a) =>
      NoticeIsOffered(s.subs, x, ArtifactAdded(x, a), id, c, queue);
      TwoOffers(queue, ArtifactAdded(x, a), ArtifactAdded(x, a));
    case OpComplete(x, result, done) =>
      var e1, e2 := ArtifactAdded(x, result), StatusChanged(x, done);
      var mid := Offered(queue, if x == id then [e1] else []);
      NoticeIsOffered(s.subs, x, e1, id, c, queue);
      NoticeIsOffered(Notified(s.subs, x, e1), x, e2, id, c, mid);
      TwoOffers(queue, e1, e2);
    case OpSubscribe(x, channel) =>
      RegistrationKeepsWaiting(s.subs, x, Sender(channel, true, []), id, c, queue);
      NoOffer(queue);
    case OpCreateKeyed(key, n, form) =>
      var r := CreateKeyed(s, key, n).1;
      if form.ThroughTrait? { RegistrationKeepsWaiting(s.subs, r.task.id, Sender(form.channel, false, []), id, c, queue); }
      NoOffer(queue);
    case OpPrune(x) =>
      PruneKeepsWaiting(s.subs, x, id, c, queue);
      NoOffer(queue);
    case OpReceive(x, channel) =>
      ReceiverKeepsWaiting(s.subs, x, channel, id, c, queue);
      NoOffer(queue);
    case OpHangUp(x, channel) =>
      ReceiverKeepsWaiting(s.subs, x, channel, id, c, queue);
      NoOffer(queue);
    case _ => NoOffer(queue);
  }

  lemma OneOffer(queue: seq<TaskEvent>, e: TaskEvent)
    ensures Offered(queue, [e]) == if |queue| < CAPACITY then queue + [e] else queue
  {
    assert [e][1..] == [];
  }

  lemma NoOffer(queue: seq<TaskEvent>)
    ensures Offered(queue, []) == queue
  {
  }

  // ---- Whole runs ----

  function QueueAfter(s: Store, ops: seq<Op>, id: string, c: nat, queue: seq<TaskEvent>): seq<TaskEvent>
    decreases |ops|
  {
    if ops == [] then queue else QueueAfter(After(s, ops[0]), ops[1..], id, c, QueueStep(s, ops[0], id, c, queue))
  }

  /** What the receiver takes out during a run, in order. */
  function Received(s: Store, ops: seq<Op>, id: string, c: nat, queue: seq<TaskEvent>): seq<TaskEvent>
    decreases |ops|
  {
    if ops == [] then []
    else
      var next := QueueStep(s, ops[0], id, c, queue);
      TakenBy(ops[0], id, c, queue) + Received(After(s, ops[0]), ops[1..], id, c, next)
  }

  /** The events of one step all find room in the queue. */
  predicate HasRoom(s: Store, op: Op, id: string, queue: seq<TaskEvent>)
  {
    |queue| + |EventsOf(s, op, id)| <= CAPACITY
  }

  /** No offer of the run meets a full queue. */
  predicate NeverFull(s: Store, ops: seq<Op>, id: string, c: nat, queue: seq<TaskEvent>)
    decreases |ops|
  {
    ops == [] ||
    (HasRoom(s, ops[0], id, queue) && NeverFull(After(s, ops[0]), ops[1..], id, c, QueueStep(s, ops[0], id, c, queue)))
  }

  lemma {:induction false} OffersKeepOrder(queue: seq<TaskEvent>, events: seq<TaskEvent>)
    requires |queue| <= CAPACITY
    ensures queue <= Offered(queue, events) && |Offered(queue, events)| <= CAPACITY
    ensures |Offered(queue, events)| <= |queue| + |events|
    ensures Offered(queue, events) == queue + events <==> |queue| + |events| <= CAPACITY
    decreases |events|
  {
    if events != [] {
      var next := if |queue| < CAPACITY then queue + [events[0]] else queue;
      OffersKeepOrder(next, events[1..]);
      if |queue| < CAPACITY { assert next + events[1..] == queue + events; }
    }
  }

  lemma StepConserves(s: Store, op: Op, id: string, c: nat, queue: seq<TaskEvent>)
    requires |queue| <= CAPACITY
    ensures var taken, next, es := TakenBy(op, id, c, queue), QueueStep(s, op, id, c, queue), EventsOf(s, op, id);
      && |next| <= CAPACITY && queue <= taken + next
      && |taken| + |next| <= |queue| + |es|
      && (taken + next == queue + es <==> HasRoom(s, op, id, queue))
  {
    hide Offered;
    OffersKeepOrder(queue, EventsOf(s, op, id));
    if op == OpReceive(id, c) && queue != [] { assert [queue[0]] + queue[1..] == queue; }
  }

  /**
   * Delivery, over every run: the channel holds what its queue should, nothing overtakes anything in it, and what was
   * received and what still waits is what waited before and what was published, in order, exactly when no offer of
   * the run met a full queue.
   */
  lemma {:induction false} DeliveryIsCompleteIff(s: Store, ops: seq<Op>, id: string, c: nat, queue: seq<TaskEvent>)
    requires Waiting(s.subs, id, c, queue) && |queue| <= CAPACITY
    requires forall i :: 0 <= i < |ops| ==> Leaves(ops[i], id, c)
    ensures var got, left := Received(s, ops, id, c, queue), QueueAfter(s, ops, id, c, queue);
      && Waiting(Run(s, ops).subs, id, c, left) && |left| <= CAPACITY && queue <= got + left
      && |got| + |left| <= |queue| + |Published(s, ops, id)|
      && (got + left == queue + Published(s, ops, id) <==> NeverFull(s, ops, id, c, queue))
    decreases |ops|
  {
    hide Waiting, After, EventsOf, QueueStep, TakenBy, HasRoom, Leaves;
    if ops == [] {
      assert [] + queue == queue + [];
    } else {
      var op, rest, s', next := ops[0], ops[1..], After(s, ops[0]), QueueStep(s, ops[0], id, c, queue);
      var taken, es := TakenBy(op, id, c, queue), EventsOf(s, op, id);
      var got, left, later := Received(s', rest, id, c, next), QueueAfter(s', rest, id, c, next), Published(s', rest, id);
      StepDelivers(s, op, id, c, queue);
      StepConserves(s, op, id, c, queue);
      DeliveryIsCompleteIff(s', rest, id, c, next);
      Conserved(queue, es, taken, next, later, got, left);
    }
  }

  /** Two balances, one after the other. */
  lemma Conserved<T>(queue: seq<T>, es: seq<T>, taken: seq<T>, next: seq<T>, later: seq<T>, got: seq<T>, left: seq<T>)
    requires queue <= taken + next && next <= got + left
    requires |taken| + |next| <= |queue| + |es| && |got| + |left| <= |next| + |later|
    ensures queue <= (taken + got) + left
    ensures (taken + got) + left == queue + (es + later) <==> taken + next == queue + es && got + left == next + later
  {
    Regroup(taken, got, left);
    assert taken + next <= taken + (got + left);
    if taken + next == queue + es && got + left == next + later {
      Regroup(taken, next, later);
      Regroup(queue, es, later);
    }
    if (taken + got) + left == queue + (es + later) {
      assert |taken| + |next| == |queue| + |es|;
      Regroup(queue, es, later);
      var all := taken + (got + left);
      assert taken + next == all[..|taken| + |next|];
      assert queue + es == all[..|queue| + |es|];
      assert got + left == all[|taken|..];
      assert later == all[|queue| + |es|..];
      assert next == (got + left)[..|next|];
      assert got + left == next + later;
    }
  }

  lemma {:induction false} ReceivedSplit(s: Store, a: seq<Op>, b: seq<Op>, id: string, c: nat, queue: seq<TaskEvent>)
    ensures QueueAfter(s, a + b, id, c, queue) == QueueAfter(Run(s, a), b, id, c, QueueAfter(s, a, id, c, queue))
    ensures Received(s, a + b, id, c, queue) ==
      Received(s, a, id, c, queue) + Received(Run(s, a), b, id, c, QueueAfter(s, a, id, c, queue))
    decreases |a|
  {
    hide After, QueueStep, TakenBy;
    if a == [] {
      assert a + b == b;
      assert [] + Received(s, b, id, c, queue) == Received(s, b, id, c, queue);
    } else {
      var s', next := After(s, a[0]), QueueStep(s, a[0], id, c, queue);
      assert (a + b)[0] == a[0] && (a + b)[1..] == a[1..] + b;
      ReceivedSplit(s', a[1..], b, id, c, next);
      Regroup(TakenBy(a[0], id, c, queue), Received(s', a[1..], id, c, next),
              Received(Run(s', a[1..]), b, id, c, QueueAfter(s', a[1..], id, c, next)));
    }
  }

  /**
   * When the channel was never full up to some moment and its receiver has taken as many events by now as were
   * published by then, it has taken exactly those, before any other.
   */
  lemma ReceivedByNow(s: Store, ops: seq<Op>, later: seq<Op>, id: string, c: nat)
    requires Waiting(s.subs, id, c, []) && forall i :: 0 <= i < |ops + later| ==> Leaves((ops + later)[i], id, c)
    requires NeverFull(s, ops, id, c, []) && |Received(s, ops + later, id, c, [])| >= |Published(s, ops, id)|
    ensures Published(s, ops, id) <= Received(s, ops + later, id, c, [])
  {
    hide Waiting, NeverFull, Received, QueueAfter, Published, Leaves, Run;
    assert forall i :: 0 <= i < |ops| ==> ops[i] == (ops + later)[i];
    assert forall i :: 0 <= i < |later| ==> later[i] == (ops + later)[|ops| + i];
    var mid := QueueAfter(s, ops, id, c, []);
    DeliveryIsCompleteIff(s, ops, id, c, []);
    DeliveryIsCompleteIff(Run(s, ops), later, id, c, mid);
    ReceivedSplit(s, ops, later, id, c, []);
    var got, more := Received(s, ops, id, c, []), Received(Run(s, ops), later, id, c, mid);
    var left := QueueAfter(Run(s, ops), later, id, c, mid);
    assert got + mid == Published(s, ops, id);
    Regroup(got, more, left);
    assert got + mid <= (got + more) + left;
  }

  // ---- The event that ends the stream ----

  predicate IsEnd(e: TaskEvent) { e.StatusChanged? && IsTerminal(e.status.state) }

  predicate EndsIn(events: seq<TaskEvent>) { exists i :: 0 <= i < |events| && IsEnd(events[i]) }

  lemma EndIsLast(queue: seq<TaskEvent>, e: TaskEvent)
    requires !EndsIn(queue)
    ensures EndsIn(Offered(queue, [e])) <==> |queue| < CAPACITY && IsEnd(e)
  {
    OneOffer(queue, e);
    var longer := queue + [e];
    assert longer[|queue|] == e;
    assert forall i :: 0 <= i < |queue| ==> longer[i] == queue[i];
  }

  /** What the step that ends a task publishes: the end, behind the result if there is one. */
  lemma EndingStep(s: Store, op: Op, id: string)
    requires id in s.tasks && !IsTerminal(s.tasks[id].State()) && Fresh(s, op)
    requires id in After(s, op).tasks && IsTerminal(After(s, op).tasks[id].State())
    ensures var es := EventsOf(s, op, id);
      && (|es| == 1 || (|es| == 2 && !IsEnd(es[0]))) && IsEnd(es[|es| - 1])
    ensures !op.OpReceive?
  {
    hide Notified, Registered, Pruned, Taken, HungUp;
  }

  /**
   * Of the step that ends the task, the end gets into the channel exactly when there is room for all the step
   * publishes: with one free slot a completion leaves its result there and loses the end.
   */
  lemma EndIsQueuedIff(s: Store, op: Op, id: string, c: nat, queue: seq<TaskEvent>)
    requires |queue| <= CAPACITY && !EndsIn(queue)
    requires id in s.tasks && !IsTerminal(s.tasks[id].State()) && Fresh(s, op)
    requires id in After(s, op).tasks && IsTerminal(After(s, op).tasks[id].State())
    ensures EndsIn(QueueStep(s, op, id, c, queue)) <==> HasRoom(s, op, id, queue)
  {
    EndingStep(s, op, id);
    hide Offered, EventsOf, After, Fresh, IsEnd, EndsIn;
    var es := EventsOf(s, op, id);
    EndIsLast(queue, es[0]);
    OneOffer(queue, es[0]);
    if |es| == 2 {
      assert es == [es[0], es[1]];
      TwoOffers(queue, es[0], es[1]);
      EndIsLast(Offered(queue, [es[0]]), es[1]);
    } else {
      assert es == [es[0]];
    }
  }

  /** The input that loses everything: with a full channel a completion changes no subscriber at all. */
  lemma FullChannelLosesTheEnd(s: Store, id: string, c: nat, queue: seq<TaskEvent>, result: Artifact, done: TaskStatus)
    requires id in s.tasks && s.tasks[id].State() == Working && done.state == Completed
    requires s.subs == map[id := [Sender(c, true, queue)]] && |queue| == CAPACITY
    ensures var s' := After(s, OpComplete(id, result, done));
      s'.subs == s.subs && s'.tasks[id].State() == Completed
  {
    var x := Sender(c, true, queue);
    assert OfferAll([x], ArtifactAdded(id, result)) == [x] && OfferAll([x], StatusChanged(id, done)) == [x];
    assert OpenOnly([x]) == [x] by { assert [x][1..] == []; }
    assert s.subs[id := [x]] == s.subs;
    assert AnyRefuses([x]) by { assert [x][0].Refuses(); }
    assert Notified(s.subs, id, ArtifactAdded(id, result)) == s.subs;
    assert Notified(s.subs, id, StatusChanged(id, done)) == s.subs;
  }

  lemma EndsInSum(a: seq<TaskEvent>, b: seq<TaskEvent>)
    ensures EndsIn(a + b) <==> EndsIn(a) || EndsIn(b)
  {
    var all := a + b;
    assert forall i :: 0 <= i < |a| ==> all[i] == a[i];
    assert forall i :: 0 <= i < |b| ==> all[|a| + i] == b[i];
    assert forall i :: |a| <= i < |all| ==> all[i] == b[i - |a|];
  }

  /** After the end of a task no status change of it is published any more. */
  lemma {:induction false} NoSecondEnd(s: Store, ops: seq<Op>, id: string)
    requires FreshRun(s, ops) && id in s.tasks && IsTerminal(s.tasks[id].State())
    ensures !EndsIn(Published(s, ops, id))
    decreases |ops|
  {
    if ops != [] {
      var s' := After(s, ops[0]);
      TerminalPublishesNoEnd(s, ops[0], id);
      hide After, EventsOf, Fresh, EndsIn;
      NoSecondEnd(s', ops[1..], id);
      EndsInSum(EventsOf(s, ops[0], id), Published(s', ops[1..], id));
    }
  }

  lemma TerminalPublishesNoEnd(s: Store, op: Op, id: string)
    requires Fresh(s, op) && id in s.tasks && IsTerminal(s.tasks[id].State())
    ensures !EndsIn(EventsOf(s, op, id))
    ensures id in After(s, op).tasks && IsTerminal(After(s, op).tasks[id].State())
  {
    hide Notified, Registered, Pruned, Taken, HungUp;
  }

  lemma {:induction false} OffersBringNoEnd(queue: seq<TaskEvent>, events: seq<TaskEvent>)
    requires !EndsIn(queue) && !EndsIn(events)
    ensures !EndsIn(Offered(queue, events))
    decreases |events|
  {
    if events != [] {
      EndsInSum(queue, [events[0]]);
      EndsInSum([events[0]], events[1..]);
      assert events == [events[0]] + events[1..];
      OffersBringNoEnd(if |queue| < CAPACITY then queue + [events[0]] else queue, events[1..]);
    }
  }

  /** Nothing is received that was neither waiting nor published. */
  lemma {:induction false} NoEndReceived(s: Store, ops: seq<Op>, id: string, c: nat, queue: seq<TaskEvent>)
    requires !EndsIn(queue) && !EndsIn(Published(s, ops, id))
    ensures !EndsIn(Received(s, ops, id, c, queue)) && !EndsIn(QueueAfter(s, ops, id, c, queue))
    decreases |ops|
  {
    hide After, EventsOf, EndsIn, Offered;
    if ops == [] {
      assert !EndsIn([]) by { EndsInSum(queue, []); assert queue + [] == queue; }
    } else {
      var s', next, taken := After(s, ops[0]), QueueStep(s, ops[0], id, c, queue), TakenBy(ops[0], id, c, queue);
      EndsInSum(EventsOf(s, ops[0], id), Published(s', ops[1..], id));
      OffersBringNoEnd(queue, EventsOf(s, ops[0], id));
      if queue != [] {
        assert queue == [queue[0]] + queue[1..];
        EndsInSum([queue[0]], queue[1..]);
      }
      NoEndReceived(s', ops[1..], id, c, next);
      EndsInSum(taken, Received(s', ops[1..], id, c, next));
      EndsInSum(queue, []);
      assert queue + [] == queue;
    }
  }
}
