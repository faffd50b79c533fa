/** One prompt turn: draining two event channels into client updates while the turn runs, and flushing what is left. */
module Drain {
  import opened Options
  import opened Sequences
  import opened Translator
  import P = Permission

  /** What a receiver yields: an event, a report of dropped ones, or, for good, that the channel is closed. */
  datatype Item = Event(e: SystemEvent) | Lagged(dropped: nat) | Closed

  /** What happened elsewhere before one poll of the drain: published events, and waiters coming and going. */
  datatype Poll = Poll(ui: seq<Item>, compaction: seq<Item>, others: seq<P.Op>)

  /** The client's answer to a prompt, and whether the transport takes the update of a given attempt. */
  datatype Client = Client(answer: (string, string) -> P.Outcome, takes: nat -> bool)

  datatype Handled = Handled(fromUi: bool, e: SystemEvent)

  /** The drain's state; `handled` and `ops` record what it has taken off the channels and done to the bridge. */
  datatype Turn = Turn(tr: Tr, bridge: P.Bridge, sent: seq<Update>, tries: nat, draining: bool, ui: seq<Item>,
                       compaction: Option<seq<Item>>, requested: bool, handled: seq<Handled>, ops: seq<P.Op>)

  // ---- One round of the loop ----

  function Buffered(c: Option<seq<Item>>): seq<Item> { if c.Some? then c.value else [] }

  function Arrive(d: Turn, p: Poll): Turn
  {
    d.(ui := d.ui + p.ui, compaction := if d.compaction.Some? then Some(d.compaction.value + p.compaction) else None,
       bridge := P.After(d.bridge, p.others), ops := d.ops + p.others)
  }

  function SendEvent(c: Client, d: Turn, e: SystemEvent): (Turn, bool)
  {
    var (tr, u) := Translated(d.tr, e);
    if u.None? then (d.(tr := tr), true)
    else if c.takes(d.tries) then (d.(tr := tr, sent := d.sent + [u.value], tries := d.tries + 1), true)
    else (d.(tr := tr, tries := d.tries + 1), false)
  }

  function HandleEvent(c: Client, d: Turn, e: SystemEvent): (Turn, bool)
  {
    if e.PermissionRequested? then
      var op := P.Handles(e.requestId, e.toolKey, c.answer(e.requestId, e.toolKey));
      (d.(bridge := P.Apply(d.bridge, op), ops := d.ops + [op]), true)
    else SendEvent(c, d, e)
  }

  function TookUi(d: Turn, e: SystemEvent): Turn
    requires d.ui != []
  {
    d.(ui := d.ui[1..], handled := d.handled + [Handled(true, e)])
  }

  function TookCompaction(d: Turn, rest: seq<Item>, e: SystemEvent): Turn
  {
    d.(compaction := Some(rest), handled := d.handled + [Handled(false, e)], requested := d.requested || e.CompactionRequested?)
  }

  function ServeUi(c: Client, d: Turn): Turn
    requires d.ui != []
  {
    match d.ui[0]
    case Event(e) => var (d', ok) := HandleEvent(c, TookUi(d, e), e); if ok then d' else d'.(draining := false)
    case Lagged(_) => d.(ui := d.ui[1..])
    case Closed => d.(draining := false)
  }

  function SkipLags(items: seq<Item>): seq<Item>
  {
    if items != [] && items[0].Lagged? then SkipLags(items[1..]) else items
  }

  function ServeCompaction(c: Client, d: Turn): Turn
    requires d.compaction.Some?
  {
    var items := SkipLags(d.compaction.value);
    if items == [] then d.(compaction := Some([]))
    else match items[0]
      case Event(e) =>
        var took := TookCompaction(d, items[1..], e);
        if e.CompactionRequested? then took
        else var (d', ok) := HandleEvent(c, took, e); if ok then d' else d'.(draining := false)
      case _ => d.(compaction := None)
  }

  /** The select, biased to the ui channel, in a round in which the turn is not done. */
  function Round(c: Client, d: Turn, p: Poll): Turn
  {
    var d1 := Arrive(d, p);
    if d1.draining && d1.ui != [] then ServeUi(c, d1)
    else if d1.draining && Buffered(d1.compaction) != [] then ServeCompaction(c, d1)
    else d1
  }

  function Loop(c: Client, d: Turn, polls: seq<Poll>): Turn
  {
    if polls == [] then d else Round(c, Loop(c, d, polls[..|polls| - 1]), polls[|polls| - 1])
  }

  // ---- The flush ----

  function FlushUi(c: Client, d: Turn): Turn
    decreases |d.ui|
  {
    if d.ui == [] || d.ui[0].Closed? then d
    else if d.ui[0].Lagged? then FlushUi(c, d.(ui := d.ui[1..]))
    else FlushUi(c, SendEvent(c, TookUi(d, d.ui[0].e), d.ui[0].e).0)
  }

  function FlushCompaction(c: Client, d: Turn): Turn
    decreases |Buffered(d.compaction)|
  {
    if d.compaction.None? || d.compaction.value == [] || d.compaction.value[0].Closed? then d
    else
      var items := d.compaction.value;
      if items[0].Lagged? then FlushCompaction(c, d.(compaction := Some(items[1..])))
      else
        var took := TookCompaction(d, items[1..], items[0].e);
        FlushCompaction(c, if items[0].e.CompactionRequested? then took else SendEvent(c, took, items[0].e).0)
  }

  function Flush(c: Client, d: Turn): Turn { if d.draining then FlushCompaction(c, FlushUi(c, d)) else d }

  function EndTurn(d: Turn, order: seq<string>): Turn
  {
    d.(bridge := P.DenyEach(d.bridge, order), ops := d.ops + [P.DeniesAll(order)])
  }

  /** Rounds until the turn is done, what has arrived by then, and the flush. */
  function Flushed(c: Client, d: Turn, polls: seq<Poll>, last: Poll): Turn
  {
    Flush(c, Arrive(Loop(c, d, polls), last))
  }

  /** The whole turn: rounds until it is done, what has arrived by then, the flush, and the final deny. */
  function Drained(c: Client, d: Turn, polls: seq<Poll>, last: Poll, order: seq<string>): Turn
  {
    EndTurn(Flushed(c, d, polls, last), order)
  }

  // ---- The loop itself ----

  class UpdateSink {
    var sent: seq<Update>
    var tries: nat

    method SendUpdate(c: Client, u: Update) returns (ok: bool)
      modifies this
      ensures tries == old(tries) + 1 && ok == c.takes(old(tries))
      ensures sent == old(sent) + if ok then [u] else []
    {
      ok := c.takes(tries);
      if ok { sent := sent + [u]; }
      tries := tries + 1;
    }
  }

  /** The part of the drain's state that lives in the three objects. */
  ghost predicate Shows(d: Turn, sink: UpdateSink, translator: EventTranslator, bridge: P.AcpPermissionBridge)
    reads sink, translator, bridge
  {
    d.tr == translator.Value() && d.bridge == bridge.Value() && d.sent == sink.sent && d.tries == sink.tries
  }

  method Send(
      c: Client, sink: UpdateSink, translator: EventTranslator, bridge: P.AcpPermissionBridge, ghost d: Turn,
      e: SystemEvent)
    returns (ok: bool)
    requires Shows(d, sink, translator, bridge)
    modifies sink, translator
    ensures Shows(SendEvent(c, d, e).0, sink, translator, bridge) && ok == SendEvent(c, d, e).1
  {
    var update := translator.Translate(e);
    ok := true;
    if update.Some? { ok := sink.SendUpdate(c, update.value); }
  }

  method HandleOne(
      c: Client, sink: UpdateSink, translator: EventTranslator, bridge: P.AcpPermissionBridge, ghost d: Turn,
      e: SystemEvent)
    returns (ok: bool)
    requires Shows(d, sink, translator, bridge)
    modifies sink, translator, bridge
    ensures Shows(HandleEvent(c, d, e).0, sink, translator, bridge) && ok == HandleEvent(c, d, e).1
    ensures e.PermissionRequested? ==> ok && sink.tries == old(sink.tries) && sink.sent == old(sink.sent)
    ensures e.PermissionRequested? ==>
      bridge.Value() == P.Handle(old(bridge.Value()), e.requestId, e.toolKey, c.answer(e.requestId, e.toolKey))
    ensures !e.PermissionRequested? ==> bridge.Value() == old(bridge.Value())
  {
    if e.PermissionRequested? {
      var decision := bridge.HandlePermissionRequest(e.requestId, e.toolKey, c.answer(e.requestId, e.toolKey));
      return true;
    }
    ok := Send(c, sink, translator, bridge, d, e);
  }

  method FlushReceiver(
      c: Client, sink: UpdateSink, translator: EventTranslator, bridge: P.AcpPermissionBridge, ghost d: Turn,
      rx: seq<Item>)
    returns (rest: seq<Item>)
    requires Shows(d, sink, translator, bridge) && d.ui == rx
    modifies sink, translator
    ensures Shows(FlushUi(c, d), sink, translator, bridge) && FlushUi(c, d).ui == rest
  {
    hide SendEvent;
    rest := rx;
    ghost var now := d;
    while rest != [] && !rest[0].Closed?
      invariant Shows(now, sink, translator, bridge) && now.ui == rest
      invariant FlushUi(c, now) == FlushUi(c, d)
      decreases |rest|
    {
      var item := rest[0];
      ghost var was := now;
      rest := rest[1..];
      if item.Event? {
        now := SendEvent(c, TookUi(was, item.e), item.e).0;
        SendKeepsQueues(c, TookUi(was, item.e), item.e);
        var ok := Send(c, sink, translator, bridge, TookUi(was, item.e), item.e);
      } else {
        now := was.(ui := rest);
      }
    }
  }

  lemma SendKeepsQueues(c: Client, d: Turn, e: SystemEvent)
    ensures var d' := SendEvent(c, d, e).0;
      d' == d.(tr := d'.tr, sent := d'.sent, tries := d'.tries)
  {
  }

  method FlushCompactionReceiver(
      c: Client, sink: UpdateSink, translator: EventTranslator, bridge: P.AcpPermissionBridge, ghost d: Turn,
      rx: Option<seq<Item>>)
    returns (rest: Option<seq<Item>>, requested: bool)
    requires Shows(d, sink, translator, bridge) && d.compaction == rx
    modifies sink, translator
    ensures Shows(FlushCompaction(c, d), sink, translator, bridge)
    ensures FlushCompaction(c, d).compaction == rest && FlushCompaction(c, d).requested == (d.requested || requested)
  {
    hide SendEvent;
    rest, requested := rx, false;
    ghost var now := d;
    while rest.Some? && rest.value != [] && !rest.value[0].Closed?
      invariant Shows(now, sink, translator, bridge) && now.compaction == rest && now.requested == (d.requested || requested)
      invariant FlushCompaction(c, now) == FlushCompaction(c, d)
      decreases |Buffered(rest)|
    {
      var item := rest.value[0];
      ghost var was := now;
      rest := Some(rest.value[1..]);
      if item.Event? {
        now := TookCompaction(was, rest.value, item.e);
        if item.e.CompactionRequested? {
          requested := true;
        } else {
          SendKeepsQueues(c, now, item.e);
          ghost var took := now;
          now := SendEvent(c, took, item.e).0;
          var ok := Send(c, sink, translator, bridge, took, item.e);
        }
      } else {
        now := was.(compaction := rest);
      }
    }
  }

  method RecvCompaction(rx: seq<Item>) returns (rest: seq<Item>)
    ensures rest == SkipLags(rx)
  {
    rest := rx;
    while rest != [] && rest[0].Lagged?
      invariant SkipLags(rest) == SkipLags(rx)
    {
      rest := rest[1..];
    }
  }

  predicate OnlyWaiters(
      p: Poll) { forall i :: 0 <= i < |p.others| ==> p.others[i].Registers? || p.others[i].Withdraws? }

  /** Serves one event of the ui receiver; `draining` becomes false when it or the transport is gone. */
  method ReceiveUi(
      c: Client, sink: UpdateSink, translator: EventTranslator, bridge: P.AcpPermissionBridge, ghost d: Turn,
      rx: seq<Item>)
    returns (rest: seq<Item>, draining: bool)
    requires Shows(d, sink, translator, bridge) && d.ui == rx != [] && d.draining
    modifies sink, translator, bridge
    ensures Shows(ServeUi(c, d), sink, translator, bridge)
    ensures ServeUi(c, d) == ServeUi(c, d).(ui := rest, draining := draining, compaction := d.compaction, requested := d.requested)
  {
    hide HandleEvent;
    rest, draining := rx, true;
    match rx[0]
    case Event(e) =>
      rest := rx[1..];
      HandleKeepsQueues(c, TookUi(d, e), e);
      draining := HandleOne(c, sink, translator, bridge, TookUi(d, e), e);
    case Lagged(_) => rest := rx[1..];
    case Closed => draining := false;
  }

  lemma HandleKeepsQueues(c: Client, d: Turn, e: SystemEvent)
    ensures var d' := HandleEvent(c, d, e).0;
      d' == d.(tr := d'.tr, sent := d'.sent, tries := d'.tries, bridge := d'.bridge, ops := d'.ops)
  {
    hide SendEvent;
    SendKeepsQueues(c, d, e);
  }

  /** Serves one event of the compaction receiver, which is dropped when it is closed. */
  method ReceiveCompaction(
      c: Client, sink: UpdateSink, translator: EventTranslator, bridge: P.AcpPermissionBridge, ghost d: Turn,
      rx: seq<Item>)
    returns (rest: Option<seq<Item>>, draining: bool, requested: bool)
    requires Shows(d, sink, translator, bridge) && d.compaction == Some(rx) && d.draining
    modifies sink, translator, bridge
    ensures Shows(ServeCompaction(c, d), sink, translator, bridge)
    ensures ServeCompaction(c, d) ==
      ServeCompaction(c, d).(ui := d.ui, draining := draining, compaction := rest, requested := d.requested || requested)
  {
    hide HandleEvent, SkipLags;
    var items := RecvCompaction(rx);
    rest, draining, requested := Some(items), true, false;
    if items != [] {
      match items[0]
      case Event(e) =>
        rest := Some(items[1..]);
        if e.CompactionRequested? {
          requested := true;
        } else {
          ghost var took := TookCompaction(d, items[1..], e);
          HandleKeepsQueues(c, took, e);
          draining := HandleOne(c, sink, translator, bridge, took, e);
        }
      case Closed => rest := None;
      case Lagged(_) => SkipLagsEnds(rx); assert false;
    }
  }

  lemma {:induction false} SkipLagsEnds(items: seq<Item>)
    ensures SkipLags(items) != [] ==> !SkipLags(items)[0].Lagged?
  {
    if items != [] && items[0].Lagged? { SkipLagsEnds(items[1..]); }
  }

  lemma LoopStep(c: Client, d: Turn, polls: seq<Poll>, i: nat)
    requires i < |polls|
    ensures Loop(c, d, polls[..i + 1]) == Round(c, Loop(c, d, polls[..i]), polls[i])
  {
    assert polls[..i + 1][..i] == polls[..i];
  }

  method RunTurnWithNotifications(c: Client, uiRx: seq<Item>, compactionRx: Option<seq<Item>>, sink: UpdateSink,
                                  translator: EventTranslator, bridge: P.AcpPermissionBridge, polls: seq<Poll>, last: Poll)
    returns (requested: bool, uiRest: seq<Item>, compactionRest: Option<seq<Item>>,
             ghost order: seq<string>, ghost start: Turn, ghost end: Turn)
    requires OnlyWaiters(last) && forall i :: 0 <= i < |polls| ==> OnlyWaiters(polls[i])
    modifies sink, translator, bridge
    ensures start == Begin(old(translator.Value()), old(bridge.Value()), old(sink.sent), old(sink.tries), uiRx, compactionRx)
    ensures end == Drained(c, start, polls, last, order)
    ensures Shows(end, sink, translator, bridge)
    ensures end.requested == requested && end.ui == uiRest && end.compaction == compactionRest
    ensures P.Enumerates(order, Flushed(c, start, polls, last).bridge.pending.Keys)
  {
    hide ServeUi, ServeCompaction, FlushUi, FlushCompaction, P.DenyEach;
    requested, uiRest, compactionRest := false, uiRx, compactionRx;
    var draining := true;
    start := Begin(translator.Value(), bridge.Value(), sink.sent, sink.tries, uiRx, compactionRx);
    ghost var d := start;
    for i := 0 to |polls|
      invariant d == Loop(c, start, polls[..i])
      invariant Shows(d, sink, translator, bridge)
      invariant d.draining == draining && d.requested == requested && d.ui == uiRest && d.compaction == compactionRest
    {
      LoopStep(c, start, polls, i);
      d := Arrive(d, polls[i]);
      bridge.Elsewhere(polls[i].others);
      uiRest := uiRest + polls[i].ui;
      if compactionRest.Some? { compactionRest := Some(compactionRest.value + polls[i].compaction); }
      if draining && uiRest != [] {
        ghost var was := d;
        d := ServeUi(c, was);
        uiRest, draining := ReceiveUi(c, sink, translator, bridge, was, uiRest);
      } else if draining && compactionRest.Some? && compactionRest.value != [] {
        ghost var was := d;
        d := ServeCompaction(c, was);
        var found;
        compactionRest, draining, found := ReceiveCompaction(c, sink, translator, bridge, was, compactionRest.value);
        requested := requested || found;
      }
    }
    assert polls[..|polls|] == polls;
    d := Arrive(d, last);
    bridge.Elsewhere(last.others);
    uiRest := uiRest + last.ui;
    if compactionRest.Some? { compactionRest := Some(compactionRest.value + last.compaction); }
    if draining {
      ghost var d1 := FlushUi(c, d);
      FlushUiKeeps(c, d);
      uiRest := FlushReceiver(c, sink, translator, bridge, d, uiRest);
      d := FlushCompaction(c, d1);
      FlushCompactionKeeps(c, d1);
      var found;
      compactionRest, found := FlushCompactionReceiver(c, sink, translator, bridge, d1, compactionRest);
      requested := requested || found;
    }
    order := bridge.DenyAllPending();
    end := EndTurn(d, order);
  }

  function Begin(
      tr: Tr, bridge: P.Bridge, sent: seq<Update>, tries: nat, ui: seq<Item>, compaction: Option<seq<Item>>): Turn
  {
    Turn(tr, bridge, sent, tries, true, ui, compaction, false, [], [])
  }

  lemma {:induction false} FlushUiKeeps(c: Client, d: Turn)
    ensures FlushUi(c, d).compaction == d.compaction && FlushUi(c, d).requested == d.requested
    ensures FlushUi(c, d).bridge == d.bridge && FlushUi(c, d).ops == d.ops && FlushUi(c, d).draining == d.draining
    decreases |d.ui|
  {
    hide SendEvent;
    if d.ui != [] && !d.ui[0].Closed? {
      if d.ui[0].Lagged? {
        FlushUiKeeps(c, d.(ui := d.ui[1..]));
      } else {
        var took := TookUi(d, d.ui[0].e);
        SendKeepsQueues(c, took, d.ui[0].e);
        FlushUiKeeps(c, SendEvent(c, took, d.ui[0].e).0);
      }
    }
  }

  lemma {:induction false} FlushCompactionKeeps(c: Client, d: Turn)
    ensures FlushCompaction(c, d).ui == d.ui && FlushCompaction(c, d).bridge == d.bridge
    ensures FlushCompaction(c, d).ops == d.ops && FlushCompaction(c, d).draining == d.draining
    decreases |Buffered(d.compaction)|
  {
    hide SendEvent;
    if d.compaction.Some? && d.compaction.value != [] && !d.compaction.value[0].Closed? {
      var items := d.compaction.value;
      if items[0].Lagged? {
        FlushCompactionKeeps(c, d.(compaction := Some(items[1..])));
      } else {
        var took := TookCompaction(d, items[1..], items[0].e);
        SendKeepsQueues(c, took, items[0].e);
        FlushCompactionKeeps(c, if items[0].e.CompactionRequested? then took else SendEvent(c, took, items[0].e).0);
      }
    }
  }

  // ---- What a turn accounts for ----

  /** The events of a receiver, up to the point where its channel closes. */
  function Events(items: seq<Item>): seq<SystemEvent>
  {
    if items == [] || items[0].Closed? then []
    else (if items[0].Event? then [items[0].e] else []) + Events(items[1..])
  }

  function Project(h: seq<Handled>, fromUi: bool): seq<SystemEvent>
  {
    if h == [] then []
    else Project(h[..|h| - 1], fromUi) + if h[|h| - 1].fromUi == fromUi then [h[|h| - 1].e] else []
  }

  function InOrder(h: seq<Handled>): seq<SystemEvent>
  {
    if h == [] then [] else InOrder(h[..|h| - 1]) + [h[|h| - 1].e]
  }

  /** The updates the transport took, when the first of them is attempt number `k`. */
  function Taken(c: Client, us: seq<Update>, k: nat): seq<Update>
  {
    if us == [] then [] else Taken(c, us[..|us| - 1], k) + if c.takes(k + |us| - 1) then [us[|us| - 1]] else []
  }

  function UiArrivals(polls: seq<Poll>): seq<Item>
  {
    if polls == [] then [] else UiArrivals(polls[..|polls| - 1]) + polls[|polls| - 1].ui
  }

  function CompactionArrivals(polls: seq<Poll>): seq<Item>
  {
    if polls == [] then [] else CompactionArrivals(polls[..|polls| - 1]) + polls[|polls| - 1].compaction
  }

  lemma {:induction false} EventsConcat(xs: seq<Item>, ys: seq<Item>)
    ensures Events(xs + ys) == Events(xs) + if Closed in xs then [] else Events(ys)
  {
    if xs == [] {
      assert xs + ys == ys;
    } else {
      var rest := xs[1..];
      assert (xs + ys)[0] == xs[0] && (xs + ys)[1..] == rest + ys;
      EventsConcat(rest, ys);
      if !xs[0].Closed? {
        Regroup(if xs[0].Event? then [xs[0].e] else [], Events(rest), if Closed in rest then [] else Events(ys));
      }
    }
  }

  lemma Snoc(h: seq<Handled>, fromUi: bool, e: SystemEvent)
    ensures Project(h + [Handled(fromUi, e)], fromUi) == Project(h, fromUi) + [e]
    ensures Project(h + [Handled(fromUi, e)], !fromUi) == Project(h, !fromUi)
    ensures InOrder(h + [Handled(fromUi, e)]) == InOrder(h) + [e]
  {
    assert (h + [Handled(fromUi, e)])[..|h|] == h;
  }

  /** What was sent is what translating the handled events, in order, gives, less what the transport refused. */
  ghost predicate LogInv(c: Client, start: Turn, d: Turn)
  {
    var all := Sent(start.tr, InOrder(d.handled));
    && d.tr == After(start.tr, InOrder(d.handled))
    && d.sent == start.sent + Taken(c, all, start.tries)
    && d.tries == start.tries + |all|
  }

  ghost predicate QueueInv(d: Turn, fromUi: bool, rx: seq<Item>, arrived: seq<Item>)
  {
    && Project(d.handled, fromUi) + Events(rx) == Events(arrived)
    && (Closed in rx <==> Closed in arrived)
  }

  ghost predicate CompactionInv(d: Turn, subscribed: bool, arrived: seq<Item>)
  {
    && (d.requested <==> CompactionRequested in Project(d.handled, false))
    && (d.compaction.Some? ==> subscribed && QueueInv(d, false, d.compaction.value, arrived))
    && (d.compaction.None? ==> Project(d.handled, false) == (if subscribed then Events(arrived) else []))
    && (d.compaction.None? && subscribed ==> Closed in arrived)
  }

  ghost predicate StopInv(c: Client, start: Turn, d: Turn, uiArrived: seq<Item>)
  {
    d.draining || Closed in uiArrived || exists k :: start.tries <= k < d.tries && !c.takes(k)
  }

  ghost predicate Inv(c: Client, start: Turn, d: Turn, ui: seq<Item>, compaction: seq<Item>)
  {
    && LogInv(c, start, d)
    && QueueInv(d, true, d.ui, ui)
    && CompactionInv(d, start.compaction.Some?, compaction)
    && StopInv(c, start, d, ui)
    && d.bridge == P.After(start.bridge, d.ops)
  }

  lemma SentStep(t: Tr, es: seq<SystemEvent>, e: SystemEvent)
    ensures After(t, es + [e]) == Translated(After(t, es), e).0
    ensures Sent(t, es + [e]) == Sent(t, es) + (if Translated(After(t, es), e).1.Some? then [Translated(After(t, es), e).1.value] else [])
  {
    assert (es + [e])[..|es|] == es;
  }

  lemma TakenStep(c: Client, us: seq<Update>, u: Update, k: nat)
    ensures Taken(c, us + [u], k) == Taken(c, us, k) + if c.takes(k + |us|) then [u] else []
  {
    assert (us + [u])[..|us|] == us;
  }

  /** `took` is `d` after an event came off one of its channels; sending it keeps the log exact. */
  lemma SendKeepsLog(c: Client, start: Turn, d: Turn, took: Turn, fromUi: bool, e: SystemEvent)
    requires LogInv(c, start, d)
    requires took.handled == d.handled + [Handled(fromUi, e)]
    requires took.tr == d.tr && took.sent == d.sent && took.tries == d.tries
    ensures LogInv(c, start, SendEvent(c, took, e).0)
    ensures start.tries <= d.tries <= SendEvent(c, took, e).0.tries
    ensures !SendEvent(c, took, e).1 ==> d.tries < SendEvent(c, took, e).0.tries && !c.takes(d.tries)
  {
    hide Translated, Sent, After, Taken, InOrder;
    Snoc(d.handled, fromUi, e);
    SentStep(start.tr, InOrder(d.handled), e);
    var all, u := Sent(start.tr, InOrder(d.handled)), Translated(d.tr, e).1;
    if u.Some? {
      TakenStep(c, all, u.value, start.tries);
    } else {
      assert all + [] == all;
    }
  }

  /** A permission request and a compaction request have no update of their own. */
  lemma UnsentKeepsLog(c: Client, start: Turn, d: Turn, took: Turn, fromUi: bool, e: SystemEvent)
    requires LogInv(c, start, d) && (e.PermissionRequested? || e.CompactionRequested?)
    requires took.handled == d.handled + [Handled(fromUi, e)]
    requires took.tr == d.tr && took.sent == d.sent && took.tries == d.tries
    ensures LogInv(c, start, took)
  {
    Snoc(d.handled, fromUi, e);
    SentStep(start.tr, InOrder(d.handled), e);
    assert Sent(start.tr, InOrder(d.handled)) + [] == Sent(start.tr, InOrder(d.handled));
  }

  lemma HandleKeepsLog(c: Client, start: Turn, d: Turn, took: Turn, fromUi: bool, e: SystemEvent)
    requires LogInv(c, start, d)
    requires took.handled == d.handled + [Handled(fromUi, e)]
    requires took.tr == d.tr && took.sent == d.sent && took.tries == d.tries
    ensures LogInv(c, start, HandleEvent(c, took, e).0)
    ensures d.tries <= HandleEvent(c, took, e).0.tries
    ensures !HandleEvent(c, took, e).1 ==> start.tries <= d.tries < HandleEvent(c, took, e).0.tries && !c.takes(d.tries)
  {
    hide Sent, After, Taken, InOrder, Translated, SendEvent;
    if e.PermissionRequested? { UnsentKeepsLog(c, start, d, took, fromUi, e); }
    else { SendKeepsLog(c, start, d, took, fromUi, e); }
  }

  lemma TakeFront(d: Turn, fromUi: bool, rx: seq<Item>, arrived: seq<Item>)
    requires QueueInv(d, fromUi, rx, arrived) && rx != [] && !rx[0].Closed?
    ensures rx[0].Event? ==>
      QueueInv(d.(handled := d.handled + [Handled(fromUi, rx[0].e)]), fromUi, rx[1..], arrived)
    ensures rx[0].Lagged? ==> QueueInv(d, fromUi, rx[1..], arrived)
  {
    assert rx == [rx[0]] + rx[1..];
    if rx[0].Event? { Snoc(d.handled, fromUi, rx[0].e); }
  }

  lemma ArrivalsKeepQueue(d: Turn, fromUi: bool, rx: seq<Item>, arrived: seq<Item>, more: seq<Item>)
    requires QueueInv(d, fromUi, rx, arrived)
    ensures QueueInv(d, fromUi, rx + more, arrived + more)
  {
    hide Events, Project;
    EventsConcat(rx, more);
    EventsConcat(arrived, more);
    Regroup(Project(d.handled, fromUi), Events(rx), if Closed in rx then [] else Events(more));
  }

  lemma ArriveKeepsInv(c: Client, start: Turn, d: Turn, p: Poll, ui: seq<Item>, compaction: seq<Item>)
    requires Inv(c, start, d, ui, compaction)
    ensures Inv(c, start, Arrive(d, p), ui + p.ui, compaction + p.compaction)
  {
    hide Project, Events, P.After;
    var d' := Arrive(d, p);
    ArrivalsKeepQueue(d, true, d.ui, ui, p.ui);
    if d.compaction.Some? {
      ArrivalsKeepQueue(d, false, d.compaction.value, compaction, p.compaction);
    } else {
      EventsConcat(compaction, p.compaction);
    }
    P.AfterConcat(start.bridge, d.ops, p.others);
  }

  lemma HandleKeepsBridge(c: Client, start: Turn, took: Turn, e: SystemEvent)
    requires took.bridge == P.After(start.bridge, took.ops)
    ensures HandleEvent(c, took, e).0.bridge == P.After(start.bridge, HandleEvent(c, took, e).0.ops)
  {
    hide SendEvent, P.Apply;
    if e.PermissionRequested? {
      var op := P.Handles(e.requestId, e.toolKey, c.answer(e.requestId, e.toolKey));
      P.AfterConcat(start.bridge, took.ops, [op]);
      assert P.After(took.bridge, [op]) == P.Apply(took.bridge, op);
    } else {
      SendKeepsQueues(c, took, e);
    }
  }

  /** An event taken off the ui receiver: `d'` is what handling it made of the rest of the state. */
  lemma TookUiKeepsInv(c: Client, start: Turn, d: Turn, d': Turn, e: SystemEvent, ui: seq<Item>, compaction: seq<Item>)
    requires Inv(c, start, d, ui, compaction) && d.ui != [] && d.ui[0] == Event(e)
    requires d' == TookUi(d, e).(
      tr := d'.tr, sent := d'.sent, tries := d'.tries, bridge := d'.bridge, ops := d'.ops, draining := d'.draining)
    requires LogInv(c, start, d') && StopInv(c, start, d', ui) && d'.bridge == P.After(start.bridge, d'.ops)
    ensures Inv(c, start, d', ui, compaction)
  {
    hide Project, Events, P.After, LogInv, StopInv;
    TakeFront(d, true, d.ui, ui);
    Snoc(d.handled, true, e);
  }

  lemma ServeUiKeepsInv(c: Client, start: Turn, d: Turn, ui: seq<Item>, compaction: seq<Item>)
    requires Inv(c, start, d, ui, compaction) && d.draining && d.ui != []
    ensures Inv(c, start, ServeUi(c, d), ui, compaction)
  {
    hide HandleEvent, P.After, Sent, After, Taken, InOrder, Project, Events;
    match d.ui[0]
    case Event(e) =>
      var took := TookUi(d, e);
      HandleKeepsLog(c, start, d, took, true, e);
      HandleKeepsQueues(c, took, e);
      HandleKeepsBridge(c, start, took, e);
      TookUiKeepsInv(c, start, d, ServeUi(c, d), e, ui, compaction);
    case Lagged(_) => TakeFront(d, true, d.ui, ui);
    case Closed =>
  }

  /** An event taken off the compaction receiver, whose reports of dropped events are already skipped. */
  lemma TookCompactionKeepsInv(
      c: Client, start: Turn, d: Turn, d': Turn, items: seq<Item>, e: SystemEvent, ui: seq<Item>,
      compaction: seq<Item>)
    requires Inv(c, start, d, ui, compaction) && d.compaction.Some? && items != [] && items[0] == Event(e)
    requires QueueInv(d, false, items, compaction)
    requires d' == TookCompaction(d, items[1..], e).(
      tr := d'.tr, sent := d'.sent, tries := d'.tries, bridge := d'.bridge, ops := d'.ops, draining := d'.draining)
    requires LogInv(c, start, d') && StopInv(c, start, d', ui) && d'.bridge == P.After(start.bridge, d'.ops)
    ensures Inv(c, start, d', ui, compaction)
  {
    hide Project, Events, P.After, LogInv, StopInv;
    TakeFront(d, false, items, compaction);
    Snoc(d.handled, false, e);
  }

  lemma {:induction false} SkipLagsKeepsQueue(items: seq<Item>)
    ensures Events(SkipLags(items)) == Events(items)
    ensures Closed in SkipLags(items) <==> Closed in items
  {
    if items != [] && items[0].Lagged? {
      SkipLagsKeepsQueue(items[1..]);
      assert items == [items[0]] + items[1..];
    }
  }

  lemma ServeCompactionKeepsInv(c: Client, start: Turn, d: Turn, ui: seq<Item>, compaction: seq<Item>)
    requires Inv(c, start, d, ui, compaction) && d.draining && d.compaction.Some?
    ensures Inv(c, start, ServeCompaction(c, d), ui, compaction)
  {
    hide HandleEvent, P.After, Sent, After, Taken, InOrder, Project, SkipLags;
    var items := SkipLags(d.compaction.value);
    SkipLagsKeepsQueue(d.compaction.value);
    SkipLagsEnds(d.compaction.value);
    if items != [] && items[0].Event? {
      var e := items[0].e;
      var took := TookCompaction(d, items[1..], e);
      if e.CompactionRequested? {
        UnsentKeepsLog(c, start, d, took, false, e);
      } else {
        HandleKeepsLog(c, start, d, took, false, e);
        HandleKeepsQueues(c, took, e);
        HandleKeepsBridge(c, start, took, e);
      }
      TookCompactionKeepsInv(c, start, d, ServeCompaction(c, d), items, e, ui, compaction);
    }
  }

  lemma RoundKeepsInv(c: Client, start: Turn, d: Turn, p: Poll, ui: seq<Item>, compaction: seq<Item>)
    requires Inv(c, start, d, ui, compaction)
    ensures Inv(c, start, Round(c, d, p), ui + p.ui, compaction + p.compaction)
  {
    hide Inv, ServeUi, ServeCompaction;
    ArriveKeepsInv(c, start, d, p, ui, compaction);
    var d1 := Arrive(d, p);
    if d1.draining && d1.ui != [] {
      ServeUiKeepsInv(c, start, d1, ui + p.ui, compaction + p.compaction);
    } else if d1.draining && Buffered(d1.compaction) != [] {
      ServeCompactionKeepsInv(c, start, d1, ui + p.ui, compaction + p.compaction);
    }
  }

  lemma {:induction false} LoopKeepsInv(c: Client, start: Turn, polls: seq<Poll>, ui: seq<Item>, compaction: seq<Item>)
    requires Inv(c, start, start, ui, compaction)
    ensures Inv(c, start, Loop(c, start, polls), ui + UiArrivals(polls), compaction + CompactionArrivals(polls))
  {
    hide Inv, Round;
    if polls == [] {
      assert ui + [] == ui && compaction + [] == compaction;
    } else {
      var before, p := polls[..|polls| - 1], polls[|polls| - 1];
      LoopKeepsInv(c, start, before, ui, compaction);
      RoundKeepsInv(c, start, Loop(c, start, before), p, ui + UiArrivals(before), compaction + CompactionArrivals(before));
      assert ui + UiArrivals(before) + p.ui == ui + UiArrivals(polls);
      assert compaction + CompactionArrivals(before) + p.compaction == compaction + CompactionArrivals(polls);
    }
  }

  lemma {:induction false} FlushUiKeepsInv(c: Client, start: Turn, d: Turn, ui: seq<Item>, compaction: seq<Item>)
    requires Inv(c, start, d, ui, compaction) && d.draining
    ensures Inv(c, start, FlushUi(c, d), ui, compaction) && Events(FlushUi(c, d).ui) == []
    decreases |d.ui|
  {
    hide SendEvent, P.After, Sent, After, Taken, InOrder, Project, LogInv, CompactionInv;
    if d.ui != [] && !d.ui[0].Closed? {
      TakeFront(d, true, d.ui, ui);
      var next;
      if d.ui[0].Lagged? {
        next := d.(ui := d.ui[1..]);
        LagKeepsInv(c, start, d, ui, compaction);
      } else {
        var e := d.ui[0].e;
        var took := TookUi(d, e);
        next := SendEvent(c, took, e).0;
        SendKeepsLog(c, start, d, took, true, e);
        SendKeepsQueues(c, took, e);
        TookUiKeepsInv(c, start, d, next, e, ui, compaction);
      }
      FlushUiKeepsInv(c, start, next, ui, compaction);
    }
  }

  lemma LagKeepsInv(c: Client, start: Turn, d: Turn, ui: seq<Item>, compaction: seq<Item>)
    requires Inv(c, start, d, ui, compaction) && d.ui != [] && d.ui[0].Lagged?
    ensures Inv(c, start, d.(ui := d.ui[1..]), ui, compaction)
  {
    hide P.After, Sent, After, Taken, InOrder, Project;
    TakeFront(d, true, d.ui, ui);
  }

  lemma CompactionLagKeepsInv(c: Client, start: Turn, d: Turn, ui: seq<Item>, compaction: seq<Item>)
    requires Inv(c, start, d, ui, compaction) && d.compaction.Some? && d.compaction.value != []
    requires d.compaction.value[0].Lagged?
    ensures Inv(c, start, d.(compaction := Some(d.compaction.value[1..])), ui, compaction)
  {
    hide P.After, Sent, After, Taken, InOrder, Project;
    TakeFront(d, false, d.compaction.value, compaction);
  }

  lemma {:induction false} FlushCompactionKeepsInv(
      c: Client, start: Turn, d: Turn, ui: seq<Item>, compaction: seq<Item>)
    requires Inv(c, start, d, ui, compaction) && d.draining
    ensures Inv(c, start, FlushCompaction(c, d), ui, compaction)
    ensures Events(Buffered(FlushCompaction(c, d).compaction)) == []
    decreases |Buffered(d.compaction)|
  {
    hide SendEvent, P.After, Sent, After, Taken, InOrder, Project, LogInv;
    if d.compaction.Some? && d.compaction.value != [] && !d.compaction.value[0].Closed? {
      var items := d.compaction.value;
      var next;
      if items[0].Lagged? {
        next := d.(compaction := Some(items[1..]));
        CompactionLagKeepsInv(c, start, d, ui, compaction);
      } else {
        var e := items[0].e;
        var took := TookCompaction(d, items[1..], e);
        if e.CompactionRequested? {
          next := took;
          UnsentKeepsLog(c, start, d, took, false, e);
        } else {
          next := SendEvent(c, took, e).0;
          SendKeepsLog(c, start, d, took, false, e);
          SendKeepsQueues(c, took, e);
        }
        TookCompactionKeepsInv(c, start, d, next, items, e, ui, compaction);
      }
      FlushCompactionKeepsInv(c, start, next, ui, compaction);
    }
  }

  function UiOf(start: Turn, polls: seq<Poll>): seq<Item> { start.ui + UiArrivals(polls) }

  /** What the compaction subscription yields; without one, nothing. */
  function CompactionOf(start: Turn, polls: seq<Poll>): seq<Item>
  {
    if start.compaction.Some? then start.compaction.value + CompactionArrivals(polls) else []
  }

  predicate IsStart(d: Turn) { d.draining && !d.requested && d.handled == [] && d.ops == [] }

  lemma StartInv(c: Client, start: Turn)
    requires IsStart(start)
    ensures Inv(c, start, start, start.ui, Buffered(start.compaction))
  {
  }

  /** The state after the loop and what had arrived when the turn was done, and after the flush. */
  lemma BeforeTheDeny(c: Client, start: Turn, polls: seq<Poll>, last: Poll)
    requires IsStart(start)
    ensures var d := Arrive(Loop(c, start, polls), last);
      var ui, compaction := UiOf(start, polls + [last]), Buffered(start.compaction) + CompactionArrivals(polls + [last]);
      && Inv(c, start, d, ui, compaction) && Inv(c, start, Flush(c, d), ui, compaction)
      && (d.draining ==> Flush(c, d).draining && Events(Flush(c, d).ui) == [] && Events(Buffered(Flush(c, d).compaction)) == [])
  {
    hide Inv, FlushUi, FlushCompaction, Round;
    var d := Arrive(Loop(c, start, polls), last);
    var ui, compaction := UiOf(start, polls + [last]), Buffered(start.compaction) + CompactionArrivals(polls + [last]);
    StartInv(c, start);
    LoopKeepsInv(c, start, polls, start.ui, Buffered(start.compaction));
    ArriveKeepsInv(c, start, Loop(c, start, polls), last, UiOf(start, polls), Buffered(start.compaction) + CompactionArrivals(polls));
    assert UiOf(start, polls) + last.ui == ui;
    assert Buffered(start.compaction) + CompactionArrivals(polls) + last.compaction == compaction;
    if d.draining {
      FlushUiKeepsInv(c, start, d, ui, compaction);
      FlushUiKeeps(c, d);
      FlushCompactionKeepsInv(c, start, FlushUi(c, d), ui, compaction);
      FlushCompactionKeeps(c, FlushUi(c, d));
    }
  }

  /**
   * Whatever the interleaving of the turn and the two channels, whatever the transport refuses: what was handled is
   * an order-preserving merge of a prefix of each channel's events, each event once; the client got exactly the
   * translation of what was handled, in that order, less the refused attempts; and the flag is up exactly when a
   * compaction request was among the handled events of the compaction channel.
   */
  lemma TurnAccountsForWhatItHandled(c: Client, start: Turn, polls: seq<Poll>, last: Poll, order: seq<string>)
    requires IsStart(start)
    ensures var end := Drained(c, start, polls, last, order);
      && Project(end.handled, true) <= Events(UiOf(start, polls + [last]))
      && Project(end.handled, false) <= Events(CompactionOf(start, polls + [last]))
      && end.sent == start.sent + Taken(c, Sent(start.tr, InOrder(end.handled)), start.tries)
      && (end.requested <==> CompactionRequested in Project(end.handled, false))
  {
    hide FlushUi, FlushCompaction, Loop, P.DenyEach, Project, Events, Taken, Sent, InOrder, After;
    BeforeTheDeny(c, start, polls, last);
  }

  lemma {:induction false} AllTaken(c: Client, us: seq<Update>, k: nat)
    requires forall i: nat :: c.takes(i)
    ensures Taken(c, us, k) == us
  {
    if us != [] {
      AllTaken(c, us[..|us| - 1], k);
      assert us == us[..|us| - 1] + [us[|us| - 1]];
    }
  }

  /**
   * With a working transport and an open ui channel nothing is lost: every event of both channels is handled exactly
   * once, the client is told every one of them that is for it, in order, and hears all that was spoken, nothing stays
   * buffered, and the flag is up exactly when a compaction request was published on the compaction channel.
   */
  lemma HealthyTurnLosesNothing(c: Client, start: Turn, polls: seq<Poll>, last: Poll, order: seq<string>)
    requires IsStart(start)
    requires (forall k: nat :: c.takes(k)) && Closed !in UiOf(start, polls + [last])
    ensures var end := Drained(c, start, polls, last, order);
      && Project(end.handled, true) == Events(UiOf(start, polls + [last]))
      && Project(end.handled, false) == Events(CompactionOf(start, polls + [last]))
      && start.sent <= end.sent
      && ToldInOrder(end.sent[|start.sent|..], VisibleOf(InOrder(end.handled)), start.tr.window)
      && Heard(end.sent[|start.sent|..]) == Spoken(InOrder(end.handled))
      && Events(end.ui) == [] && Events(Buffered(end.compaction)) == []
      && (end.requested <==> CompactionRequested in Events(CompactionOf(start, polls + [last])))
  {
    hide FlushUi, FlushCompaction, Loop, P.DenyEach, Project, Events, Taken, Sent, InOrder, After, ToldInOrder, Heard, Spoken, VisibleOf;
    BeforeTheDeny(c, start, polls, last);
    var end := Drained(c, start, polls, last, order);
    AllTaken(c, Sent(start.tr, InOrder(end.handled)), start.tries);
    ClientIsToldEverything(start.tr, InOrder(end.handled));
  }

  /** Every waiter that came or went during the turn, in order. */
  function Others(polls: seq<Poll>): seq<P.Op>
  {
    if polls == [] then [] else Others(polls[..|polls| - 1]) + polls[|polls| - 1].others
  }

  lemma OpsGrow(c: Client, d: Turn, p: Poll)
    ensures d.ops + p.others <= Round(c, d, p).ops
  {
    hide SendEvent, SkipLags;
    var d1 := Arrive(d, p);
    forall took: Turn, e | took.ops == d1.ops ensures d1.ops <= HandleEvent(c, took, e).0.ops {
      if !e.PermissionRequested? { SendKeepsQueues(c, took, e); }
    }
  }

  lemma {:induction false} LoopKeepsWaiters(c: Client, start: Turn, polls: seq<Poll>, op: P.Op)
    requires op in Others(polls)
    ensures op in Loop(c, start, polls).ops
  {
    hide Round;
    var before, p := polls[..|polls| - 1], polls[|polls| - 1];
    OpsGrow(c, Loop(c, start, before), p);
    if op !in p.others { LoopKeepsWaiters(c, start, before, op); }
    assert op in Loop(c, start, before).ops + p.others;
  }

  /**
   * When the turn returns, every request registered while it ran, or still waiting from before, has been settled
   * exactly once: by the client, by a remembered denial, by its own withdrawal, or by the final deny.
   */
  lemma NobodyIsLeftWaiting(
      c: Client, start: Turn, earlier: seq<P.Op>, watched: bool, polls: seq<Poll>, last: Poll, order: seq<string>)
    requires IsStart(start) && start.bridge == P.After(P.Fresh(watched), earlier)
    requires var d := Flushed(c, start, polls, last);
      P.FreshWaiters({}, earlier + d.ops) && P.Enumerates(order, d.bridge.pending.Keys)
    ensures var end := Drained(c, start, polls, last, order);
      && end.bridge.pending == map[]
      && forall op :: (op in earlier || op in Others(polls + [last])) && op.Registers? ==> |P.Fate(end.bridge.notes, op.waiter)| == 1
  {
    hide FlushUi, FlushCompaction, Loop, P.DenyEach, Inv, P.FreshWaiters, P.Fate, P.After, P.Enumerates;
    BeforeTheDeny(c, start, polls, last);
    var d0 := Arrive(Loop(c, start, polls), last);
    var d := Flush(c, d0);
    if d0.draining {
      FlushUiKeeps(c, d0);
      FlushCompactionKeeps(c, FlushUi(c, d0));
    }
    BridgeOfInv(c, start, d, UiOf(start, polls + [last]), Buffered(start.compaction) + CompactionArrivals(polls + [last]));
    var made, all := P.Fresh(watched), earlier + d.ops;
    P.AfterConcat(made, earlier, d.ops);
    P.TurnEndSettlesEveryone(watched, all, order);
    P.AfterConcat(made, all, [P.DeniesAll(order)]);
    EndIsTheDeny(d, order);
    forall op | op in Others(polls + [last]) ensures op in d.ops {
      assert (polls + [last])[..|polls|] == polls;
      if op !in last.others { LoopKeepsWaiters(c, start, polls, op); }
    }
    var end := Drained(c, start, polls, last, order);
    assert end.bridge == P.After(made, all + [P.DeniesAll(order)]);
    forall op | (op in earlier || op in Others(polls + [last])) && op.Registers? ensures |P.Fate(end.bridge.notes, op.waiter)| == 1 {
      assert op in earlier || op in d.ops;
      InSum(earlier, d.ops, op);
      var i :| 0 <= i < |all| && all[i] == op;
    }
  }

  lemma BridgeOfInv(c: Client, start: Turn, d: Turn, ui: seq<Item>, compaction: seq<Item>)
    requires Inv(c, start, d, ui, compaction)
    ensures d.bridge == P.After(start.bridge, d.ops)
  {
  }

  lemma EndIsTheDeny(d: Turn, order: seq<string>)
    ensures EndTurn(d, order).bridge == P.After(d.bridge, [P.DeniesAll(order)])
  {
  }

  // ---- Which item a round takes, and when the drain ends ----

  /** What a round leaves of the two channels; the handled event is logged, whichever it was taken from. */
  lemma RoundTakesUi(c: Client, d: Turn, p: Poll, items: seq<Item>)
    requires items == d.ui + p.ui && d.draining && items != []
    ensures var next := Round(c, d, p);
      && next.compaction == Arrive(d, p).compaction && next.requested == d.requested
      && (items[0].Event? ==> next.ui == items[1..] && next.handled == d.handled + [Handled(true, items[0].e)])
      && (!items[0].Event? ==> next.handled == d.handled && next.sent == d.sent && next.tries == d.tries)
      && (items[0].Lagged? ==> next.ui == items[1..] && next.draining)
      && (items[0].Closed? ==> !next.draining)
  {
    hide P.After, HandleEvent;
    if items[0].Event? { HandleKeepsQueues(c, TookUi(Arrive(d, p), items[0].e), items[0].e); }
  }

  /**
   * With nothing on the ui channel the round takes the first event of the compaction channel, behind any reports of
   * dropped ones: a request for compaction raises the flag and sends nothing. The channel is given up once it is closed.
   */
  lemma RoundTakesCompaction(c: Client, d: Turn, p: Poll, items: seq<Item>, k: nat)
    requires d.compaction.Some? && items == d.compaction.value + p.compaction && d.draining && d.ui + p.ui == []
    requires k <= |items| && (forall j :: 0 <= j < k ==> items[j].Lagged?) && (k < |items| ==> !items[k].Lagged?)
    ensures var next := Round(c, d, p);
      && next.ui == []
      && (k < |items| && items[k].Event? ==>
            && next.compaction == Some(items[k + 1..]) && next.handled == d.handled + [Handled(false, items[k].e)]
            && next.requested == (d.requested || items[k].e == CompactionRequested)
            && (items[k].e == CompactionRequested ==> next.sent == d.sent && next.tries == d.tries && next.draining))
      && (k == |items| || items[k].Closed? ==>
            && next.handled == d.handled && next.sent == d.sent && next.tries == d.tries && next.draining
            && next.requested == d.requested && next.compaction == (if k == |items| then Some([]) else None))
  {
    hide P.After, HandleEvent, SkipLags;
    LagsSkipped(items, k);
    if k < |items| && items[k].Event? {
      HandleKeepsQueues(c, TookCompaction(Arrive(d, p), items[k + 1..], items[k].e), items[k].e);
    }
  }

  lemma {:induction false} LagsSkipped(items: seq<Item>, k: nat)
    requires k <= |items| && (forall j :: 0 <= j < k ==> items[j].Lagged?) && (k < |items| ==> !items[k].Lagged?)
    ensures SkipLags(items) == items[k..]
  {
    if k > 0 { LagsSkipped(items[1..], k - 1); }
  }

  /** A round makes at most one attempt, and goes on draining after it exactly when the transport took it. */
  lemma RoundTries(c: Client, d: Turn, p: Poll)
    ensures var next := Round(c, d, p);
      && d.tries <= next.tries <= d.tries + 1
      && (!d.draining ==> next == Arrive(d, p))
      && (next.tries == d.tries + 1 ==> (next.draining <==> c.takes(d.tries)))
      && (d.draining && !next.draining && next.tries == d.tries ==> Closed in d.ui + p.ui)
  {
    hide P.After, SkipLags, P.Apply, Translated;
  }

  /**
   * The loop attempts nothing after the first update the transport refuses. It stops draining for that reason, or
   * because the ui channel is closed, and for no other; from then on nothing more is taken, sent or attempted, not even
   * by the flush.
   */
  lemma {:induction false} DrainEndsAtTheFirstRefusal(
      c: Client, start: Turn, polls: seq<Poll>, last: Poll, order: seq<string>)
    requires start.draining
    ensures var l := Loop(c, start, polls);
      && start.tries <= l.tries
      && (forall k :: start.tries <= k < l.tries && !c.takes(k) ==> k == l.tries - 1 && !l.draining)
      && (!l.draining ==> Closed in UiOf(start, polls) || (start.tries < l.tries && !c.takes(l.tries - 1)))
      && (!l.draining ==>
            var end := Drained(c, start, polls, last, order);
            end.handled == l.handled && end.sent == l.sent && end.tries == l.tries)
  {
    hide Round, P.After, P.DenyEach, FlushUi, FlushCompaction;
    if polls != [] {
      var before, p := polls[..|polls| - 1], polls[|polls| - 1];
      DrainEndsAtTheFirstRefusal(c, start, before, last, order);
      RoundTries(c, Loop(c, start, before), p);
      UiStaysArrived(c, start, before);
      assert forall x :: x in p.ui ==> x in UiArrivals(polls);
    }
  }

  /** Whatever is on the ui channel has arrived there. */
  lemma {:induction false} UiStaysArrived(c: Client, start: Turn, polls: seq<Poll>)
    ensures forall x :: x in Loop(c, start, polls).ui ==> x in UiOf(start, polls)
  {
    if polls == [] {
      assert UiOf(start, []) == start.ui + [];
    } else {
      var before, p := polls[..|polls| - 1], polls[|polls| - 1];
      UiStaysArrived(c, start, before);
      RoundLeavesUi(c, Loop(c, start, before), p);
    }
  }

  lemma RoundLeavesUi(c: Client, d: Turn, p: Poll)
    ensures forall x :: x in Round(c, d, p).ui ==> x in d.ui + p.ui
  {
    hide P.After, SkipLags, HandleEvent, TookCompaction;
    var d1 := Arrive(d, p);
    if d1.draining && d1.ui != [] {
      if d1.ui[0].Event? { HandleKeepsQueues(c, TookUi(d1, d1.ui[0].e), d1.ui[0].e); }
    } else if d1.draining && Buffered(d1.compaction) != [] {
      CompactionLeavesUi(c, d1);
    }
  }

  lemma CompactionLeavesUi(c: Client, d: Turn)
    requires d.compaction.Some?
    ensures ServeCompaction(c, d).ui == d.ui
  {
    hide SkipLags, HandleEvent;
    var items := SkipLags(d.compaction.value);
    if items != [] && items[0].Event? {
      HandleKeepsQueues(c, TookCompaction(d, items[1..], items[0].e), items[0].e);
    }
  }

  /** If the loop was still draining when the turn was done, every event of both channels is handled, whatever is refused. */
  lemma FlushTakesWhatIsLeft(c: Client, start: Turn, polls: seq<Poll>, last: Poll, order: seq<string>)
    requires IsStart(start) && Loop(c, start, polls).draining
    ensures var end := Drained(c, start, polls, last, order);
      && Project(end.handled, true) == Events(UiOf(start, polls + [last]))
      && Project(end.handled, false) == Events(CompactionOf(start, polls + [last]))
  {
    hide FlushUi, FlushCompaction, Loop, P.DenyEach, Project, Events, Sent, After, LogInv, StopInv;
    BeforeTheDeny(c, start, polls, last);
    var end := Drained(c, start, polls, last, order);
    assert Project(end.handled, true) + [] == Project(end.handled, true);
    assert Project(end.handled, false) + [] == Project(end.handled, false);
  }

  // ---- What becomes of a permission request ----

  /** The event the select takes next: the ui channel goes first, reports of dropped compaction events are skipped. */
  ghost predicate TakesNext(d: Turn, e: SystemEvent)
  {
    d.draining &&
    if d.ui != [] then d.ui[0] == Event(e)
    else exists k: nat :: FirstEvent(Buffered(d.compaction), k, e)
  }

  predicate FirstEvent(items: seq<Item>, k: nat, e: SystemEvent)
  {
    k < |items| && items[k] == Event(e) && forall j :: 0 <= j < k ==> items[j].Lagged?
  }

  /** The round that takes a permission request hands it to the bridge, and does nothing else. */
  lemma TakenRequestIsHandled(c: Client, d: Turn, p: Poll, id: string, key: string)
    requires TakesNext(Arrive(d, p), PermissionRequested(id, key))
    ensures var d1, d2, op := Arrive(d, p), Round(c, d, p), P.Handles(id, key, c.answer(id, key));
      d2.bridge == P.Apply(d1.bridge, op) && d2.ops == d1.ops + [op] && d2.sent == d1.sent && d2.tr == d1.tr && d2.draining
  {
    hide P.Apply, P.After, SkipLags;
    var d1, e := Arrive(d, p), PermissionRequested(id, key);
    if d1.ui == [] {
      var k: nat :| FirstEvent(Buffered(d1.compaction), k, e);
      LagsSkipped(Buffered(d1.compaction), k);
    }
  }

  lemma {:induction false} LoopConcat(c: Client, d: Turn, xs: seq<Poll>, ys: seq<Poll>)
    ensures Loop(c, d, xs + ys) == Loop(c, Loop(c, d, xs), ys)
    decreases |ys|
  {
    hide Round;
    if ys == [] {
      assert xs + ys == xs;
    } else {
      var init := ys[..|ys| - 1];
      assert (xs + ys)[..|xs + ys| - 1] == xs + init;
      LoopConcat(c, d, xs, init);
    }
  }

  lemma {:induction false} LoopOpsGrow(c: Client, d: Turn, polls: seq<Poll>)
    ensures d.ops <= Loop(c, d, polls).ops
  {
    hide Round;
    if polls != [] {
      var before, p := polls[..|polls| - 1], polls[|polls| - 1];
      LoopOpsGrow(c, d, before);
      OpsGrow(c, Loop(c, d, before), p);
      assert Loop(c, d, before).ops <= Loop(c, d, before).ops + p.others;
    }
  }

  /** The bridge after the loop, and at the end of the turn, is what its operations made of it. */
  lemma BridgeFollowsOps(c: Client, start: Turn, polls: seq<Poll>, last: Poll, order: seq<string>)
    requires IsStart(start)
    ensures Arrive(Loop(c, start, polls), last).bridge == P.After(start.bridge, Arrive(Loop(c, start, polls), last).ops)
    ensures var end := Drained(c, start, polls, last, order);
      end.ops == Arrive(Loop(c, start, polls), last).ops + [P.DeniesAll(order)] && end.bridge == P.After(start.bridge, end.ops)
  {
    hide FlushUi, FlushCompaction, Loop, P.DenyEach, Inv, P.After;
    BeforeTheDeny(c, start, polls, last);
    var d0 := Arrive(Loop(c, start, polls), last);
    var ui, compaction := UiOf(start, polls + [last]), Buffered(start.compaction) + CompactionArrivals(polls + [last]);
    BridgeOfInv(c, start, d0, ui, compaction);
    var d := Flush(c, d0);
    BridgeOfInv(c, start, d, ui, compaction);
    if d0.draining {
      FlushUiKeeps(c, d0);
      FlushCompactionKeeps(c, FlushUi(c, d0));
    }
    EndIsTheDeny(d, order);
    P.AfterConcat(start.bridge, d.ops, [P.DeniesAll(order)]);
  }

  /** What the client's answer to the request means, unless it rejected the key for good before. */
  function Decided(answer: P.Outcome, rejected: bool): P.Decision
  {
    if !rejected && answer == P.Selected("allow-once") then P.AllowOnce
    else if !rejected && answer == P.Selected("allow-always") then P.AllowAlways
    else P.Deny
  }

  /**
   * A permission request that the loop takes off either channel reaches the client and its waiter: the client is
   * prompted exactly when it has not rejected the key for good, and what the waiter has got at the end of the turn is
   * the client's own answer to this request, or a denial for a rejected key, and nothing else.
   */
  lemma PermissionRequestIsAnswered(
      c: Client, start: Turn, earlier: seq<P.Op>, watched: bool, before: seq<Poll>, p: Poll, rest: seq<Poll>, last: Poll,
      order: seq<string>, id: string, key: string)
    requires IsStart(start) && start.bridge == P.After(P.Fresh(watched), earlier)
    requires P.FreshWaiters({}, earlier + Flushed(c, start, before + [p] + rest, last).ops)
    requires var d := Arrive(Loop(c, start, before), p); TakesNext(d, PermissionRequested(id, key)) && id in d.bridge.pending
    ensures var d, next := Arrive(Loop(c, start, before), p), Loop(c, start, before + [p]);
      var rejected := P.RejectedForGood(earlier + d.ops, key);
      var w, decision := d.bridge.pending[id], Decided(c.answer(id, key), rejected);
      var end := Drained(c, start, before + [p] + rest, last, order);
      && next.bridge.notes == d.bridge.notes + (if rejected then [] else [P.Asked(key)]) + [P.Sent(w, decision)]
      && next.bridge.notes <= end.bridge.notes
      && P.Fate(end.bridge.notes, w) == [Some(decision)]
  {
    hide Loop, Round, FlushUi, FlushCompaction, P.After, P.Fate, P.FreshWaiters, P.Inv, P.RejectedForGood, TakesNext, P.DenyEach;
    var made, d, op := P.Fresh(watched), Arrive(Loop(c, start, before), p), P.Handles(id, key, c.answer(id, key));
    var next, end := Loop(c, start, before + [p]), Drained(c, start, before + [p] + rest, last, order);
    RoundByRound(c, start, before, p);
    TakenRequestIsHandled(c, Loop(c, start, before), p, id, key);
    LoopConcat(c, start, before + [p], rest);
    LoopOpsGrow(c, next, rest);
    BridgeFollowsOps(c, start, before, p, order);
    BridgeFollowsOps(c, start, before + [p] + rest, last, order);
    OpsBeforeTheFlush(c, start, before + [p] + rest, last);
    var more := (Loop(c, next, rest).ops + last.others)[|next.ops|..];
    var past, later := earlier + d.ops, more + [P.DeniesAll(order)];
    assert Loop(c, next, rest).ops + last.others == next.ops + more;
    assert earlier + (next.ops + more) == past + ([op] + more);
    P.FreshSplit({}, past, [op] + more);
    P.FreshWithDeny(P.KnownAfter({}, past), [op] + more, order);
    assert [op] + more + [P.DeniesAll(order)] == [op] + later;
    P.AfterConcat(made, earlier, d.ops);
    P.AfterConcat(made, earlier, end.ops);
    assert earlier + end.ops == past + ([op] + later);
    P.AfterConcat(made, past, [op] + later);
    P.AfterConcat(d.bridge, [op], later);
    P.FreshIsInOrder(watched);
    P.RunKeepsInv(made, {}, past);
    OneOp(d.bridge, op);
    P.StoredWaiterSettles(d.bridge, P.KnownAfter({}, past), id, op, later);
    P.DeniedIffRejectedAlways(made, past, key);
    P.NotesGrow(next.bridge, later);
  }

  lemma OneOp(b: P.Bridge, op: P.Op)
    ensures P.After(b, [op]) == P.Apply(b, op)
  {
    hide P.Apply;
    assert [op][1..] == [];
  }

  lemma RoundByRound(c: Client, start: Turn, before: seq<Poll>, p: Poll)
    ensures Loop(c, start, before + [p]) == Round(c, Loop(c, start, before), p)
  {
    hide Round;
    assert (before + [p])[..|before|] == before;
  }

  lemma OpsBeforeTheFlush(c: Client, start: Turn, polls: seq<Poll>, last: Poll)
    ensures Flushed(c, start, polls, last).ops == Loop(c, start, polls).ops + last.others
  {
    hide Loop, FlushUi, FlushCompaction, P.After;
    var d := Arrive(Loop(c, start, polls), last);
    if d.draining {
      FlushUiKeeps(c, d);
      FlushCompactionKeeps(c, FlushUi(c, d));
    }
  }

  /** The requests among some operations of the bridge, and those among some events with the client's answers. */
  function Prompted(ops: seq<P.Op>): seq<P.Op>
  {
    if ops == [] then []
    else Prompted(ops[..|ops| - 1]) + if ops[|ops| - 1].Handles? then [ops[|ops| - 1]] else []
  }

  function Requests(c: Client, es: seq<SystemEvent>): seq<P.Op>
  {
    if es == [] then []
    else
      var e := es[|es| - 1];
      Requests(c, es[..|es| - 1]) + if e.PermissionRequested? then [P.Handles(e.requestId, e.toolKey, c.answer(e.requestId, e.toolKey))] else []
  }

  lemma {:induction false} NobodyElsePrompts(ops: seq<P.Op>, others: seq<P.Op>)
    requires forall i :: 0 <= i < |others| ==> others[i].Registers? || others[i].Withdraws?
    ensures Prompted(ops + others) == Prompted(ops)
    decreases |others|
  {
    if others == [] {
      assert ops + others == ops;
    } else {
      var init := others[..|others| - 1];
      assert (ops + others)[..|ops + others| - 1] == ops + init;
      NobodyElsePrompts(ops, init);
      assert Prompted(ops + init) + [] == Prompted(ops + init);
    }
  }

  lemma HandledOnce(c: Client, d: Turn, took: Turn, fromUi: bool, e: SystemEvent)
    requires took.handled == d.handled + [Handled(fromUi, e)] && took.ops == d.ops
    requires Prompted(d.ops) == Requests(c, InOrder(d.handled))
    ensures var d' := HandleEvent(c, took, e).0; Prompted(d'.ops) == Requests(c, InOrder(d'.handled))
  {
    hide SendEvent, P.Apply;
    Snoc(d.handled, fromUi, e);
    var es := InOrder(d.handled);
    assert (es + [e])[..|es|] == es;
    if e.PermissionRequested? {
      var op := P.Handles(e.requestId, e.toolKey, c.answer(e.requestId, e.toolKey));
      assert (d.ops + [op])[..|d.ops|] == d.ops;
    } else {
      SendKeepsQueues(c, took, e);
      assert Requests(c, es) + [] == Requests(c, es);
    }
  }

  lemma RoundPrompts(c: Client, d: Turn, p: Poll)
    requires OnlyWaiters(p) && Prompted(d.ops) == Requests(c, InOrder(d.handled))
    ensures Prompted(Round(c, d, p).ops) == Requests(c, InOrder(Round(c, d, p).handled))
  {
    hide HandleEvent, P.After, Prompted, Requests, InOrder, SkipLags;
    var d1 := Arrive(d, p);
    NobodyElsePrompts(d.ops, p.others);
    if d1.draining && d1.ui != [] {
      if d1.ui[0].Event? { HandledOnce(c, d1, TookUi(d1, d1.ui[0].e), true, d1.ui[0].e); }
    } else if d1.draining && Buffered(d1.compaction) != [] {
      var items := SkipLags(d1.compaction.value);
      if items != [] && items[0].Event? {
        var e := items[0].e;
        HandledOnce(c, d1, TookCompaction(d1, items[1..], e), false, e);
        if e.CompactionRequested? { NotAPrompt(c, d1, e); }
      }
    }
  }

  lemma NotAPrompt(c: Client, d: Turn, e: SystemEvent)
    requires !e.PermissionRequested?
    ensures Requests(c, InOrder(d.handled + [Handled(false, e)])) == Requests(c, InOrder(d.handled))
  {
    Snoc(d.handled, false, e);
    var es := InOrder(d.handled);
    assert (es + [e])[..|es|] == es;
    assert Requests(c, es) + [] == Requests(c, es);
  }

  /**
   * Over any rounds of the loop, the bridge has handled exactly the permission requests taken off the channels, each
   * once, in the order in which they were taken, and with the client's answer to each.
   */
  lemma {:induction false} RequestsReachTheBridge(c: Client, start: Turn, polls: seq<Poll>)
    requires IsStart(start) && forall i :: 0 <= i < |polls| ==> OnlyWaiters(polls[i])
    ensures Prompted(Loop(c, start, polls).ops) == Requests(c, InOrder(Loop(c, start, polls).handled))
  {
    hide Round;
    if polls != [] {
      var before, p := polls[..|polls| - 1], polls[|polls| - 1];
      RequestsReachTheBridge(c, start, before);
      RoundPrompts(c, Loop(c, start, before), p);
    }
  }
}
