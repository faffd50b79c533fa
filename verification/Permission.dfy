/** The permission bridge: every waiting tool call is answered once, and a "reject always" is never forgotten. */
module Permission {
  import opened Options

  datatype Decision = AllowOnce | AllowAlways | Deny

  /** The client's outcome: the id of the option it chose, or a cancelled prompt. */
  datatype Outcome = Selected(optionId: string) | Cancelled

  const OPTION_ALLOW_ONCE := "allow-once"
  const OPTION_ALLOW_ALWAYS := "allow-always"
  const OPTION_REJECT_ALWAYS := "reject-always"

  function MapOutcome(o: Outcome): Decision
  {
    match o
    case Selected(id) =>
      if id == OPTION_ALLOW_ONCE then AllowOnce else if id == OPTION_ALLOW_ALWAYS then AllowAlways else Deny
    case Cancelled => Deny
  }

  predicate IsRejectAlways(o: Outcome) { o == Selected(OPTION_REJECT_ALWAYS) }

  // ---- The bridge as a value ----

  /**
   * What can be observed from outside: a prompt shown, a decision sent to a waiter, a waiter whose sender was dropped
   * without a decision, and a decision that found nobody waiting.
   */
  datatype Note = Asked(toolKey: string) | Sent(waiter: nat, decision: Decision) | Dropped(waiter: nat) | Ignored(requestId: string)

  /** `pending` maps a request id to the waiter whose oneshot sender is stored under it. */
  datatype Bridge = Bridge(pending: map<string, nat>, denied: set<string>, watched: bool, notes: seq<Note>)

  /** A waiter registers under a request id; a sender already stored under that id is dropped. */
  function Register(b: Bridge, id: string, waiter: nat): Bridge
  {
    b.(pending := b.pending[id := waiter],
       notes := if id in b.pending then b.notes + [Dropped(b.pending[id])] else b.notes)
  }

  /** A cancelled or timed-out waiter takes its own sender back. */
  function Withdraw(b: Bridge, id: string): Bridge
  {
    if id in b.pending then b.(pending := b.pending - {id}, notes := b.notes + [Dropped(b.pending[id])]) else b
  }

  /** Sends `decision` to the waiter under `id`, or reports that there is none. */
  function Answer(b: Bridge, id: string, decision: Decision): Bridge
  {
    if id in b.pending then b.(pending := b.pending - {id}, notes := b.notes + [Sent(b.pending[id], decision)])
    else if b.watched then b.(notes := b.notes + [Ignored(id)])
    else b
  }

  /** Shows the prompt unless the key is denied already; `outcome` is what the client answers when it is asked. */
  function Ask(b: Bridge, key: string, outcome: Outcome): Bridge
  {
    if key in b.denied then b
    else b.(denied := if IsRejectAlways(outcome) then b.denied + {key} else b.denied, notes := b.notes + [Asked(key)])
  }

  function Verdict(b: Bridge, key: string, outcome: Outcome): Decision
  {
    if key in b.denied then Deny else MapOutcome(outcome)
  }

  function Handle(b: Bridge, id: string, key: string, outcome: Outcome): Bridge
  {
    Answer(Ask(b, key, outcome), id, Verdict(b, key, outcome))
  }

  /** Denies the listed requests one after the other, as draining the map does in some order. */
  function DenyEach(b: Bridge, order: seq<string>): Bridge
    decreases |order|
  {
    if order == [] then b else DenyEach(Answer(b, order[0], Deny), order[1..])
  }

  ghost predicate Enumerates(order: seq<string>, ids: set<string>)
  {
    && (forall i, j :: 0 <= i < j < |order| ==> order[i] != order[j])
    && (forall id :: id in ids <==> id in order)
  }

  class AcpPermissionBridge {
    var pending: map<string, nat>
    var denied: set<string>
    const watched: bool
    var notes: seq<Note>

    ghost function Value(): Bridge reads this { Bridge(pending, denied, watched, notes) }

    constructor (watched: bool)
      ensures Value() == Bridge(map[], {}, watched, [])
    {
      pending, denied, notes := map[], {}, [];
      this.watched := watched;
    }

    /** `outcome` is the client's answer, if the client is asked at all. */
    method HandlePermissionRequest(requestId: string, toolKey: string, outcome: Outcome) returns (decision: Decision)
      modifies this
      ensures Value() == Handle(old(Value()), requestId, toolKey, outcome)
      ensures decision == AllowOnce <==> toolKey !in old(denied) && outcome == Selected("allow-once")
      ensures decision == AllowAlways <==> toolKey !in old(denied) && outcome == Selected("allow-always")
      ensures denied == old(denied) + if outcome == Selected("reject-always") then {toolKey} else {}
      ensures pending == old(pending) - {requestId}
      ensures notes == old(notes) + (if toolKey in old(denied) then [] else [Asked(toolKey)]) +
        if requestId in old(pending) then [Sent(old(pending)[requestId], decision)]
        else if watched then [Ignored(requestId)] else []
    {
      if toolKey in denied {
        decision := Deny;
      } else {
        notes := notes + [Asked(toolKey)];
        decision := MapOutcome(outcome);
        if IsRejectAlways(outcome) {
          denied := denied + {toolKey};
        }
      }
      if requestId in pending {
        var tx := pending[requestId];
        pending := pending - {requestId};
        notes := notes + [Sent(tx, decision)];
      } else if watched {
        notes := notes + [Ignored(requestId)];
      }
    }

    method DenyAllPending() returns (ghost order: seq<string>)
      modifies this
      ensures Enumerates(order, old(pending).Keys)
      ensures Value() == DenyEach(old(Value()), order)
    {
      hide DenyEach;
      order := [];
      DenyNobody(Value());
      while pending != map[]
        invariant forall id :: id in pending <==> id in old(pending) && id !in order
        invariant forall i, j :: 0 <= i < j < |order| ==> order[i] != order[j]
        invariant forall id :: id in order ==> id in old(pending)
        invariant Value() == DenyEach(old(Value()), order)
        decreases |pending|
      {
        var id :| id in pending;
        var tx := pending[id];
        DenyEachStep(old(Value()), order, id);
        assert (pending - {id}).Keys == pending.Keys - {id};
        pending := pending - {id};
        notes := notes + [Sent(tx, Deny)];
        order := order + [id];
      }
    }

    /** What the tasks that share the pending map do to it: register their own sender, or take it back. */
    method Elsewhere(ops: seq<Op>)
      requires forall i :: 0 <= i < |ops| ==> ops[i].Registers? || ops[i].Withdraws?
      modifies this`pending, this`notes
      ensures Value() == After(old(Value()), ops)
    {
      for i := 0 to |ops|
        invariant After(Value(), ops[i..]) == After(old(Value()), ops)
        invariant denied == old(denied)
      {
        assert ops[i..][0] == ops[i] && ops[i..][1..] == ops[i + 1..];
        if ops[i].id in pending { notes := notes + [Dropped(pending[ops[i].id])]; }
        match ops[i]
        case Registers(id, waiter) => pending := pending[id := waiter];
        case Withdraws(id) =>
          assert id !in pending ==> pending - {id} == pending;
          pending := pending - {id};
      }
    }
  }

  lemma DenyNobody(b: Bridge)
    ensures DenyEach(b, []) == b
  {
  }

  lemma {:induction false} DenyEachStep(b: Bridge, order: seq<string>, id: string)
    ensures DenyEach(b, order + [id]) == Answer(DenyEach(b, order), id, Deny)
    decreases |order|
  {
    hide Answer;
    var all := order + [id];
    if order == [] {
      assert all[1..] == [];
    } else {
      assert all[0] == order[0] && all[1..] == order[1..] + [id];
      DenyEachStep(Answer(b, order[0], Deny), order[1..], id);
    }
  }

  // ---- Runs ----

  /** One step of any interleaving of waiters, of the bridge, and of the end of a turn. */
  datatype Op =
    | Registers(id: string, waiter: nat)
    | Withdraws(id: string)
    | Handles(id: string, key: string, outcome: Outcome)
    | DeniesAll(order: seq<string>)

  ghost predicate Possible(b: Bridge, op: Op) { op.DeniesAll? ==> Enumerates(op.order, b.pending.Keys) }

  function Apply(b: Bridge, op: Op): Bridge
  {
    match op
    case Registers(id, w) => Register(b, id, w)
    case Withdraws(id) => Withdraw(b, id)
    case Handles(id, key, outcome) => Handle(b, id, key, outcome)
    case DeniesAll(order) => DenyEach(b, order)
  }

  function After(b: Bridge, ops: seq<Op>): Bridge
    decreases |ops|
  {
    if ops == [] then b else After(Apply(b, ops[0]), ops[1..])
  }

  lemma {:induction false} AfterConcat(b: Bridge, xs: seq<Op>, ys: seq<Op>)
    ensures After(b, xs + ys) == After(After(b, xs), ys)
    decreases |xs|
  {
    hide Apply;
    if xs == [] {
      assert xs + ys == ys;
    } else {
      assert (xs + ys)[0] == xs[0] && (xs + ys)[1..] == xs[1..] + ys;
      AfterConcat(Apply(b, xs[0]), xs[1..], ys);
    }
  }

  // ---- Every waiter settles exactly once ----

  /** What reached one waiter, in order: a decision, or a dropped sender. */
  function Fate(notes: seq<Note>, w: nat): seq<Option<Decision>>
  {
    if notes == [] then []
    else
      var n := notes[|notes| - 1];
      Fate(notes[..|notes| - 1], w) +
      (if n.Sent? && n.waiter == w then [Some(n.decision)] else if n.Dropped? && n.waiter == w then [None] else [])
  }

  lemma FateStep(notes: seq<Note>, n: Note, w: nat)
    ensures Fate(notes + [n], w) == Fate(notes, w) +
      (if n.Sent? && n.waiter == w then [Some(n.decision)] else if n.Dropped? && n.waiter == w then [None] else [])
  {
    assert (notes + [n])[..|notes|] == notes;
  }

  /** No waiter is stored twice, and what reached a waiter depends on whether it is stored, settled or unknown. */
  ghost predicate Inv(b: Bridge, known: set<nat>)
  {
    && (forall i, j :: i in b.pending && j in b.pending && i != j ==> b.pending[i] != b.pending[j])
    && (forall i :: i in b.pending ==> b.pending[i] in known && Fate(b.notes, b.pending[i]) == [])
    && (forall w :: w in known && (forall i :: i in b.pending ==> b.pending[i] != w) ==> |Fate(b.notes, w)| == 1)
    && (forall w :: w !in known ==> Fate(b.notes, w) == [])
  }

  /** The waiter under `id` gets its one outcome and is taken out. */
  lemma SettleKeepsInv(b: Bridge, known: set<nat>, id: string, n: Note)
    requires Inv(b, known) && id in b.pending
    requires (n.Sent? || n.Dropped?) && n.waiter == b.pending[id]
    ensures Inv(b.(pending := b.pending - {id}, notes := b.notes + [n]), known)
  {
    hide Fate;
    var left, notes, w0 := b.pending - {id}, b.notes + [n], n.waiter;
    forall w | w != w0 ensures Fate(notes, w) == Fate(b.notes, w) { FateStep(b.notes, n, w); }
    assert |Fate(notes, w0)| == 1 by { FateStep(b.notes, n, w0); }
    forall i | i in left ensures left[i] in known && Fate(notes, left[i]) == [] { assert left[i] == b.pending[i] != w0; }
    forall w | w in known && (forall i :: i in left ==> left[i] != w) ensures |Fate(notes, w)| == 1 {
      if w != w0 { assert forall i :: i in b.pending ==> i == id || i in left; }
    }
    assert w0 in known;
  }

  lemma SilentKeepsInv(b: Bridge, known: set<nat>, denied: set<string>, n: Note)
    requires Inv(b, known) && !n.Sent? && !n.Dropped?
    ensures Inv(b.(denied := denied, notes := b.notes + [n]), known)
  {
    forall w ensures Fate(b.notes + [n], w) == Fate(b.notes, w) { FateStep(b.notes, n, w); }
  }

  lemma AnswerKeepsInv(b: Bridge, known: set<nat>, id: string, d: Decision)
    requires Inv(b, known)
    ensures Inv(Answer(b, id, d), known)
  {
    hide Inv;
    if id in b.pending { SettleKeepsInv(b, known, id, Sent(b.pending[id], d)); }
    else if b.watched { SilentKeepsInv(b, known, b.denied, Ignored(id)); }
  }

  lemma {:induction false} DenyEachKeepsInv(b: Bridge, known: set<nat>, order: seq<string>)
    requires Inv(b, known)
    ensures Inv(DenyEach(b, order), known)
    ensures forall id :: id in DenyEach(b, order).pending <==> id in b.pending && id !in order
    decreases |order|
  {
    hide Inv;
    if order != [] {
      AnswerKeepsInv(b, known, order[0], Deny);
      DenyEachKeepsInv(Answer(b, order[0], Deny), known, order[1..]);
    }
  }

  function Known(known: set<nat>, op: Op): set<nat> { if op.Registers? then known + {op.waiter} else known }

  lemma RegisterKeepsInv(b: Bridge, known: set<nat>, id: string, w: nat)
    requires Inv(b, known) && w !in known
    ensures Inv(Register(b, id, w), known + {w})
  {
    hide Inv, Fate;
    if id in b.pending {
      SettleKeepsInv(b, known, id, Dropped(b.pending[id]));
      RegisterFresh(b.(pending := b.pending - {id}, notes := b.notes + [Dropped(b.pending[id])]), known, id, w);
      assert (b.pending - {id})[id := w] == b.pending[id := w];
    } else {
      RegisterFresh(b, known, id, w);
    }
  }

  lemma RegisterFresh(b: Bridge, known: set<nat>, id: string, w: nat)
    requires Inv(b, known) && w !in known && id !in b.pending
    ensures Inv(b.(pending := b.pending[id := w]), known + {w})
  {
    var after := b.pending[id := w];
    assert after[id] == w;
    forall v | v in known + {w} && (forall i :: i in after ==> after[i] != v) ensures |Fate(b.notes, v)| == 1 {
      assert forall i :: i in b.pending ==> i in after && after[i] == b.pending[i];
    }
  }

  lemma StepKeepsInv(b: Bridge, known: set<nat>, op: Op)
    requires Inv(b, known) && (op.Registers? ==> op.waiter !in known)
    ensures Inv(Apply(b, op), Known(known, op))
  {
    hide Inv;
    match op
    case Registers(id, w) => RegisterKeepsInv(b, known, id, w);
    case Withdraws(id) => if id in b.pending { SettleKeepsInv(b, known, id, Dropped(b.pending[id])); }
    case Handles(id, key, outcome) =>
      if key !in b.denied {
        SilentKeepsInv(b, known, if IsRejectAlways(outcome) then b.denied + {key} else b.denied, Asked(key));
      }
      AnswerKeepsInv(Ask(b, key, outcome), known, id, Verdict(b, key, outcome));
    case DeniesAll(order) => DenyEachKeepsInv(b, known, order);
  }

  /** Every registration brings a new waiter, as every oneshot channel is made anew. */
  predicate FreshWaiters(known: set<nat>, ops: seq<Op>)
    decreases |ops|
  {
    ops == [] || ((ops[0].Registers? ==> ops[0].waiter !in known) && FreshWaiters(Known(known, ops[0]), ops[1..]))
  }

  function KnownAfter(known: set<nat>, ops: seq<Op>): set<nat>
    decreases |ops|
  {
    if ops == [] then known else KnownAfter(Known(known, ops[0]), ops[1..])
  }

  lemma {:induction false} RunKeepsInv(b: Bridge, known: set<nat>, ops: seq<Op>)
    requires Inv(b, known) && FreshWaiters(known, ops)
    ensures Inv(After(b, ops), KnownAfter(known, ops))
    ensures forall w :: w in KnownAfter(known, ops) <==> w in known || exists i :: 0 <= i < |ops| && ops[i].Registers? && ops[i].waiter == w
    decreases |ops|
  {
    hide Inv, Apply;
    if ops != [] {
      StepKeepsInv(b, known, ops[0]);
      RunKeepsInv(Apply(b, ops[0]), Known(known, ops[0]), ops[1..]);
    }
  }

  /** A bridge as it is made for a session. */
  function Fresh(watched: bool): Bridge { Bridge(map[], {}, watched, []) }

  /**
   * When a turn's drain returns, every request registered at any point before its final deny has been settled, once:
   * nobody is left waiting and nobody got two answers, however waiters, prompts and earlier turns interleaved.
   */
  lemma TurnEndSettlesEveryone(watched: bool, ops: seq<Op>, order: seq<string>)
    requires FreshWaiters({}, ops) && Enumerates(order, After(Fresh(watched), ops).pending.Keys)
    ensures var end := After(Fresh(watched), ops + [DeniesAll(order)]);
      && end.pending == map[]
      && forall i :: 0 <= i < |ops| && ops[i].Registers? ==> |Fate(end.notes, ops[i].waiter)| == 1
  {
    var b := After(Fresh(watched), ops);
    AfterConcat(Fresh(watched), ops, [DeniesAll(order)]);
    RunKeepsInv(Fresh(watched), {}, ops);
    DenyEachKeepsInv(b, KnownAfter({}, ops), order);
    assert After(b, [DeniesAll(order)]) == DenyEach(b, order);
  }

  /** The steps that can take the sender stored under `id` out of the map. */
  predicate Settles(op: Op, id: string) { op.DeniesAll? || op.id == id }

  /** What the waiter under `id` gets from the step that takes its sender out. */
  function Settlement(b: Bridge, op: Op): Option<Decision>
  {
    match op
    case Handles(_, key, outcome) => Some(Verdict(b, key, outcome))
    case DeniesAll(_) => Some(Deny)
    case _ => None
  }

  lemma {:induction false} DenyEachLeaves(b: Bridge, order: seq<string>, w: nat)
    requires forall i :: i in b.pending ==> b.pending[i] != w
    ensures Fate(DenyEach(b, order).notes, w) == Fate(b.notes, w)
    decreases |order|
  {
    hide Fate;
    if order != [] {
      var next := Answer(b, order[0], Deny);
      if next.notes != b.notes { FateStep(b.notes, next.notes[|b.notes|], w); assert next.notes == b.notes + [next.notes[|b.notes|]]; }
      DenyEachLeaves(next, order[1..], w);
    }
  }

  lemma {:induction false} DenyEachReaches(b: Bridge, known: set<nat>, order: seq<string>, id: string)
    requires Inv(b, known) && id in b.pending && id in order
    ensures Fate(DenyEach(b, order).notes, b.pending[id]) == [Some(Deny)]
    decreases |order|
  {
    var w := b.pending[id];
    var next := Answer(b, order[0], Deny);
    AnswerKeepsInv(b, known, order[0], Deny);
    if order[0] == id {
      FateStep(b.notes, Sent(w, Deny), w);
      DenyEachLeaves(next, order[1..], w);
    } else {
      DenyEachReaches(next, known, order[1..], id);
    }
  }

  lemma SettlingStep(b: Bridge, known: set<nat>, id: string, op: Op)
    requires Inv(b, known) && id in b.pending && Settles(op, id) && Possible(b, op)
    ensures Fate(Apply(b, op).notes, b.pending[id]) == [Settlement(b, op)]
  {
    hide Fate;
    var w := b.pending[id];
    match op
    case Registers(_, _) => FateStep(b.notes, Dropped(w), w);
    case Withdraws(_) => FateStep(b.notes, Dropped(w), w);
    case Handles(_, key, outcome) =>
      var asked := Ask(b, key, outcome);
      if key !in b.denied { FateStep(b.notes, Asked(key), w); }
      FateStep(asked.notes, Sent(w, Verdict(b, key, outcome)), w);
    case DeniesAll(order) => DenyEachReaches(b, known, order, id);
  }

  lemma {:induction false} UntouchedStays(b: Bridge, ops: seq<Op>, id: string)
    requires id in b.pending
    requires forall i :: 0 <= i < |ops| ==> !Settles(ops[i], id)
    ensures id in After(b, ops).pending && After(b, ops).pending[id] == b.pending[id]
    decreases |ops|
  {
    if ops != [] { UntouchedStays(Apply(b, ops[0]), ops[1..], id); }
  }

  lemma {:induction false} DenyEachAddsNotes(b: Bridge, order: seq<string>)
    ensures b.notes <= DenyEach(b, order).notes
    decreases |order|
  {
    if order != [] { DenyEachAddsNotes(Answer(b, order[0], Deny), order[1..]); }
  }

  lemma {:induction false} NotesGrow(b: Bridge, ops: seq<Op>)
    ensures b.notes <= After(b, ops).notes
    decreases |ops|
  {
    if ops != [] {
      if ops[0].DeniesAll? { DenyEachAddsNotes(b, ops[0].order); }
      NotesGrow(Apply(b, ops[0]), ops[1..]);
    }
  }

  lemma {:induction false} FateGrows(notes: seq<Note>, more: seq<Note>, w: nat)
    ensures Fate(notes, w) <= Fate(notes + more, w)
    decreases |more|
  {
    if more == [] {
      assert notes + more == notes;
    } else {
      var init := more[..|more| - 1];
      FateGrows(notes, init, w);
      FateStep(notes + init, more[|more| - 1], w);
      assert notes + init + [more[|more| - 1]] == notes + more;
    }
  }

  /** A waiter whose sender is stored gets what the settling step gives it, and nothing after that. */
  lemma StoredWaiterSettles(b: Bridge, known: set<nat>, id: string, settler: Op, later: seq<Op>)
    requires Inv(b, known) && id in b.pending && Settles(settler, id) && Possible(b, settler)
    requires FreshWaiters(known, [settler] + later)
    ensures Fate(After(Apply(b, settler), later).notes, b.pending[id]) == [Settlement(b, settler)]
  {
    hide Inv, Fate, Possible, Settlement;
    var w := b.pending[id];
    SettlingStep(b, known, id, settler);
    assert ([settler] + later)[1..] == later;
    StepKeepsInv(b, known, settler);
    var b1, k1 := Apply(b, settler), Known(known, settler);
    RunKeepsInv(b1, k1, later);
    NotesGrow(b1, later);
    var end := After(b1, later);
    FateGrows(b1.notes, end.notes[|b1.notes|..], w);
    assert b1.notes + end.notes[|b1.notes|..] == end.notes;
    FateIsShort(end, KnownAfter(k1, later), w);
  }

  /**
   * The first step after its registration that touches a request decides it, and nothing later changes that: the
   * client's own choice (or the remembered denial) when that step is the bridge handling it, a denial when it is the
   * end of a turn, and no decision at all when the waiter withdrew or its id was registered anew.
   */
  lemma FirstSettlerDecides(b: Bridge, known: set<nat>, id: string, w: nat, quiet: seq<Op>, settler: Op, later: seq<Op>)
    requires Inv(b, known)
    requires FreshWaiters(known, [Registers(id, w)] + quiet + [settler] + later)
    requires forall i :: 0 <= i < |quiet| ==> !Settles(quiet[i], id)
    requires Settles(settler, id) && Possible(After(Register(b, id, w), quiet), settler)
    ensures var before := After(Register(b, id, w), quiet);
      Fate(After(Apply(before, settler), later).notes, w) == [Settlement(before, settler)]
  {
    hide Inv, Fate, Possible, Settlement;
    var all := [Registers(id, w)] + quiet + [settler] + later;
    var b1, k1 := Register(b, id, w), known + {w};
    StepKeepsInv(b, known, all[0]);
    assert Apply(b, all[0]) == b1;
    assert all[1..] == quiet + ([settler] + later);
    FreshSplit(k1, quiet, [settler] + later);
    RunKeepsInv(b1, k1, quiet);
    UntouchedStays(b1, quiet, id);
    StoredWaiterSettles(After(b1, quiet), KnownAfter(k1, quiet), id, settler, later);
  }

  lemma FateIsShort(b: Bridge, known: set<nat>, w: nat)
    requires Inv(b, known)
    ensures |Fate(b.notes, w)| <= 1
  {
  }

  lemma {:induction false} FreshSplit(known: set<nat>, xs: seq<Op>, ys: seq<Op>)
    requires FreshWaiters(known, xs + ys)
    ensures FreshWaiters(known, xs) && FreshWaiters(KnownAfter(known, xs), ys)
    decreases |xs|
  {
    if xs == [] {
      assert xs + ys == ys;
    } else {
      assert (xs + ys)[1..] == xs[1..] + ys;
      FreshSplit(Known(known, xs[0]), xs[1..], ys);
    }
  }

  lemma {:induction false} FreshWithDeny(known: set<nat>, ops: seq<Op>, order: seq<string>)
    requires FreshWaiters(known, ops)
    ensures FreshWaiters(known, ops + [DeniesAll(order)])
    decreases |ops|
  {
    var all := ops + [DeniesAll(order)];
    if ops != [] {
      assert all[0] == ops[0] && all[1..] == ops[1..] + [DeniesAll(order)];
      FreshWithDeny(Known(known, ops[0]), ops[1..], order);
    } else {
      assert all[1..] == [];
    }
  }

  // ---- "Reject always" ----

  lemma {:induction false} DenyEachKeepsDenied(b: Bridge, order: seq<string>)
    ensures DenyEach(b, order).denied == b.denied && DenyEach(b, order).watched == b.watched
    decreases |order|
  {
    if order != [] { DenyEachKeepsDenied(Answer(b, order[0], Deny), order[1..]); }
  }

  /** The client answered an earlier prompt for the key with the option that rejects it for good. */
  predicate RejectedForGood(ops: seq<Op>, key: string)
  {
    exists i :: 0 <= i < |ops| && ops[i].Handles? && ops[i].key == key && ops[i].outcome == Selected("reject-always")
  }

  /** The deny set only grows, and holds exactly the keys for which the client once chose "reject always". */
  lemma {:induction false} DeniedIffRejectedAlways(b: Bridge, ops: seq<Op>, key: string)
    ensures key in After(b, ops).denied <==> key in b.denied || RejectedForGood(ops, key)
    ensures After(b, ops).watched == b.watched
    decreases |ops|
  {
    if ops != [] {
      var next := Apply(b, ops[0]);
      if ops[0].DeniesAll? { DenyEachKeepsDenied(b, ops[0].order); }
      DeniedIffRejectedAlways(next, ops[1..], key);
      if RejectedForGood(ops, key) {
        var i :| 0 <= i < |ops| && ops[i].Handles? && ops[i].key == key && ops[i].outcome == Selected("reject-always");
        assert i > 0 ==> ops[i] == ops[1..][i - 1];
      }
      assert forall j :: 0 <= j < |ops| - 1 ==> ops[1..][j] == ops[j + 1];
    }
  }

  /**
   * The client is prompted for a key exactly as long as it has not rejected it for good: after that every request
   * with the key is denied unseen, whatever the client would have answered. Handling a request leaves one more note,
   * for its waiter or, where somebody watches, about the missing one.
   */
  lemma RejectAlwaysIsRemembered(ops: seq<Op>, watched: bool, id: string, key: string, outcome: Outcome)
    ensures var b := After(Fresh(watched), ops);
      var rejected := RejectedForGood(ops, key);
      var decision := if !rejected && outcome == Selected("allow-once") then AllowOnce
        else if !rejected && outcome == Selected("allow-always") then AllowAlways else Deny;
      Apply(b, Handles(id, key, outcome)).notes == b.notes + (if rejected then [] else [Asked(key)]) +
        if id in b.pending then [Sent(b.pending[id], decision)] else if watched then [Ignored(id)] else []
  {
    DeniedIffRejectedAlways(Fresh(watched), ops, key);
  }

  /**
   * What the client's answer means to the waiter, over every run. A waiter is allowed once (always) exactly when the
   * step that settled it asked the client and the client selected "allow-once" ("allow-always"); it gets nothing when
   * it withdrew or was replaced; and in every other case it is denied: by a cancelled prompt, by either reject option,
   * by an unknown option, for a key rejected for good, or at the end of a turn.
   */
  lemma WaiterGetsTheClientsChoice(
      watched: bool, before: seq<Op>, id: string, w: nat, quiet: seq<Op>, settler: Op, later: seq<Op>)
    requires FreshWaiters({}, before + ([Registers(id, w)] + quiet + [settler] + later))
    requires forall i :: 0 <= i < |quiet| ==> !Settles(quiet[i], id)
    requires Settles(settler, id) && Possible(After(Fresh(watched), before + ([Registers(id, w)] + quiet)), settler)
    ensures var past := before + ([Registers(id, w)] + quiet);
      var fate := Fate(After(Fresh(watched), past + ([settler] + later)).notes, w);
      var asked := settler.Handles? && !RejectedForGood(past, settler.key);
      && (fate == [Some(AllowOnce)] <==> asked && settler.outcome == Selected("allow-once"))
      && (fate == [Some(AllowAlways)] <==> asked && settler.outcome == Selected("allow-always"))
      && (fate == [None] <==> settler.Registers? || settler.Withdraws?)
      && (fate == [Some(AllowOnce)] || fate == [Some(AllowAlways)] || fate == [None] || fate == [Some(Deny)])
  {
    hide Inv, Fate, FreshWaiters, RejectedForGood, Possible;
    var made, register := Fresh(watched), [Registers(id, w)];
    var past := before + (register + quiet);
    assert FreshWaiters({}, before + (register + quiet + [settler] + later));
    FreshSplit({}, before, register + quiet + [settler] + later);
    FreshIsInOrder(watched);
    RunKeepsInv(made, {}, before);
    var b := After(made, before);
    AfterConcat(made, before, register + quiet);
    AfterConcat(b, register, quiet);
    assert After(b, register) == Register(b, id, w);
    FirstSettlerDecides(b, KnownAfter({}, before), id, w, quiet, settler, later);
    var mid := After(Register(b, id, w), quiet);
    AfterConcat(made, past, [settler] + later);
    assert ([settler] + later)[1..] == later;
    if settler.Handles? { DeniedIffRejectedAlways(made, past, settler.key); }
  }

  lemma FreshIsInOrder(watched: bool)
    ensures Inv(Fresh(watched), {})
  {
  }
}
