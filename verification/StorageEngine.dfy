/** The storage engine: one thread that runs the units of many callers, and the handle whose drop waits for it. */
module StorageEngine {
  import opened Options

  /** What running a unit does: a new database and an output, or a panic that leaves some database behind. */
  datatype Effect<Db, Out> = Done(db: Db, output: Out) | Panicked(db: Db)

  /** A submitted unit; `call` numbers the call, each of which has a reply channel of its own. */
  datatype Ticket<W> = Ticket(call: nat, work: W)

  /** What a call returns: the unit's output, or that the engine is gone, or that it stopped before answering. */
  datatype Answer<Out> = Replied(output: Out) | EngineClosed | EngineStopped

  /** `open` while the handle holds the inbox, `alive` while the engine thread runs; `delivered` and `ran` keep the record. */
  datatype Engine<Db, W, Out> = Engine(db: Db, open: bool, alive: bool, crashed: bool, queue: seq<Ticket<W>>,
                                       answers: map<nat, Answer<Out>>, delivered: seq<Ticket<W>>, ran: nat)

  type Runner<!Db, !W, Out> = (Db, W) -> Effect<Db, Out>

  function Opened<Db, W, Out>(db: Db): Engine<Db, W, Out> { Engine(db, true, true, false, [], map[], [], 0) }

  /** A call hands its unit to the inbox, which takes it while both ends are there. */
  function Submit<Db, W, Out>(e: Engine<Db, W, Out>, t: Ticket<W>): Engine<Db, W, Out>
  {
    if e.open && e.alive then e.(queue := e.queue + [t], delivered := e.delivered + [t])
    else e.(answers := e.answers[t.call := EngineClosed])
  }

  /** All these calls find their reply channel closed. */
  function Stop<W, Out>(answers: map<nat, Answer<Out>>, queue: seq<Ticket<W>>): map<nat, Answer<Out>>
    decreases |queue|
  {
    if queue == [] then answers else Stop(answers[queue[0].call := EngineStopped], queue[1..])
  }

  /** The engine thread runs the unit at the head; a panic ends the thread, and the units behind it are dropped. */
  function Serve<Db, W, Out>(run: Runner<Db, W, Out>, e: Engine<Db, W, Out>): Engine<Db, W, Out>
    requires e.queue != []
  {
    var t := e.queue[0];
    match run(e.db, t.work)
    case Done(db, output) => e.(db := db, queue := e.queue[1..], answers := e.answers[t.call := Replied(output)], ran := e.ran + 1)
    case Panicked(db) => e.(db := db, queue := [], answers := Stop(e.answers, e.queue), ran := e.ran + 1, alive := false, crashed := true)
  }

  /** The engine thread ends when the inbox is gone and empty. */
  function Leave<Db, W, Out>(e: Engine<Db, W, Out>): Engine<Db, W, Out> { e.(alive := false) }

  datatype Step<W> = Submits(t: Ticket<W>) | Serves | Closes | Leaves

  predicate Possible<Db, W, Out>(e: Engine<Db, W, Out>, s: Step<W>, known: set<nat>)
  {
    match s
    case Submits(t) => t.call !in known
    case Serves => e.alive && e.queue != []
    case Closes => true
    case Leaves => e.alive && e.queue == [] && !e.open
  }

  function Apply<Db, W, Out>(run: Runner<Db, W, Out>, e: Engine<Db, W, Out>, s: Step<W>): Engine<Db, W, Out>
  {
    match s
    case Submits(t) => Submit(e, t)
    case Serves => if e.queue == [] then e else Serve(run, e)
    case Closes => e.(open := false)
    case Leaves => Leave(e)
  }

  function Calls<W>(known: set<nat>, s: Step<W>): set<nat> { if s.Submits? then known + {s.t.call} else known }

  function After<Db, W, Out>(run: Runner<Db, W, Out>, e: Engine<Db, W, Out>, steps: seq<Step<W>>): Engine<Db, W, Out>
    decreases |steps|
  {
    if steps == [] then e else After(run, Apply(run, e, steps[0]), steps[1..])
  }

  /** Any interleaving of callers, engine thread and drop, in which every call is a new one. */
  predicate Runs<Db, W, Out>(run: Runner<Db, W, Out>, e: Engine<Db, W, Out>, known: set<nat>, steps: seq<Step<W>>)
    decreases |steps|
  {
    steps == [] || (Possible(e, steps[0], known) && Runs(run, Apply(run, e, steps[0]), Calls(known, steps[0]), steps[1..]))
  }

  function CallsAfter<W>(known: set<nat>, steps: seq<Step<W>>): set<nat>
    decreases |steps|
  {
    if steps == [] then known else CallsAfter(Calls(known, steps[0]), steps[1..])
  }

  // ---- The handle and its engine ----

  class Storage<Db(==), W(==), Out(==)> {
    const run: Runner<Db, W, Out>
    var db: Db
    var inbox: bool
    var worker: bool
    var crashed: bool
    var queue: seq<Ticket<W>>
    var answers: map<nat, Answer<Out>>
    ghost var delivered: seq<Ticket<W>>
    ghost var ran: nat

    ghost function Value(): Engine<Db, W, Out> reads this
    {
      Engine(db, inbox, worker, crashed, queue, answers, delivered, ran)
    }

    constructor (run: Runner<Db, W, Out>, db: Db)
      ensures Value() == Opened(db) && this.run == run
    {
      this.run, this.db := run, db;
      inbox, worker, crashed, queue, answers, delivered, ran := true, true, false, [], map[], [], 0;
    }

    /** Hands a unit to the inbox; an error leaves the caller with `EngineClosed`. */
    method Deliver(t: Ticket<W>) returns (r: Result<(), Answer<Out>>)
      modifies this
      ensures Value() == Submit(old(Value()), t)
      ensures r.Ok? <==> old(inbox) && old(worker)
    {
      if !inbox || !worker {
        answers := answers[t.call := EngineClosed];
        return Err(EngineClosed);
      }
      queue := queue + [t];
      delivered := delivered + [t];
      r := Ok(());
    }

    method RunUnit()
      requires queue != []
      modifies this
      ensures Value() == Serve(run, old(Value()))
    {
      var unit := queue[0];
      ran := ran + 1;
      match run(db, unit.work)
      case Done(next, output) =>
        db, queue := next, queue[1..];
        answers := answers[unit.call := Replied(output)];
      case Panicked(next) =>
        db := next;
        ghost var all := queue;
        ghost var was := answers;
        while queue != []
          modifies `answers, `queue
          invariant Stop(answers, queue) == Stop(was, all)
          decreases |queue|
        {
          answers := answers[queue[0].call := EngineStopped];
          queue := queue[1..];
        }
        worker, crashed := false, true;
    }

    /** Dropping the handle closes the inbox and joins the engine thread, which first runs what is queued. */
    method Drop()
      modifies this
      ensures Value() == Drained(run, old(Value()).(open := false))
      ensures !worker
    {
      inbox := false;
      ghost var closed := Value();
      while worker && queue != []
        invariant Drained(run, Value()) == Drained(run, closed)
        decreases worker, |queue|
      {
        RunUnit();
      }
      worker := false;
    }
  }

  /** The closed engine's thread runs until its queue is empty or a unit panics. */
  function Drained<Db, W, Out>(run: Runner<Db, W, Out>, e: Engine<Db, W, Out>): Engine<Db, W, Out>
    decreases e.alive, |e.queue|
  {
    if !e.alive then e else if e.queue == [] then Leave(e) else Drained(run, Serve(run, e))
  }

  // ---- What every interleaving keeps ----

  /** The database after the units have run one after the other. */
  function Fold<Db, W, Out>(run: Runner<Db, W, Out>, db: Db, ts: seq<Ticket<W>>): Db
  {
    if ts == [] then db else run(Fold(run, db, ts[..|ts| - 1]), ts[|ts| - 1].work).db
  }

  /** What the unit at position `i` does when its predecessors have run. */
  function EffectAt<Db, W, Out>(run: Runner<Db, W, Out>, db: Db, ts: seq<Ticket<W>>, i: nat): Effect<Db, Out>
    requires i < |ts|
  {
    run(Fold(run, db, ts[..i]), ts[i].work)
  }

  /** The record: what has run is a prefix of what was delivered, and the queue is the rest. */
  ghost predicate Linear<Db, W, Out>(run: Runner<Db, W, Out>, init: Db, e: Engine<Db, W, Out>)
  {
    && e.ran <= |e.delivered|
    && e.db == Fold(run, init, e.delivered[..e.ran])
    && (e.alive ==> !e.crashed && e.queue == e.delivered[e.ran..])
    && (!e.alive ==> e.queue == [] && (e.crashed || (!e.open && e.ran == |e.delivered|)))
    && (forall i :: 0 <= i < e.ran ==> (EffectAt(run, init, e.delivered, i).Panicked? <==> e.crashed && i == e.ran - 1))
    && (e.crashed ==> e.ran > 0)
  }

  predicate CallsAreKnown<Db, W, Out>(e: Engine<Db, W, Out>, known: set<nat>)
  {
    && (forall i, j :: 0 <= i < j < |e.delivered| ==> e.delivered[i].call != e.delivered[j].call)
    && (forall i :: 0 <= i < |e.delivered| ==> e.delivered[i].call in known)
    && (forall k :: k in e.answers ==> k in known)
  }

  ghost predicate RanAreReplied<Db, W, Out>(run: Runner<Db, W, Out>, init: Db, e: Engine<Db, W, Out>)
    requires e.ran <= |e.delivered|
  {
    forall i :: 0 <= i < e.ran && EffectAt(run, init, e.delivered, i).Done? ==>
      e.delivered[i].call in e.answers && e.answers[e.delivered[i].call] == Replied(EffectAt(run, init, e.delivered, i).output)
  }

  ghost predicate RestWaitOrStopped<Db, W, Out>(run: Runner<Db, W, Out>, init: Db, e: Engine<Db, W, Out>)
    requires e.ran <= |e.delivered|
  {
    forall i :: 0 <= i < |e.delivered| && (i >= e.ran || EffectAt(run, init, e.delivered, i).Panicked?) ==>
      if e.alive then e.delivered[i].call !in e.answers
      else e.delivered[i].call in e.answers && e.answers[e.delivered[i].call] == EngineStopped
  }

  ghost predicate OthersWereRefused<Db, W, Out>(e: Engine<Db, W, Out>, known: set<nat>)
  {
    forall k :: k in known && (forall i :: 0 <= i < |e.delivered| ==> e.delivered[i].call != k) ==>
      k in e.answers && e.answers[k] == EngineClosed
  }

  /** The calls: each has at most one answer, and which one depends on whether and how its unit ran. */
  ghost predicate Answered<Db, W, Out>(run: Runner<Db, W, Out>, init: Db, e: Engine<Db, W, Out>, known: set<nat>)
    requires e.ran <= |e.delivered|
  {
    CallsAreKnown(e, known) && RanAreReplied(run, init, e) && RestWaitOrStopped(run, init, e) && OthersWereRefused(e, known)
  }

  ghost predicate Inv<Db, W, Out>(run: Runner<Db, W, Out>, init: Db, e: Engine<Db, W, Out>, known: set<nat>)
  {
    Linear(run, init, e) && Answered(run, init, e, known)
  }

  lemma EffectOfPrefix<Db, W, Out>(run: Runner<Db, W, Out>, init: Db, ts: seq<Ticket<W>>, t: Ticket<W>)
    ensures forall i :: 0 <= i < |ts| ==> EffectAt(run, init, ts + [t], i) == EffectAt(run, init, ts, i)
    ensures EffectAt(run, init, ts + [t], |ts|) == run(Fold(run, init, ts), t.work)
  {
    forall i | 0 <= i < |ts| ensures EffectAt(run, init, ts + [t], i) == EffectAt(run, init, ts, i) {
      assert (ts + [t])[..i] == ts[..i];
    }
    assert (ts + [t])[..|ts|] == ts;
  }

  lemma SubmitKeepsInv<Db, W, Out>(
      run: Runner<Db, W, Out>, init: Db, e: Engine<Db, W, Out>, known: set<nat>, t: Ticket<W>)
    requires Inv(run, init, e, known) && t.call !in known
    ensures Inv(run, init, Submit(e, t), known + {t.call})
  {
    hide EffectAt, Fold;
    if e.open && e.alive {
      EffectOfPrefix(run, init, e.delivered, t);
      assert (e.delivered + [t])[..e.ran] == e.delivered[..e.ran];
      assert (e.delivered + [t])[e.ran..] == e.delivered[e.ran..] + [t];
      var d := e.delivered + [t];
      assert d[|e.delivered|] == t;
      forall k | k in known + {t.call} && (forall i :: 0 <= i < |d| ==> d[i].call != k) ensures k in e.answers && e.answers[k] == EngineClosed {
        assert forall i :: 0 <= i < |e.delivered| ==> d[i] == e.delivered[i];
      }
    }
  }

  lemma {:induction false} StopAnswers<W, Out>(answers: map<nat, Answer<Out>>, queue: seq<Ticket<W>>, k: nat)
    ensures (exists i :: 0 <= i < |queue| && queue[i].call == k) ==> k in Stop(answers, queue) && Stop(answers, queue)[k] == EngineStopped
    ensures (forall i :: 0 <= i < |queue| ==> queue[i].call != k) ==>
      (k in Stop(answers, queue) <==> k in answers) && (k in answers ==> Stop(answers, queue)[k] == answers[k])
    decreases |queue|
  {
    if queue != [] {
      var next := answers[queue[0].call := EngineStopped];
      StopAnswers(next, queue[1..], k);
      assert forall i :: 0 < i < |queue| ==> queue[i] == queue[1..][i - 1];
      if (exists i :: 0 <= i < |queue| && queue[i].call == k) && queue[0].call != k {
        var i :| 0 <= i < |queue| && queue[i].call == k;
        assert queue[1..][i - 1].call == k;
      }
    }
  }

  /** The unit at the head of the queue is the next one in delivery order. */
  lemma ServedNext<Db, W, Out>(run: Runner<Db, W, Out>, init: Db, e: Engine<Db, W, Out>)
    requires Linear(run, init, e) && e.alive && e.queue != []
    ensures e.ran < |e.delivered| && e.queue[0] == e.delivered[e.ran]
    ensures EffectAt(run, init, e.delivered, e.ran) == run(e.db, e.queue[0].work)
    ensures Fold(run, init, e.delivered[..e.ran + 1]) == run(e.db, e.queue[0].work).db
    ensures e.queue[1..] == e.delivered[e.ran + 1..]
  {
    assert e.delivered[..e.ran + 1][..e.ran] == e.delivered[..e.ran];
  }

  lemma ServeKeepsLinear<Db, W, Out>(run: Runner<Db, W, Out>, init: Db, e: Engine<Db, W, Out>)
    requires Linear(run, init, e) && e.alive && e.queue != []
    ensures Linear(run, init, Serve(run, e))
  {
    hide EffectAt, Fold;
    ServedNext(run, init, e);
  }

  lemma DoneKeepsReplies<Db, W, Out>(run: Runner<Db, W, Out>, init: Db, e: Engine<Db, W, Out>, known: set<nat>)
    requires Inv(run, init, e, known) && e.alive && e.queue != [] && run(e.db, e.queue[0].work).Done?
    ensures Serve(run, e).ran <= |e.delivered| && RanAreReplied(run, init, Serve(run, e))
    ensures RestWaitOrStopped(run, init, Serve(run, e))
  {
    hide EffectAt, Fold, Stop, OthersWereRefused;
    ServedNext(run, init, e);
  }

  lemma DoneKeepsAnswered<Db, W, Out>(run: Runner<Db, W, Out>, init: Db, e: Engine<Db, W, Out>, known: set<nat>)
    requires Inv(run, init, e, known) && e.alive && e.queue != [] && run(e.db, e.queue[0].work).Done?
    ensures Serve(run, e).ran <= |e.delivered| && Answered(run, init, Serve(run, e), known)
  {
    hide EffectAt, Fold, Stop, RanAreReplied, RestWaitOrStopped;
    DoneKeepsReplies(run, init, e, known);
    ServedNext(run, init, e);
  }

  /** Stopping changes the answers of the queued calls and of nobody else. */
  lemma StopOfQueue<Db, W, Out>(e: Engine<Db, W, Out>, k: nat)
    requires e.ran <= |e.delivered| && e.queue == e.delivered[e.ran..]
    ensures (exists i :: e.ran <= i < |e.delivered| && e.delivered[i].call == k) ==>
      k in Stop(e.answers, e.queue) && Stop(e.answers, e.queue)[k] == EngineStopped
    ensures (forall i :: e.ran <= i < |e.delivered| ==> e.delivered[i].call != k) ==>
      (k in Stop(e.answers, e.queue) <==> k in e.answers) && (k in e.answers ==> Stop(e.answers, e.queue)[k] == e.answers[k])
  {
    hide Stop;
    StopAnswers(e.answers, e.queue, k);
    if i :| e.ran <= i < |e.delivered| && e.delivered[i].call == k {
      assert e.queue[i - e.ran].call == k;
    } else {
      assert forall i :: 0 <= i < |e.queue| ==> e.queue[i] == e.delivered[e.ran + i];
    }
  }

  lemma PanickedKeepsReplies<Db, W, Out>(run: Runner<Db, W, Out>, init: Db, e: Engine<Db, W, Out>, known: set<nat>)
    requires Inv(run, init, e, known) && e.alive && e.queue != [] && run(e.db, e.queue[0].work).Panicked?
    ensures Serve(run, e).ran <= |e.delivered| && RanAreReplied(run, init, Serve(run, e))
    ensures RestWaitOrStopped(run, init, Serve(run, e))
  {
    hide EffectAt, Fold, Stop, OthersWereRefused;
    ServedNext(run, init, e);
    var d, n, after := e.delivered, e.ran, Serve(run, e).answers;
    forall i | 0 <= i < n && EffectAt(run, init, d, i).Done?
      ensures d[i].call in after && after[d[i].call] == Replied(EffectAt(run, init, d, i).output)
    {
      StopOfQueue(e, d[i].call);
    }
    forall i | n <= i < |d| ensures d[i].call in after && after[d[i].call] == EngineStopped {
      StopOfQueue(e, d[i].call);
    }
  }

  lemma PanickedKeepsAnswered<Db, W, Out>(run: Runner<Db, W, Out>, init: Db, e: Engine<Db, W, Out>, known: set<nat>)
    requires Inv(run, init, e, known) && e.alive && e.queue != [] && run(e.db, e.queue[0].work).Panicked?
    ensures Serve(run, e).ran <= |e.delivered| && Answered(run, init, Serve(run, e), known)
  {
    hide EffectAt, Fold, Stop, RanAreReplied, RestWaitOrStopped;
    PanickedKeepsReplies(run, init, e, known);
    var d, after := e.delivered, Serve(run, e).answers;
    forall k | k in known && (forall i :: 0 <= i < |d| ==> d[i].call != k) ensures k in after && after[k] == EngineClosed {
      StopOfQueue(e, k);
    }
    forall k | k in after ensures k in known { StopOfQueue(e, k); }
  }

  lemma ServeKeepsAnswered<Db, W, Out>(run: Runner<Db, W, Out>, init: Db, e: Engine<Db, W, Out>, known: set<nat>)
    requires Inv(run, init, e, known) && e.alive && e.queue != []
    ensures Serve(run, e).ran <= |e.delivered| && Answered(run, init, Serve(run, e), known)
  {
    hide Inv, Answered, Serve, Linear;
    if run(e.db, e.queue[0].work).Done? {
      DoneKeepsAnswered(run, init, e, known);
    } else {
      PanickedKeepsAnswered(run, init, e, known);
    }
  }

  lemma StepKeepsInv<Db, W, Out>(run: Runner<Db, W, Out>, init: Db, e: Engine<Db, W, Out>, known: set<nat>, s: Step<W>)
    requires Inv(run, init, e, known) && Possible(e, s, known)
    ensures Inv(run, init, Apply(run, e, s), Calls(known, s))
  {
    hide EffectAt, Fold, Stop, Submit, Serve;
    match s
    case Submits(t) => SubmitKeepsInv(run, init, e, known, t);
    case Serves =>
      ServeKeepsLinear(run, init, e);
      ServeKeepsAnswered(run, init, e, known);
    case Closes =>
    case Leaves =>
  }

  lemma {:induction false} RunKeepsInv<Db, W, Out>(
      run: Runner<Db, W, Out>, init: Db, e: Engine<Db, W, Out>, known: set<nat>, steps: seq<Step<W>>)
    requires Inv(run, init, e, known) && Runs(run, e, known, steps)
    ensures Inv(run, init, After(run, e, steps), CallsAfter(known, steps))
    decreases |steps|
  {
    hide Inv, Apply, Possible;
    if steps != [] {
      StepKeepsInv(run, init, e, known, steps[0]);
      RunKeepsInv(run, init, Apply(run, e, steps[0]), Calls(known, steps[0]), steps[1..]);
    }
  }

  /**
   * For any number of concurrent callers, any interleaving and any moment: the database is the fold of a prefix of
   * the delivered units in delivery order, every call whose unit is in that prefix holds the output of its own unit
   * at its own point of the fold, and no unit ran twice or out of turn. A unit that panicked can only be the last one that ran.
   */
  lemma CallsAreLinearised<Db, W, Out>(run: Runner<Db, W, Out>, init: Db, steps: seq<Step<W>>)
    requires Runs(run, Opened<Db, W, Out>(init), {}, steps)
    ensures var e := After(run, Opened<Db, W, Out>(init), steps);
      && e.ran <= |e.delivered|
      && e.db == Fold(run, init, e.delivered[..e.ran])
      && (forall i :: 0 <= i < e.ran && EffectAt(run, init, e.delivered, i).Done? ==>
            e.delivered[i].call in e.answers && e.answers[e.delivered[i].call] == Replied(EffectAt(run, init, e.delivered, i).output))
      && (forall i :: 0 <= i < e.ran && EffectAt(run, init, e.delivered, i).Panicked? ==> e.crashed && i == e.ran - 1)
  {
    hide EffectAt, Fold;
    OpenedInv(run, init);
    RunKeepsInv(run, init, Opened<Db, W, Out>(init), {}, steps);
  }

  lemma OpenedInv<Db, W, Out>(run: Runner<Db, W, Out>, init: Db)
    ensures Inv(run, init, Opened<Db, W, Out>(init), {})
  {
  }

  // ---- Which calls are served ----

  /** The handle is still there after the first `k` steps. */
  predicate Held<W>(steps: seq<Step<W>>, k: nat)
    requires k <= |steps|
  {
    forall j :: 0 <= j < k ==> !steps[j].Closes?
  }

  /** The tickets submitted by the first `k` steps before the handle was dropped and while no unit had panicked. */
  function Accepted<Db, W, Out>(run: Runner<Db, W, Out>, init: Db, steps: seq<Step<W>>, k: nat): seq<Ticket<W>>
    requires k <= |steps|
  {
    if k == 0 then []
    else
      Accepted(run, init, steps, k - 1) +
      if steps[k - 1].Submits? && Held(steps, k - 1) && !After(run, Opened<Db, W, Out>(init), steps[..k - 1]).crashed
      then [steps[k - 1].t] else []
  }

  /** How many of the first `k` steps ran a unit. */
  function Served<W>(steps: seq<Step<W>>, k: nat): nat
    requires k <= |steps|
  {
    if k == 0 then 0 else Served(steps, k - 1) + if steps[k - 1].Serves? then 1 else 0
  }

  lemma {:induction false} AfterSnoc<Db, W, Out>(
      run: Runner<Db, W, Out>, e: Engine<Db, W, Out>, known: set<nat>, steps: seq<Step<W>>, s: Step<W>)
    ensures After(run, e, steps + [s]) == Apply(run, After(run, e, steps), s)
    ensures CallsAfter(known, steps + [s]) == Calls(CallsAfter(known, steps), s)
    ensures Runs(run, e, known, steps + [s]) <==>
      Runs(run, e, known, steps) && Possible(After(run, e, steps), s, CallsAfter(known, steps))
    decreases |steps|
  {
    hide Apply, Possible;
    if steps == [] {
      assert steps + [s] == [s] && [s][1..] == [];
    } else {
      assert (steps + [s])[1..] == steps[1..] + [s];
      AfterSnoc(run, Apply(run, e, steps[0]), Calls(known, steps[0]), steps[1..], s);
    }
  }

  /** Every interleaving is covered: a new call, a unit to run, the drop, and the end of the thread may come next. */
  lemma RunsGoOn<Db, W, Out>(
      run: Runner<Db, W, Out>, e: Engine<Db, W, Out>, known: set<nat>, steps: seq<Step<W>>, s: Step<W>)
    requires Runs(run, e, known, steps)
    requires var now := After(run, e, steps);
      || (s.Submits? && s.t.call !in CallsAfter(known, steps))
      || (s.Serves? && now.alive && now.queue != [])
      || s.Closes?
      || (s.Leaves? && now.alive && now.queue == [] && !now.open)
    ensures Runs(run, e, known, steps + [s])
  {
    hide After, CallsAfter, Runs;
    AfterSnoc(run, e, known, steps, s);
  }

  /** A step ends the thread only as `Leaves` or by a panic, and changes the database only by running the head unit. */
  lemma StepRecords<Db, W, Out>(run: Runner<Db, W, Out>, e: Engine<Db, W, Out>, known: set<nat>, s: Step<W>)
    requires Possible(e, s, known)
    ensures var next := Apply(run, e, s);
      && (next.open <==> e.open && !s.Closes?)
      && next.delivered == e.delivered + (if s.Submits? && e.open && e.alive then [s.t] else [])
      && next.ran == e.ran + (if s.Serves? then 1 else 0)
      && (s.Submits? && !(e.open && e.alive) ==> s.t.call in next.answers && next.answers[s.t.call] == EngineClosed)
      && (next.alive <==> e.alive && !s.Leaves? && !(s.Serves? && run(e.db, e.queue[0].work).Panicked?))
      && next.db == (if s.Serves? then run(e.db, e.queue[0].work).db else e.db)
  {
  }

  lemma EndsOnlyClosedOrCrashed<Db, W, Out>(run: Runner<Db, W, Out>, init: Db, e: Engine<Db, W, Out>, known: set<nat>)
    requires Inv(run, init, e, known)
    ensures e.open ==> (e.alive <==> !e.crashed)
  {
  }

  /**
   * The units delivered are those submitted before the drop and before any panic, in that order, and each serving step
   * runs one unit.
   */
  lemma {:induction false} DeliveredIffBeforeDropAndPanic<Db, W, Out>(
      run: Runner<Db, W, Out>, init: Db, steps: seq<Step<W>>, k: nat)
    requires Runs(run, Opened<Db, W, Out>(init), {}, steps) && k <= |steps|
    ensures var e := After(run, Opened<Db, W, Out>(init), steps[..k]);
      (e.open <==> Held(steps, k)) && e.delivered == Accepted(run, init, steps, k) && e.ran == Served(steps, k)
    decreases k
  {
    hide Runs, Inv, Possible, Apply, After;
    var start := Opened<Db, W, Out>(init);
    if k == 0 {
      assert steps[..0] == [];
      OpenedSteps(run, init);
    } else {
      DeliveredIffBeforeDropAndPanic(run, init, steps, k - 1);
      LastStep(run, init, steps, k);
      StepRecords(run, After(run, start, steps[..k - 1]), CallsAfter({}, steps[..k - 1]), steps[k - 1]);
      EndsOnlyClosedOrCrashed(run, init, After(run, start, steps[..k - 1]), CallsAfter({}, steps[..k - 1]));
    }
  }

  lemma OpenedSteps<Db, W, Out>(run: Runner<Db, W, Out>, init: Db)
    ensures var e := After(run, Opened<Db, W, Out>(init), []); e.open && e.delivered == [] && e.ran == 0
  {
  }

  lemma LastStep<Db, W, Out>(run: Runner<Db, W, Out>, init: Db, steps: seq<Step<W>>, k: nat)
    requires Runs(run, Opened<Db, W, Out>(init), {}, steps) && 0 < k <= |steps|
    ensures var e, known := After(run, Opened<Db, W, Out>(init), steps[..k - 1]), CallsAfter({}, steps[..k - 1]);
      && Inv(run, init, e, known) && Possible(e, steps[k - 1], known)
      && After(run, Opened<Db, W, Out>(init), steps[..k]) == Apply(run, e, steps[k - 1])
  {
    hide Runs, Inv, Possible, Apply, After;
    var start := Opened<Db, W, Out>(init);
    PrefixRuns(run, start, {}, steps, k);
    assert steps[..k] == steps[..k - 1] + [steps[k - 1]];
    AfterSnoc(run, start, {}, steps[..k - 1], steps[k - 1]);
    OpenedInv(run, init);
    RunKeepsInv(run, init, start, {}, steps[..k - 1]);
  }

  /** A call made after the drop or after a panic is answered `EngineClosed`, at once and for good. */
  lemma LateCallsAreRefused<Db, W, Out>(run: Runner<Db, W, Out>, init: Db, steps: seq<Step<W>>, k: nat)
    requires Runs(run, Opened<Db, W, Out>(init), {}, steps) && 0 < k <= |steps| && steps[k - 1].Submits?
    requires !Held(steps, k - 1) || After(run, Opened<Db, W, Out>(init), steps[..k - 1]).crashed
    ensures var e, id := After(run, Opened<Db, W, Out>(init), steps), steps[k - 1].t.call;
      id in e.answers && e.answers[id] == EngineClosed
  {
    hide Runs, Inv, Possible, Apply, After;
    var start := Opened<Db, W, Out>(init);
    var e, known := After(run, start, steps[..k - 1]), CallsAfter({}, steps[..k - 1]);
    DeliveredIffBeforeDropAndPanic(run, init, steps, k - 1);
    LastStep(run, init, steps, k);
    StepRecords(run, e, known, steps[k - 1]);
    EndsOnlyClosedOrCrashed(run, init, e, known);
    StepKeepsInv(run, init, e, known, steps[k - 1]);
    assert steps == steps[..k] + steps[k..];
    RunsConcat(run, start, {}, steps[..k], steps[k..]);
    CallsSnoc({}, steps, k);
    AnswersAreFinal(run, init, After(run, start, steps[..k]), CallsAfter({}, steps[..k]), steps[k..], steps[k - 1].t.call);
  }

  lemma CallsSnoc<W>(known: set<nat>, steps: seq<Step<W>>, k: nat)
    requires 0 < k <= |steps|
    ensures CallsAfter(known, steps[..k]) == Calls(CallsAfter(known, steps[..k - 1]), steps[k - 1])
    decreases k
  {
    assert steps[..k][1..] == steps[1..][..k - 1];
    if k > 1 {
      assert steps[..k - 1][1..] == steps[1..][..k - 2];
      CallsSnoc(Calls(known, steps[0]), steps[1..], k - 1);
    }
  }

  lemma {:induction false} RunsConcat<Db, W, Out>(
      run: Runner<Db, W, Out>, e: Engine<Db, W, Out>, known: set<nat>, xs: seq<Step<W>>, ys: seq<Step<W>>)
    requires Runs(run, e, known, xs + ys)
    ensures After(run, e, xs + ys) == After(run, After(run, e, xs), ys)
    ensures Runs(run, After(run, e, xs), CallsAfter(known, xs), ys)
    decreases |xs|
  {
    hide Apply, Possible;
    if xs == [] {
      assert xs + ys == ys;
    } else {
      assert (xs + ys)[0] == xs[0] && (xs + ys)[1..] == xs[1..] + ys;
      RunsConcat(run, Apply(run, e, xs[0]), Calls(known, xs[0]), xs[1..], ys);
    }
  }

  lemma {:induction false} PrefixRuns<Db, W, Out>(
      run: Runner<Db, W, Out>, e: Engine<Db, W, Out>, known: set<nat>, steps: seq<Step<W>>, k: nat)
    requires Runs(run, e, known, steps) && k <= |steps|
    ensures Runs(run, e, known, steps[..k])
    decreases |steps|
  {
    hide Apply, Possible;
    if k > 0 {
      assert steps[..k][1..] == steps[1..][..k - 1];
      PrefixRuns(run, Apply(run, e, steps[0]), Calls(known, steps[0]), steps[1..], k - 1);
    }
  }

  /**
   * Once the drop of the handle has returned, no call is left without an answer: every delivered unit up to and
   * including the first that panics has run. The calls of the others, and no others, got `EngineStopped`.
   */
  lemma DropRunsWhatWasDelivered<Db, W, Out>(run: Runner<Db, W, Out>, init: Db, steps: seq<Step<W>>)
    requires Runs(run, Opened<Db, W, Out>(init), {}, steps)
    ensures var e := Drained(run, After(run, Opened<Db, W, Out>(init), steps).(open := false));
      && (e.crashed || e.ran == |e.delivered|)
      && (e.crashed ==> 0 < e.ran <= |e.delivered| && EffectAt(run, init, e.delivered, e.ran - 1).Panicked?)
      && (forall k :: k in CallsAfter({}, steps) ==> k in e.answers)
      && (forall i :: 0 <= i < |e.delivered| ==>
            e.delivered[i].call in e.answers &&
            (e.answers[e.delivered[i].call] == EngineStopped <==> i >= e.ran || EffectAt(run, init, e.delivered, i).Panicked?))
  {
    hide EffectAt, Fold, Drained;
    OpenedInv(run, init);
    RunKeepsInv(run, init, Opened<Db, W, Out>(init), {}, steps);
    var e, known := After(run, Opened<Db, W, Out>(init), steps), CallsAfter({}, steps);
    DrainedKeepsInv(run, init, e.(open := false), known);
    var end := Drained(run, e.(open := false));
    forall k | k in known ensures k in end.answers {
      if exists i :: 0 <= i < |end.delivered| && end.delivered[i].call == k {
        var i :| 0 <= i < |end.delivered| && end.delivered[i].call == k;
      }
    }
  }

  lemma {:induction false} DrainedKeepsInv<Db, W, Out>(
      run: Runner<Db, W, Out>, init: Db, e: Engine<Db, W, Out>, known: set<nat>)
    requires Inv(run, init, e, known) && !e.open
    ensures Inv(run, init, Drained(run, e), known) && !Drained(run, e).alive
    decreases e.alive, |e.queue|
  {
    hide EffectAt, Fold, Stop, Answered, Linear;
    if e.alive && e.queue != [] {
      ServeKeepsLinear(run, init, e);
      ServeKeepsAnswered(run, init, e, known);
      DrainedKeepsInv(run, init, Serve(run, e), known);
    } else if e.alive {
      LeaveKeepsInv(run, init, e, known);
    }
  }

  lemma LeaveKeepsInv<Db, W, Out>(run: Runner<Db, W, Out>, init: Db, e: Engine<Db, W, Out>, known: set<nat>)
    requires Inv(run, init, e, known) && e.alive && e.queue == [] && !e.open
    ensures Inv(run, init, Leave(e), known)
  {
    hide EffectAt, Fold;
  }

  /** An answer, once there, is final. */
  lemma {:induction false} AnswersAreFinal<Db, W, Out>(
      run: Runner<Db, W, Out>, init: Db, e: Engine<Db, W, Out>, known: set<nat>, steps: seq<Step<W>>, k: nat)
    requires Inv(run, init, e, known) && Runs(run, e, known, steps) && k in e.answers
    ensures k in After(run, e, steps).answers && After(run, e, steps).answers[k] == e.answers[k]
    decreases |steps|
  {
    hide EffectAt, Fold, Stop, Inv, Possible, Apply;
    if steps != [] {
      StepKeepsInv(run, init, e, known, steps[0]);
      StepKeepsAnswers(run, init, e, known, steps[0], k);
      AnswersAreFinal(run, init, Apply(run, e, steps[0]), Calls(known, steps[0]), steps[1..], k);
    }
  }

  lemma StepKeepsAnswers<Db, W, Out>(
      run: Runner<Db, W, Out>, init: Db, e: Engine<Db, W, Out>, known: set<nat>, s: Step<W>, k: nat)
    requires Inv(run, init, e, known) && Possible(e, s, known) && k in e.answers
    ensures k in Apply(run, e, s).answers && Apply(run, e, s).answers[k] == e.answers[k]
  {
    hide EffectAt, Fold, Stop;
    if s.Serves? {
      ServedNext(run, init, e);
      assert forall i :: e.ran <= i < |e.delivered| ==> e.delivered[i].call != k;
      StopOfQueue(e, k);
    }
  }
}
