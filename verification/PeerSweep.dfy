/** The peer cache under health sweeps and discovery events, interleaved in any way. */
module PeerSweep {
  import opened Options

  datatype Peer = Peer(name: string, url: string, host: string, port: nat, card: Option<string>, discoveredAt: int)

  /** The URL of the agent itself is a parameter of a sweep; three failures in a row evict. */
  const SWEEP_MAX_FAILURES := 3

  datatype PeerEvent = PeerDiscovered(peer: Peer) | PeerLost(name: string)

  function ApplyEvent(cache: map<string, Peer>, e: PeerEvent): map<string, Peer>
  {
    match e
    case PeerDiscovered(p) => cache[p.name := p]
    case PeerLost(name) => cache - {name}
  }

  // ---- The state between awaits ----

  /** A finished fetch: whose, whether it was answered, and whether it evicted. */
  datatype Fetch = Fetch(name: string, answered: bool, evicted: bool)

  /** The cache, the failure counts, the peers a sweep still has to fetch, and every fetch so far. */
  datatype Mesh = Mesh(cache: map<string, Peer>, failures: map<string, nat>, todo: seq<Peer>, fetches: seq<Fetch>)

  function Count(failures: map<string, nat>, name: string): nat { if name in failures then failures[name] else 0 }

  /** The snapshot a sweep works through: the cached peers other than the agent itself, in any order. */
  ghost predicate IsSnapshot(order: seq<Peer>, cache: map<string, Peer>, ownUrl: string)
  {
    && (forall i, j :: 0 <= i < j < |order| ==> order[i].name != order[j].name)
    && (forall p :: p in order <==> p.name in cache && cache[p.name] == p && p.url != ownUrl)
  }

  /** What the sweep does when the fetch of its next peer comes back with a card, or with an error. */
  function Fetched(m: Mesh, card: Option<string>, now: int): Mesh
    requires m.todo != []
  {
    var p := m.todo[0];
    if card.Some? then
      Mesh(m.cache[p.name := p.(card := card, discoveredAt := now)], m.failures[p.name := 0], m.todo[1..],
           m.fetches + [Fetch(p.name, true, false)])
    else
      var consecutive := Count(m.failures, p.name) + 1;
      if consecutive >= SWEEP_MAX_FAILURES then
        Mesh(m.cache - {p.name}, m.failures - {p.name}, m.todo[1..], m.fetches + [Fetch(p.name, false, true)])
      else
        Mesh(m.cache, m.failures[p.name := consecutive], m.todo[1..], m.fetches + [Fetch(p.name, false, false)])
  }

  datatype Step = Happens(e: PeerEvent) | Begins(order: seq<Peer>) | Returns(card: Option<string>, now: int)

  function Apply(m: Mesh, s: Step): Mesh
  {
    match s
    case Happens(e) => m.(cache := ApplyEvent(m.cache, e))
    case Begins(order) => m.(todo := order)
    case Returns(card, now) => if m.todo == [] then m else Fetched(m, card, now)
  }

  function After(m: Mesh, steps: seq<Step>): Mesh
  {
    if steps == [] then m else Apply(After(m, steps[..|steps| - 1]), steps[|steps| - 1])
  }

  // ---- The sweep ----

  class PeerCache {
    var peers: map<string, Peer>

    constructor ()
      ensures peers == map[]
    {
      peers := map[];
    }

    method AddOrUpdate(peer: Peer)
      modifies this
      ensures peers == old(peers)[peer.name := peer]
    {
      peers := peers[peer.name := peer];
    }

    method Remove(name: string)
      modifies this
      ensures peers == old(peers) - {name}
    {
      peers := peers - {name};
    }

    /** The cached peers in the order the hash map happens to enumerate them. */
    method List() returns (all: seq<Peer>)
      requires KeysAreNames(peers)
      ensures forall i, j :: 0 <= i < j < |all| ==> all[i].name != all[j].name
      ensures forall p :: p in all <==> p.name in peers && peers[p.name] == p
    {
      all := [];
      var left := peers.Keys;
      while left != {}
        invariant left <= peers.Keys
        invariant forall i, j :: 0 <= i < j < |all| ==> all[i].name != all[j].name
        invariant forall p :: p in all <==> p.name in peers && p.name !in left && peers[p.name] == p
        decreases |left|
      {
        var name :| name in left;
        left := left - {name};
        all := all + [peers[name]];
      }
    }

    /** Discovery events that arrive while a fetch is awaited. */
    method ApplyPeerEvents(events: seq<PeerEvent>)
      modifies this
      ensures peers == EventsApplied(old(peers), events)
    {
      for i := 0 to |events|
        invariant peers == EventsApplied(old(peers), events[..i])
      {
        assert events[..i + 1][..i] == events[..i];
        match events[i]
        case PeerDiscovered(peer) => AddOrUpdate(peer);
        case PeerLost(name) => Remove(name);
      }
      assert events[..|events|] == events;
    }
  }

  function EventsApplied(cache: map<string, Peer>, events: seq<PeerEvent>): map<string, Peer>
  {
    if events == [] then cache else ApplyEvent(EventsApplied(cache, events[..|events| - 1]), events[|events| - 1])
  }

  predicate KeysAreNames(cache: map<string, Peer>) { forall k :: k in cache ==> cache[k].name == k }

  /** What happens during the fetch of one peer: the events that arrive meanwhile, and what comes back when. */
  datatype Await = Await(events: seq<PeerEvent>, card: Option<string>, now: int)

  /** One pass over the rest of a snapshot. */
  function Swept(m: Mesh, script: Peer -> Await): Mesh
    decreases |m.todo|
  {
    if m.todo == [] then m
    else
      var a := script(m.todo[0]);
      Swept(Fetched(m.(cache := EventsApplied(m.cache, a.events)), a.card, a.now), script)
  }

  lemma SweptStep(m: Mesh, script: Peer -> Await)
    requires m.todo != []
    ensures var a := script(m.todo[0]);
      Swept(m, script) == Swept(Fetched(m.(cache := EventsApplied(m.cache, a.events)), a.card, a.now), script)
  {
    hide EventsApplied;
  }

  lemma SweptIsOver(m: Mesh, script: Peer -> Await)
    requires m.todo == []
    ensures Swept(m, script) == m
  {
  }

  method SweepPeers(cache: PeerCache, ownUrl: string, script: Peer -> Await, failures: map<string, nat>)
    returns (counts: map<string, nat>, ghost order: seq<Peer>, ghost end: Mesh)
    requires KeysAreNames(cache.peers)
    modifies cache
    ensures IsSnapshot(order, old(cache.peers), ownUrl)
    ensures end == Swept(Mesh(old(cache.peers), failures, order, []), script)
    ensures cache.peers == end.cache && counts == end.failures && end.todo == []
  {
    hide EventsApplied, Swept;
    counts := failures;
    var all := cache.List();
    var peers := Others(all, ownUrl);
    order := peers;
    ghost var m := Mesh(cache.peers, counts, peers, []);
    for i := 0 to |peers|
      invariant m.todo == peers[i..] && m.cache == cache.peers && m.failures == counts
      invariant Swept(m, script) == Swept(Mesh(old(cache.peers), failures, peers, []), script)
    {
      var peer := peers[i];
      var await := script(peer);
      SweptStep(m, script);
      ghost var before := m.(cache := EventsApplied(m.cache, await.events));
      m := Fetched(before, await.card, await.now);
      cache.ApplyPeerEvents(await.events);
      if await.card.Some? {
        counts := counts[peer.name := 0];
        cache.AddOrUpdate(Peer(peer.name, peer.url, peer.host, peer.port, await.card, await.now));
      } else {
        var consecutive := (if peer.name in counts then counts[peer.name] else 0) + 1;
        if consecutive >= SWEEP_MAX_FAILURES {
          counts := counts - {peer.name};
          cache.Remove(peer.name);
        } else {
          counts := counts[peer.name := consecutive];
        }
      }
    }
    end := m;
    SweptIsOver(m, script);
  }

  /** The listed peers that are not the agent itself. */
  method Others(all: seq<Peer>, ownUrl: string) returns (others: seq<Peer>)
    requires forall i, j :: 0 <= i < j < |all| ==> all[i].name != all[j].name
    ensures forall i, j :: 0 <= i < j < |others| ==> others[i].name != others[j].name
    ensures forall p :: p in others <==> p in all && p.url != ownUrl
  {
    others := [];
    for i := 0 to |all|
      invariant forall p :: p in others <==> p in all[..i] && p.url != ownUrl
      invariant forall j, k :: 0 <= j < k < |others| ==> others[j].name != others[k].name
    {
      if all[i].url != ownUrl {
        forall j | 0 <= j < |others| ensures others[j].name != all[i].name { assert others[j] in all[..i]; }
        others := others + [all[i]];
      }
    }
  }

  function EventSteps(events: seq<PeerEvent>): seq<Step>
  {
    if events == [] then [] else EventSteps(events[..|events| - 1]) + [Happens(events[|events| - 1])]
  }

  /** A pass is a run of single steps: each await's events, then what comes back. */
  function PassSteps(todo: seq<Peer>, script: Peer -> Await): seq<Step>
  {
    if todo == [] then []
    else
      var a := script(todo[0]);
      EventSteps(a.events) + [Returns(a.card, a.now)] + PassSteps(todo[1..], script)
  }

  lemma {:induction false} AfterConcat(m: Mesh, xs: seq<Step>, ys: seq<Step>)
    ensures After(m, xs + ys) == After(After(m, xs), ys)
  {
    if ys == [] {
      assert xs + ys == xs;
    } else {
      assert (xs + ys)[..|xs + ys| - 1] == xs + ys[..|ys| - 1];
      AfterConcat(m, xs, ys[..|ys| - 1]);
    }
  }

  lemma {:induction false} EventStepsApply(m: Mesh, events: seq<PeerEvent>)
    ensures After(m, EventSteps(events)) == m.(cache := EventsApplied(m.cache, events))
  {
    if events != [] {
      EventStepsApply(m, events[..|events| - 1]);
      assert EventSteps(events)[..|EventSteps(events)| - 1] == EventSteps(events[..|events| - 1]);
    }
  }

  /** The sweep loop does exactly these steps, so what every run keeps holds across every sweep. */
  lemma {:induction false} SweepIsARun(m: Mesh, script: Peer -> Await)
    ensures Swept(m, script) == After(m, PassSteps(m.todo, script))
    decreases |m.todo|
  {
    hide Fetched, EventsApplied;
    if m.todo != [] {
      var a := script(m.todo[0]);
      var events := EventSteps(a.events);
      var heard := m.(cache := EventsApplied(m.cache, a.events));
      EventStepsApply(m, a.events);
      AfterConcat(m, events, [Returns(a.card, a.now)]);
      assert [Returns(a.card, a.now)][..0] == [];
      assert After(heard, [Returns(a.card, a.now)]) == Apply(After(heard, []), Returns(a.card, a.now));
      FetchedDropsOne(heard, a.card, a.now);
      assert After(m, events + [Returns(a.card, a.now)]) == Fetched(heard, a.card, a.now);
      SweepIsARun(Fetched(heard, a.card, a.now), script);
      AfterConcat(m, events + [Returns(a.card, a.now)], PassSteps(m.todo[1..], script));
    }
  }

  lemma FetchedDropsOne(m: Mesh, card: Option<string>, now: int)
    requires m.todo != []
    ensures Fetched(m, card, now).todo == m.todo[1..]
  {
  }

  // ---- What every interleaving keeps ----

  /** How many fetches under the name have failed since it was last answered. */
  function Streak(fetches: seq<Fetch>, name: string): nat
  {
    if fetches == [] then 0
    else
      var f, before := fetches[|fetches| - 1], fetches[..|fetches| - 1];
      if f.name != name then Streak(before, name) else if f.answered then 0 else Streak(before, name) + 1
  }

  lemma StreakStep(fetches: seq<Fetch>, f: Fetch, name: string)
    ensures Streak(fetches + [f], name) ==
      if f.name != name then Streak(fetches, name) else if f.answered then 0 else Streak(fetches, name) + 1
  {
    assert (fetches + [f])[..|fetches|] == fetches;
  }

  /** Whether each fetch evicted exactly when it was the third, sixth, ... failure in a row under its name. */
  ghost predicate EvictionsAreEarned(fetches: seq<Fetch>)
  {
    forall i :: 0 <= i < |fetches| ==>
      (fetches[i].evicted <==> !fetches[i].answered && Streak(fetches[..i + 1], fetches[i].name) % SWEEP_MAX_FAILURES == 0)
  }

  ghost predicate Inv(m: Mesh)
  {
    && KeysAreNames(m.cache)
    && (forall n :: n in m.failures ==> m.failures[n] < SWEEP_MAX_FAILURES)
    && (forall n :: Count(m.failures, n) == Streak(m.fetches, n) % SWEEP_MAX_FAILURES)
    && EvictionsAreEarned(m.fetches)
  }

  lemma EarnedStep(fetches: seq<Fetch>, f: Fetch)
    requires EvictionsAreEarned(fetches)
    requires f.evicted <==> !f.answered && Streak(fetches + [f], f.name) % SWEEP_MAX_FAILURES == 0
    ensures EvictionsAreEarned(fetches + [f])
  {
    var all := fetches + [f];
    forall i | 0 <= i < |all|
      ensures all[i].evicted <==> !all[i].answered && Streak(all[..i + 1], all[i].name) % SWEEP_MAX_FAILURES == 0
    {
      if i < |fetches| { assert all[..i + 1] == fetches[..i + 1]; } else { assert all[..i + 1] == all; }
    }
  }

  lemma FetchedCounts(m: Mesh, card: Option<string>, now: int, n: string)
    requires m.todo != [] && Count(m.failures, n) == Streak(m.fetches, n) % SWEEP_MAX_FAILURES
    requires Count(m.failures, m.todo[0].name) == Streak(m.fetches, m.todo[0].name) % SWEEP_MAX_FAILURES
    ensures var next := Fetched(m, card, now);
      Count(next.failures, n) == Streak(next.fetches, n) % SWEEP_MAX_FAILURES
  {
    hide Streak;
    var next := Fetched(m, card, now);
    StreakStep(m.fetches, next.fetches[|m.fetches|], n);
    assert next.fetches == m.fetches + [next.fetches[|m.fetches|]];
  }

  lemma FetchedKeepsInv(m: Mesh, card: Option<string>, now: int)
    requires Inv(m) && m.todo != []
    ensures Inv(Fetched(m, card, now))
  {
    hide EvictionsAreEarned, Streak;
    var next := Fetched(m, card, now);
    var f := next.fetches[|m.fetches|];
    assert next.fetches == m.fetches + [f];
    StreakStep(m.fetches, f, f.name);
    EarnedStep(m.fetches, f);
    forall n ensures Count(next.failures, n) == Streak(next.fetches, n) % SWEEP_MAX_FAILURES {
      FetchedCounts(m, card, now, n);
    }
  }

  lemma {:induction false} RunKeepsInv(m: Mesh, steps: seq<Step>)
    requires Inv(m)
    ensures Inv(After(m, steps))
  {
    hide Inv, Fetched;
    if steps != [] {
      var before, s := After(m, steps[..|steps| - 1]), steps[|steps| - 1];
      RunKeepsInv(m, steps[..|steps| - 1]);
      if s.Returns? && before.todo != [] { FetchedKeepsInv(before, s.card, s.now); }
      if s.Happens? { EventKeepsInv(before, s.e); }
      if s.Begins? { OrderKeepsInv(before, s.order); }
    }
  }

  lemma EventKeepsInv(m: Mesh, e: PeerEvent)
    requires Inv(m)
    ensures Inv(m.(cache := ApplyEvent(m.cache, e)))
  {
  }

  lemma OrderKeepsInv(m: Mesh, order: seq<Peer>)
    requires Inv(m)
    ensures Inv(m.(todo := order))
  {
  }

  function Idle(cache: map<string, Peer>): Mesh { Mesh(cache, map[], [], []) }

  /** Whether each fetch under the name was answered, in order. */
  function Answers(fetches: seq<Fetch>, name: string): seq<bool>
  {
    if fetches == [] then []
    else
      Answers(fetches[..|fetches| - 1], name) + if fetches[|fetches| - 1].name == name then [fetches[|fetches| - 1].answered] else []
  }

  lemma {:induction false} StreakIsTheTail(fetches: seq<Fetch>, name: string)
    ensures var a := Answers(fetches, name);
      Streak(fetches, name) <= |a| && forall i :: |a| - Streak(fetches, name) <= i < |a| ==> !a[i]
  {
    if fetches != [] { StreakIsTheTail(fetches[..|fetches| - 1], name); }
  }

  lemma {:induction false} AnswersOfPrefix(fetches: seq<Fetch>, k: nat, name: string)
    requires k <= |fetches|
    ensures Answers(fetches[..k], name) <= Answers(fetches, name)
    decreases |fetches|
  {
    if k == |fetches| {
      assert fetches[..k] == fetches;
    } else {
      assert fetches[..|fetches| - 1][..k] == fetches[..k];
      AnswersOfPrefix(fetches[..|fetches| - 1], k, name);
    }
  }

  /** Three fetches in a row without an answer. */
  predicate DeadWindow(
      answers: seq<bool>, k: nat) { k + 3 <= |answers| && !answers[k] && !answers[k + 1] && !answers[k + 2] }

  /** Behind every eviction are three fetches in a row, under that name, that were not answered. */
  ghost predicate EvictedWereDead(fetches: seq<Fetch>)
  {
    forall i :: 0 <= i < |fetches| && fetches[i].evicted ==> exists k: nat :: DeadWindow(Answers(fetches, fetches[i].name), k)
  }

  /**
   * In every interleaving of sweeps and discovery events: counts stay below three between steps, every peer is cached
   * under its own name, a fetch evicts exactly when it is the third (sixth, ...) failure in a row under its name, and
   * so a peer that answers one of any three consecutive fetches is never swept out.
   */
  lemma SweepsEvictOnlyTheDead(cache: map<string, Peer>, steps: seq<Step>)
    requires KeysAreNames(cache)
    ensures var m := After(Idle(cache), steps);
      && KeysAreNames(m.cache)
      && (forall n :: n in m.failures ==> m.failures[n] < SWEEP_MAX_FAILURES)
      && EvictionsAreEarned(m.fetches)
      && EvictedWereDead(m.fetches)
  {
    hide After, Streak, Answers;
    RunKeepsInv(Idle(cache), steps) by { IdleInv(cache); }
    var m := After(Idle(cache), steps);
    EarnedWereDead(m.fetches);
  }

  lemma EarnedWereDead(fetches: seq<Fetch>)
    requires EvictionsAreEarned(fetches)
    ensures EvictedWereDead(fetches)
  {
    hide EvictionsAreEarned, Answers, DeadWindow;
    forall i | 0 <= i < |fetches| && fetches[i].evicted ensures exists k: nat :: DeadWindow(Answers(fetches, fetches[i].name), k) {
      EvictedWasDead(fetches, i);
    }
  }

  lemma IdleInv(cache: map<string, Peer>)
    requires KeysAreNames(cache)
    ensures Inv(Idle(cache))
  {
  }

  lemma EvictedWasDead(fetches: seq<Fetch>, i: nat)
    requires EvictionsAreEarned(fetches) && i < |fetches| && fetches[i].evicted
    ensures exists k: nat :: DeadWindow(Answers(fetches, fetches[i].name), k)
  {
    hide EvictionsAreEarned, Answers;
    EvictionMeansThreeFailures(fetches, i);
    AnswersOfPrefix(fetches, i + 1, fetches[i].name);
    var a, b := Answers(fetches, fetches[i].name), Answers(fetches[..i + 1], fetches[i].name);
    assert b == a[..|b|];
    assert DeadWindow(a, |b| - 3);
  }

  /** Behind every eviction stand three failed fetches in a row under that name. */
  lemma EvictionMeansThreeFailures(fetches: seq<Fetch>, i: nat)
    requires EvictionsAreEarned(fetches) && i < |fetches| && fetches[i].evicted
    ensures var a := Answers(fetches[..i + 1], fetches[i].name);
      |a| >= 3 && !a[|a| - 1] && !a[|a| - 2] && !a[|a| - 3]
  {
    var upTo := fetches[..i + 1];
    assert upTo[|upTo| - 1] == fetches[i];
    StreakIsTheTail(upTo, fetches[i].name);
    assert Streak(upTo, fetches[i].name) >= 1;
  }

  // ---- The agent's own entry, and peers that moved during a fetch ----

  /** The only entry a returning fetch can touch is the one under the fetched name; it was not the agent's own then. */
  lemma FetchTouchesOnlyItsPeer(m: Mesh, card: Option<string>, now: int, k: string)
    requires m.todo != [] && k != m.todo[0].name
    ensures k in Fetched(m, card, now).cache <==> k in m.cache
    ensures k in m.cache ==> Fetched(m, card, now).cache[k] == m.cache[k]
  {
  }

  /** No event since the snapshot gave one of its names to the agent's own URL. */
  predicate RehomesNobody(steps: seq<Step>, order: seq<Peer>, ownUrl: string)
  {
    forall i :: 0 <= i < |steps| ==>
      !(steps[i].Happens? && steps[i].e.PeerDiscovered? && steps[i].e.peer.url == ownUrl
        && exists p :: p in order && p.name == steps[i].e.peer.name)
  }

  /** Entries under the names a sweep still has to fetch belong to others. */
  predicate OwnIsNotDue(m: Mesh, ownUrl: string)
  {
    forall p :: p in m.todo && p.name in m.cache ==> m.cache[p.name].url != ownUrl
  }

  ghost predicate OwnIsSafe(m: Mesh, order: seq<Peer>, ownUrl: string)
  {
    OwnIsNotDue(m, ownUrl) && forall p :: p in m.todo ==> p in order && p.url != ownUrl
  }

  lemma StepKeepsOwnSafe(m: Mesh, order: seq<Peer>, s: Step, ownUrl: string)
    requires OwnIsSafe(m, order, ownUrl) && !s.Begins? && RehomesNobody([s], order, ownUrl)
    ensures OwnIsSafe(Apply(m, s), order, ownUrl)
  {
    assert [s][0] == s;
    if s.Returns? && m.todo != [] { assert forall p :: p in m.todo[1..] ==> p in m.todo; }
  }

  lemma {:induction false} SweepKeepsOwnSafe(m: Mesh, order: seq<Peer>, steps: seq<Step>, ownUrl: string)
    requires OwnIsSafe(m, order, ownUrl)
    requires (forall i :: 0 <= i < |steps| ==> !steps[i].Begins?) && RehomesNobody(steps, order, ownUrl)
    ensures OwnIsSafe(After(m, steps), order, ownUrl)
  {
    hide Apply, OwnIsSafe;
    if steps != [] {
      SweepKeepsOwnSafe(m, order, steps[..|steps| - 1], ownUrl);
      StepKeepsOwnSafe(After(m, steps[..|steps| - 1]), order, steps[|steps| - 1], ownUrl);
    }
  }

  /**
   * Through a whole sweep, with any events in between that do not give a name of the snapshot to the agent's own URL,
   * no fetch that comes back, with whatever result, changes or evicts an entry with that URL.
   */
  lemma SweepLeavesOwnEntryAlone(
      m: Mesh, order: seq<Peer>, steps: seq<Step>, ownUrl: string, card: Option<string>, now: int, k: string)
    requires m.todo == [] && IsSnapshot(order, m.cache, ownUrl)
    requires (forall i :: 0 <= i < |steps| ==> !steps[i].Begins?) && RehomesNobody(steps, order, ownUrl)
    ensures var mid := After(m.(todo := order), steps);
      mid.todo != [] && k in mid.cache && mid.cache[k].url == ownUrl ==>
      k in Fetched(mid, card, now).cache && Fetched(mid, card, now).cache[k] == mid.cache[k]
  {
    hide After, Fetched;
    var start := m.(todo := order);
    assert OwnIsSafe(start, order, ownUrl);
    SweepKeepsOwnSafe(start, order, steps, ownUrl);
    var mid := After(start, steps);
    if mid.todo != [] && k in mid.cache && mid.cache[k].url == ownUrl {
      assert mid.todo[0] in mid.todo;
      FetchTouchesOnlyItsPeer(mid, card, now, k);
    }
  }

  // ---- Exactly when ----

  /** A returning fetch meets the entry under `k`: it is about that name, and it was answered or is the third failure. */
  predicate Meets(m: Mesh, card: Option<string>, k: string)
  {
    m.todo != [] && k == m.todo[0].name && (card.Some? || Count(m.failures, k) + 1 >= SWEEP_MAX_FAILURES)
  }

  /** The fetches still due are of others, each under a name of its own. */
  predicate OthersAreDue(m: Mesh, ownUrl: string)
  {
    && (forall p :: p in m.todo ==> p.url != ownUrl)
    && (forall i, j :: 0 <= i < j < |m.todo| ==> m.todo[i].name != m.todo[j].name)
  }

  /** One fetch leaves an own entry as it is exactly when it does not meet it. */
  lemma OwnEntrySurvivesIff(m: Mesh, card: Option<string>, now: int, k: string, ownUrl: string)
    requires OthersAreDue(m, ownUrl) && m.todo != [] && k in m.cache && m.cache[k].url == ownUrl
    ensures var after := Fetched(m, card, now).cache;
      (k in after && after[k] == m.cache[k]) <==> !Meets(m, card, k)
    ensures var after := Fetched(m, card, now).cache;
      Meets(m, card, k) ==> k !in after || after[k].url != ownUrl
  {
    assert m.todo[0] in m.todo;
  }

  function StepMeets(m: Mesh, s: Step, k: string): bool { s.Returns? && Meets(m, s.card, k) }

  /** Some returning fetch of the steps meets the entry under `k`. */
  predicate SomeFetchMeets(m: Mesh, steps: seq<Step>, k: string)
    decreases |steps|
  {
    steps != [] && (StepMeets(m, steps[0], k) || SomeFetchMeets(Apply(m, steps[0]), steps[1..], k))
  }

  function AfterSteps(m: Mesh, steps: seq<Step>): Mesh
    decreases |steps|
  {
    if steps == [] then m else AfterSteps(Apply(m, steps[0]), steps[1..])
  }

  lemma {:induction false} AfterStepsIsAfter(m: Mesh, steps: seq<Step>)
    ensures AfterSteps(m, steps) == After(m, steps)
    decreases |steps|
  {
    hide Apply;
    if steps != [] {
      AfterStepsIsAfter(Apply(m, steps[0]), steps[1..]);
      AfterConcat(m, [steps[0]], steps[1..]);
      assert [steps[0]] + steps[1..] == steps && [steps[0]][..0] == [];
      assert After(m, [steps[0]]) == Apply(After(m, []), steps[0]);
    }
  }

  predicate NoEventAbout(steps: seq<Step>, k: string)
  {
    forall i :: 0 <= i < |steps| ==>
      !steps[i].Begins? && (steps[i].Happens? ==> (if steps[i].e.PeerDiscovered? then steps[i].e.peer.name else steps[i].e.name) != k)
  }

  /** Once the fetch of `k` is not due, it meets nothing and puts nothing there. */
  lemma {:induction false} DoneNameStaysGone(m: Mesh, steps: seq<Step>, k: string, ownUrl: string)
    requires OthersAreDue(m, ownUrl) && NoEventAbout(steps, k) && forall p :: p in m.todo ==> p.name != k
    ensures k in AfterSteps(m, steps).cache <==> k in m.cache
    ensures k in m.cache ==> AfterSteps(m, steps).cache[k] == m.cache[k]
    decreases |steps|
  {
    if steps != [] {
      var s, rest := steps[0], steps[1..];
      assert forall i :: 0 <= i < |rest| ==> rest[i] == steps[i + 1];
      if s.Returns? && m.todo != [] {
        assert m.todo[0] in m.todo;
        assert forall p :: p in m.todo[1..] ==> p in m.todo;
      }
      DoneNameStaysGone(Apply(m, s), rest, k, ownUrl);
    }
  }

  /**
   * From any moment of a sweep on, with any events in between but none about the entry itself: an entry with the
   * agent's own URL is intact at the end exactly when no fetch that comes back meets it.
   */
  lemma {:induction false} OwnEntryIsIntactIff(m: Mesh, steps: seq<Step>, k: string, ownUrl: string)
    requires OthersAreDue(m, ownUrl) && NoEventAbout(steps, k) && k in m.cache && m.cache[k].url == ownUrl
    ensures var end := AfterSteps(m, steps).cache;
      (k in end && end[k] == m.cache[k]) <==> !SomeFetchMeets(m, steps, k)
    decreases |steps|
  {
    hide Fetched;
    if steps != [] {
      var s, rest, next := steps[0], steps[1..], Apply(m, steps[0]);
      assert forall i :: 0 <= i < |rest| ==> rest[i] == steps[i + 1];
      if s.Returns? && m.todo != [] { OwnEntrySurvivesIff(m, s.card, s.now, k, ownUrl); FetchedDropsOne(m, s.card, s.now); }
      if StepMeets(m, s, k) {
        forall p | p in m.todo[1..] ensures p.name != k {
          var i :| 0 <= i < |m.todo[1..]| && m.todo[1..][i] == p;
          assert m.todo[i + 1] == p;
        }
        DoneNameStaysGone(next, rest, k, ownUrl);
      } else {
        OwnEntryIsIntactIff(next, rest, k, ownUrl);
      }
    }
  }

  /** The same for what is left of a pass, as the sweep loop runs it. */
  lemma PassLeavesOwnEntryIff(m: Mesh, script: Peer -> Await, k: string, ownUrl: string)
    requires OthersAreDue(m, ownUrl) && NoEventAbout(PassSteps(m.todo, script), k) && k in m.cache
    requires m.cache[k].url == ownUrl
    ensures var end := Swept(m, script).cache;
      (k in end && end[k] == m.cache[k]) <==> !SomeFetchMeets(m, PassSteps(m.todo, script), k)
  {
    SweepIsARun(m, script);
    AfterStepsIsAfter(m, PassSteps(m.todo, script));
    OwnEntryIsIntactIff(m, PassSteps(m.todo, script), k, ownUrl);
  }

  /** The guard is needed: announced under a name the sweep is about to fetch, the agent evicts itself. */
  lemma OwnEntryCanBeSweptOut(own: Peer, stale: Peer)
    requires own.name == stale.name && own.url != stale.url
    ensures var m := Mesh(map[stale.name := stale], map[stale.name := 2], [], []);
      && IsSnapshot([stale], m.cache, own.url)
      && own.name !in After(m, [Begins([stale]), Happens(PeerDiscovered(own)), Returns(None, 0)]).cache
  {
    var m := Mesh(map[stale.name := stale], map[stale.name := 2], [], []);
    var steps := [Begins([stale]), Happens(PeerDiscovered(own)), Returns(None, 0)];
    var swept := m.(todo := [stale]);
    assert steps[..2][..1][..0] == [] && steps[..2][..1][0] == steps[0];
    assert After(m, steps[..2][..1]) == swept;
    assert After(m, steps[..2]) == swept.(cache := swept.cache[own.name := own]);
  }

  /** And an answered fetch overwrites it with the stale peer. */
  lemma OwnEntryCanBeOverwritten(own: Peer, stale: Peer, card: string)
    requires own.name == stale.name && own.url != stale.url
    ensures var m := Mesh(map[stale.name := stale], map[], [], []);
      var end := After(m, [Begins([stale]), Happens(PeerDiscovered(own)), Returns(Some(card), 0)]).cache;
      IsSnapshot([stale], m.cache, own.url) && own.name in end && end[own.name].url == stale.url
  {
    var m := Mesh(map[stale.name := stale], map[], [], []);
    var steps := [Begins([stale]), Happens(PeerDiscovered(own)), Returns(Some(card), 0)];
    var swept := m.(todo := [stale]);
    assert steps[..2][..1][..0] == [] && steps[..2][..1][0] == steps[0];
    assert After(m, steps[..2][..1]) == swept;
    assert After(m, steps[..2]) == swept.(cache := swept.cache[own.name := own]);
  }

  /**
   * An answered fetch writes back the peer as the snapshot had it. It refreshes the entry in place exactly when the
   * entry did not move or go away during the fetch; otherwise it undoes that event.
   */
  lemma RefreshIsInPlaceIff(m: Mesh, card: string, now: int)
    requires Inv(m) && m.todo != []
    ensures var p, after := m.todo[0], Fetched(m, Some(card), now).cache;
      (p.name in m.cache && after == m.cache[p.name := m.cache[p.name].(card := Some(card), discoveredAt := now)]) <==>
      (p.name in m.cache && m.cache[p.name].url == p.url && m.cache[p.name].host == p.host && m.cache[p.name].port == p.port)
    ensures m.todo[0].name in Fetched(m, Some(card), now).cache
  {
    var p := m.todo[0];
    if p.name in m.cache {
      assert m.cache[p.name].name == p.name;
      assert Fetched(m, Some(card), now).cache[p.name] == p.(card := Some(card), discoveredAt := now);
      var refreshed := m.cache[p.name := m.cache[p.name].(card := Some(card), discoveredAt := now)];
      assert refreshed[p.name] == m.cache[p.name].(card := Some(card), discoveredAt := now);
    }
  }
}
