/** Paged listing of the store, the client that walks the pages, and task-id prefixes. */
module Listing {
  import opened Options
  import opened Tasks
  import opened TaskStore
  import TaskRuns
  import Locks

  // ---- The one order ----

  predicate Less(a: string, b: string)
  {
    b != [] && (a == [] || a[0] < b[0] || (a[0] == b[0] && Less(a[1..], b[1..])))
  }

  lemma {:induction false} LessIsTotal(a: string, b: string)
    ensures a != b ==> Less(a, b) || Less(b, a)
    ensures !(Less(a, b) && Less(b, a))
  {
    if a != [] && b != [] {
      LessIsTotal(a[1..], b[1..]);
      assert a == [a[0]] + a[1..] && b == [b[0]] + b[1..];
    }
  }

  /** `Less` is the dictionary order: the first difference decides, and a proper prefix comes first. */
  lemma {:induction false} LessIsDictionaryOrder(a: string, b: string)
    ensures Less(a, b) <==> (a <= b && a != b) || exists k :: 0 <= k < |a| && k < |b| && a[..k] == b[..k] && a[k] < b[k]
  {
    if a != [] && b != [] {
      var at, bt := a[1..], b[1..];
      assert a == [a[0]] + at && b == [b[0]] + bt;
      if a[0] == b[0] {
        LessIsDictionaryOrder(at, bt);
        forall k | 0 <= k < |at| && k < |bt| ensures at[..k] == bt[..k] <==> a[..k + 1] == b[..k + 1] {
          assert a[..k + 1] == [a[0]] + at[..k] && b[..k + 1] == [b[0]] + bt[..k];
        }
        if k :| 0 <= k < |at| && k < |bt| && at[..k] == bt[..k] && at[k] < bt[k] {
          assert a[..k + 1] == b[..k + 1] && a[k + 1] < b[k + 1];
        }
        if k :| 0 <= k < |a| && k < |b| && a[..k] == b[..k] && a[k] < b[k] {
          assert at[..k - 1] == bt[..k - 1] && at[k - 1] < bt[k - 1];
        }
      } else {
        assert a[..0] == b[..0];
        forall k | 0 < k < |a| && k < |b| ensures a[..k] != b[..k] {
          assert a[..k][0] == a[0] && b[..k][0] == b[0];
        }
      }
    }
  }

  lemma {:induction false} LessIsTransitive(a: string, b: string, c: string)
    requires Less(a, b) && Less(b, c)
    ensures Less(a, c)
  {
    if a != [] && a[0] == b[0] && b[0] == c[0] {
      LessIsTransitive(a[1..], b[1..], c[1..]);
    }
  }

  /** An absent sequence number sorts below every present one. */
  function SeqRank(seqs: map<string, nat>, id: string): nat { if id in seqs then seqs[id] + 1 else 0 }

  /** Timestamp descending, update sequence descending, id ascending. */
  predicate Before(seqs: map<string, nat>, a: Task, b: Task)
  {
    || a.status.timestamp > b.status.timestamp
    || (a.status.timestamp == b.status.timestamp &&
        (|| SeqRank(seqs, a.id) > SeqRank(seqs, b.id)
         || (SeqRank(seqs, a.id) == SeqRank(seqs, b.id) && Less(a.id, b.id))))
  }

  predicate Sorted(seqs: map<string, nat>, xs: seq<Task>)
  {
    forall i, j :: 0 <= i < j < |xs| ==> Before(seqs, xs[i], xs[j])
  }

  lemma BeforeIsStrict(seqs: map<string, nat>, a: Task, b: Task, c: Task)
    ensures !(Before(seqs, a, b) && Before(seqs, b, a))
    ensures a.id != b.id ==> Before(seqs, a, b) || Before(seqs, b, a)
    ensures Before(seqs, a, b) && Before(seqs, b, c) ==> Before(seqs, a, c)
  {
    LessIsTotal(a.id, b.id);
    if Less(a.id, b.id) && Less(b.id, c.id) { LessIsTransitive(a.id, b.id, c.id); }
  }

  /**
   * What decides between two tasks, most important first: the later timestamp, the later stamp, any stamp before none,
   * and the smaller id.
   */
  lemma OrderOfTwo(seqs: map<string, nat>, a: Task, b: Task)
    ensures a.status.timestamp > b.status.timestamp ==> Before(seqs, a, b)
    ensures a.status.timestamp == b.status.timestamp && a.id in seqs && b.id in seqs && seqs[a.id] > seqs[b.id] ==>
      Before(seqs, a, b)
    ensures a.status.timestamp == b.status.timestamp && a.id in seqs && b.id !in seqs ==> Before(seqs, a, b)
    ensures (
      && a.status.timestamp == b.status.timestamp && (a.id in seqs <==> b.id in seqs)
      && (a.id in seqs ==> seqs[a.id] == seqs[b.id]))
      ==> (Before(seqs, a, b) <==> (
        || (a.id <= b.id && a.id != b.id)
        || exists k :: 0 <= k < |a.id| && k < |b.id| && a.id[..k] == b.id[..k] && a.id[k] < b.id[k]))
  {
    LessIsDictionaryOrder(a.id, b.id);
  }

  /** A sorted listing is determined by the tasks in it. */
  lemma {:induction false} SortedIsUnique(seqs: map<string, nat>, xs: seq<Task>, ys: seq<Task>)
    requires Sorted(seqs, xs) && Sorted(seqs, ys) && forall t :: t in xs <==> t in ys
    ensures xs == ys
  {
    if xs == [] {
      assert forall i :: 0 <= i < |ys| ==> ys[i] in ys;
    } else {
      assert xs[0] in xs && xs[0] in ys && ys[0] in xs;
      if xs[0] != ys[0] {
        var i :| 0 < i < |xs| && xs[i] == ys[0];
        var j :| 0 < j < |ys| && ys[j] == xs[0];
        BeforeIsStrict(seqs, xs[0], ys[0], ys[0]);
        assert false;
      }
      var xt, yt := xs[1..], ys[1..];
      HeadIsNotInTail(seqs, xs);
      HeadIsNotInTail(seqs, ys);
      assert xs == [xs[0]] + xt && ys == [ys[0]] + yt;
      assert forall t :: t in xt <==> t in xs && t != xs[0];
      assert forall t :: t in yt <==> t in ys && t != ys[0];
      SortedIsUnique(seqs, xt, yt);
    }
  }

  lemma HeadIsNotInTail(seqs: map<string, nat>, xs: seq<Task>)
    requires xs != [] && Sorted(seqs, xs)
    ensures xs[0] !in xs[1..]
  {
    if xs[0] in xs[1..] {
      var i :| 0 <= i < |xs| - 1 && xs[1..][i] == xs[0];
      assert Before(seqs, xs[0], xs[i + 1]);
      BeforeIsStrict(seqs, xs[0], xs[0], xs[0]);
    }
  }

  // ---- The listing of a store ----

  datatype Filter = Filter(state: Option<TaskState>, context: Option<string>)
  {
    predicate Keeps(t: Task)
    {
      (state.Some? ==> t.State() == state.value) && (context.Some? ==> t.contextId == context)
    }
  }

  const Everything := Filter(None, None)

  /** `xs` lists exactly the tasks the filter keeps, in the one order. */
  ghost predicate IsListing(s: Store, f: Filter, xs: seq<Task>)
  {
    Sorted(s.seqs, xs) && forall t :: t in xs <==> t.id in s.tasks && s.tasks[t.id] == t && f.Keeps(t)
  }

  /** The store has at most one listing, whatever order its hash map enumerates in. */
  lemma ListingIsUnique(s: Store, f: Filter, xs: seq<Task>, ys: seq<Task>)
    requires IsListing(s, f, xs) && IsListing(s, f, ys)
    ensures xs == ys
  {
    SortedIsUnique(s.seqs, xs, ys);
  }

  /**
   * A listing for a state and a context, either of which may be left open, holds the tasks of the full listing that are
   * in that state and of that context, in the same order.
   */
  lemma FilteredListing(s: Store, state: Option<TaskState>, context: Option<string>, xs: seq<Task>, all: seq<Task>)
    requires IsListing(s, Filter(state, context), xs) && IsListing(s, Filter(None, None), all)
    ensures forall t :: t in xs <==>
      t in all && (state == None || Some(t.status.state) == state) && (context == None || t.contextId == context)
    ensures forall i, j, p, q | 0 <= i < |xs| && 0 <= j < |xs| && 0 <= p < |all| && 0 <= q < |all| ::
      xs[i] == all[p] && xs[j] == all[q] ==> (i < j <==> p < q)
  {
    forall i, j, p, q | 0 <= i < |xs| && 0 <= j < |xs| && 0 <= p < |all| && 0 <= q < |all| &&
                        xs[i] == all[p] && xs[j] == all[q]
      ensures i < j <==> p < q
    {
      BeforeIsStrict(s.seqs, xs[i], xs[j], xs[j]);
    }
  }

  predicate DistinctIds(xs: seq<Task>)
  {
    forall i, j :: 0 <= i < j < |xs| ==> xs[i].id != xs[j].id
  }

  lemma ListingHasDistinctIds(s: Store, f: Filter, xs: seq<Task>)
    requires IsListing(s, f, xs)
    ensures DistinctIds(xs)
  {
    forall i, j | 0 <= i < j < |xs| ensures xs[i].id != xs[j].id {
      assert xs[i] in xs && xs[j] in xs && Before(s.seqs, xs[i], xs[j]);
      BeforeIsStrict(s.seqs, xs[i], xs[j], xs[j]);
    }
  }

  function Insert(seqs: map<string, nat>, t: Task, xs: seq<Task>): seq<Task>
  {
    if xs == [] || Before(seqs, t, xs[0]) then [t] + xs else [xs[0]] + Insert(seqs, t, xs[1..])
  }

  /** The library sort. */
  function SortBy(seqs: map<string, nat>, xs: seq<Task>): seq<Task>
  {
    if xs == [] then [] else Insert(seqs, xs[0], SortBy(seqs, xs[1..]))
  }

  lemma {:induction false} InsertKeepsSorted(seqs: map<string, nat>, t: Task, xs: seq<Task>)
    requires Sorted(seqs, xs) && forall x :: x in xs ==> x.id != t.id
    ensures var ys := Insert(seqs, t, xs);
      Sorted(seqs, ys) && forall x :: x in ys <==> x == t || x in xs
  {
    if xs != [] {
      BeforeIsStrict(seqs, t, xs[0], t);
      if Before(seqs, t, xs[0]) {
        forall j | 0 <= j < |xs| ensures Before(seqs, t, xs[j]) {
          BeforeIsStrict(seqs, t, xs[0], xs[j]);
        }
      } else {
        InsertKeepsSorted(seqs, t, xs[1..]);
        var zs := Insert(seqs, t, xs[1..]);
        forall j | 0 <= j < |zs| ensures Before(seqs, xs[0], zs[j]) {
          assert zs[j] in zs;
        }
        assert xs == [xs[0]] + xs[1..];
      }
    }
  }

  lemma {:induction false} SortBySorts(seqs: map<string, nat>, xs: seq<Task>)
    requires DistinctIds(xs)
    ensures Sorted(seqs, SortBy(seqs, xs)) && forall x :: x in SortBy(seqs, xs) <==> x in xs
  {
    if xs != [] {
      SortBySorts(seqs, xs[1..]);
      assert xs == [xs[0]] + xs[1..];
      forall x | x in SortBy(seqs, xs[1..]) ensures x.id != xs[0].id {
        var i :| 0 <= i < |xs| - 1 && xs[1..][i] == x;
        assert xs[i + 1] == x;
      }
      InsertKeepsSorted(seqs, xs[0], SortBy(seqs, xs[1..]));
    }
  }

  // ---- One page ----

  function Position(xs: seq<Task>, id: string): Option<nat>
  {
    if xs == [] then None
    else if xs[0].id == id then Some(0)
    else match Position(xs[1..], id) { case Some(i) => Some(i + 1) case None => None }
  }

  lemma {:induction false} PositionOfTask(xs: seq<Task>, k: nat)
    requires k < |xs| && DistinctIds(xs)
    ensures Position(xs, xs[k].id) == Some(k)
  {
    if k > 0 {
      PositionOfTask(xs[1..], k - 1);
    }
  }

  /** An unknown cursor is ignored: the listing starts over. */
  function Rest(xs: seq<Task>, cursor: Option<string>): seq<Task>
  {
    match cursor
    case None => xs
    case Some(id) =>
      match Position(xs, id) { case Some(i) => if i < |xs| then xs[i + 1..] else [] case None => xs }
  }

  datatype Page = Page(tasks: seq<Task>, next: Option<string>)

  function PageOf(xs: seq<Task>, limit: nat, cursor: Option<string>): Page
  {
    var rest := Rest(xs, cursor);
    if |rest| <= limit then Page(rest, None)
    else Page(rest[..limit], if limit == 0 then None else Some(rest[limit - 1].id))
  }

  method ListTasksFiltered(store: InMemoryTaskStore, f: Filter, limit: nat, cursor: Option<string>)
    returns (page: Page, ghost listing: seq<Task>)
    requires TaskRuns.Inv(store.Contents())
    modifies store`lockLog
    ensures IsListing(store.Contents(), f, listing) && page == PageOf(listing, limit, cursor)
    ensures store.lockLog == old(store.lockLog) + Locks.Steps(Locks.List)
  {
    store.Acquire(Locks.TaskMap, Locks.Read);
    var filtered := Enumerate(store.tasks, f);
    store.Acquire(Locks.UpdateSeq, Locks.Read);
    SortBySorts(store.updateSeq, filtered);
    filtered := SortBy(store.updateSeq, filtered);
    listing := filtered;
    page := Paginate(filtered, limit, cursor);
    store.Release(Locks.UpdateSeq);
    store.Release(Locks.TaskMap);
  }

  /** Cursor, limit and next token on the sorted listing. */
  method Paginate(listing: seq<Task>, limit: nat, cursor: Option<string>) returns (page: Page)
    ensures page == PageOf(listing, limit, cursor)
  {
    hide Position;
    var filtered := listing;
    if cursor.Some? {
      var pos := FindPosition(filtered, cursor.value);
      if pos.Some? { filtered := filtered[pos.value + 1..]; }
    }
    assert filtered == Rest(listing, cursor);
    var hasMore := |filtered| > limit;
    if hasMore { filtered := filtered[..limit]; }
    page := Page(filtered, if hasMore && filtered != [] then Some(filtered[|filtered| - 1].id) else None);
  }

  /** Collects the values of a hash map in an arbitrary order, keeping those the filter keeps. */
  method Enumerate(tasks: map<string, Task>, f: Filter) returns (xs: seq<Task>)
    requires forall id :: id in tasks ==> tasks[id].id == id
    ensures DistinctIds(xs)
    ensures forall t :: t in xs <==> t.id in tasks && tasks[t.id] == t && f.Keeps(t)
  {
    xs := [];
    var todo := tasks.Keys;
    while todo != {}
      invariant todo <= tasks.Keys && DistinctIds(xs)
      invariant forall t :: t in xs <==> t.id in tasks && t.id !in todo && tasks[t.id] == t && f.Keeps(t)
      decreases todo
    {
      var id :| id in todo;
      todo := todo - {id};
      if f.Keeps(tasks[id]) {
        assert forall t :: t in xs ==> t.id != id;
        assert forall i :: 0 <= i < |xs| ==> xs[i] in xs;
        xs := xs + [tasks[id]];
      }
    }
  }

  method FindPosition(xs: seq<Task>, id: string) returns (pos: Option<nat>)
    ensures pos == Position(xs, id)
    ensures pos.Some? ==> pos.value < |xs|
  {
    var i := 0;
    while i < |xs|
      invariant i <= |xs|
      invariant Position(xs, id) == match Position(xs[i..], id) { case Some(k) => Some(i + k) case None => None }
    {
      if xs[i].id == id { return Some(i); }
      assert xs[i..][1..] == xs[i + 1..];
      i := i + 1;
    }
    pos := None;
  }

  // ---- Walking the pages of an unchanged store ----

  lemma RestAfter(xs: seq<Task>, k: nat)
    requires DistinctIds(xs) && k <= |xs|
    ensures Rest(xs, CursorAfter(xs, k)) == xs[k..]
  {
    if k > 0 { PositionOfTask(xs, k - 1); }
  }

  /** The page that follows the first `k` tasks. */
  lemma PageAfter(xs: seq<Task>, k: nat, limit: nat)
    requires DistinctIds(xs) && k <= |xs| && limit >= 1
    ensures PageOf(xs, limit, CursorAfter(xs, k)) ==
        Page(xs[k..Min(|xs|, k + limit)], if |xs| <= k + limit then None else CursorAfter(xs, k + limit))
  {
    RestAfter(xs, k);
    hide Rest, DistinctIds;
    if |xs| <= k + limit {
      assert xs[k..|xs|] == xs[k..];
    } else {
      assert xs[k..][..limit] == xs[k..k + limit] && xs[k..][limit - 1] == xs[k + limit - 1];
    }
  }

  /** A cursor that names no listed task is as good as none. */
  lemma UnknownCursorStartsOver(xs: seq<Task>, id: string, limit: nat)
    requires forall t :: t in xs ==> t.id != id
    ensures PageOf(xs, limit, Some(id)) == PageOf(xs, limit, None)
  {
    NoPosition(xs, id);
  }

  lemma {:induction false} NoPosition(xs: seq<Task>, id: string)
    requires forall t :: t in xs ==> t.id != id
    ensures Position(xs, id) == None
  {
    if xs != [] {
      assert xs[0] in xs && forall t :: t in xs[1..] ==> t in xs;
      NoPosition(xs[1..], id);
    }
  }

  /** Follows at most `pages` tokens, collecting the pages in order. */
  function Collect(xs: seq<Task>, limit: nat, cursor: Option<string>, pages: nat): seq<Task>
    decreases pages
  {
    if pages == 0 then []
    else
      var p := PageOf(xs, limit, cursor);
      p.tasks + (if p.next.None? then [] else Collect(xs, limit, p.next, pages - 1))
  }

  /** Tasks that fit on `pages` pages. */
  function Capacity(pages: nat, limit: nat): nat { if pages == 0 then 0 else limit + Capacity(pages - 1, limit) }

  lemma {:induction false} CapacityIsProduct(pages: nat, limit: nat)
    ensures Capacity(pages, limit) == pages * limit
    ensures limit >= 1 ==> Capacity(pages, limit) >= pages
  {
    if pages > 0 { CapacityIsProduct(pages - 1, limit); }
  }

  function CursorAfter(xs: seq<Task>, k: nat): Option<string>
    requires k <= |xs|
  {
    if k == 0 then None else Some(xs[k - 1].id)
  }

  function Min(a: nat, b: nat): nat { if a <= b then a else b }

  lemma NoPagesCollected(xs: seq<Task>, limit: nat, cursor: Option<string>)
    ensures Collect(xs, limit, cursor, 0) == []
  {
  }

  lemma CollectStep(xs: seq<Task>, limit: nat, cursor: Option<string>, pages: nat)
    requires pages > 0
    ensures var p := PageOf(xs, limit, cursor);
      Collect(xs, limit, cursor, pages) == if p.next.None? then p.tasks else p.tasks + Collect(xs, limit, p.next, pages - 1)
  {
    hide PageOf;
    var p := PageOf(xs, limit, cursor);
    assert p.tasks + [] == p.tasks;
  }

  lemma CapacityStep(pages: nat, limit: nat)
    ensures Capacity(0, limit) == 0
    ensures pages > 0 ==> Capacity(pages, limit) == limit + Capacity(pages - 1, limit)
  {
  }

  /** Successive pages give exactly the next `Capacity` tasks, without gap or repetition. */
  lemma {:induction false} CollectIsPrefix(xs: seq<Task>, k: nat, limit: nat, pages: nat, end: nat)
    requires DistinctIds(xs) && k <= |xs| && limit >= 1 && end == Min(|xs|, k + Capacity(pages, limit))
    ensures Collect(xs, limit, CursorAfter(xs, k), pages) == xs[k..end]
    decreases pages
  {
    hide DistinctIds, PageOf, Collect, Capacity, CursorAfter;
    CapacityStep(pages, limit);
    if pages == 0 {
      NoPagesCollected(xs, limit, CursorAfter(xs, k));
    } else {
      var mid := Min(|xs|, k + limit);
      PageAfter(xs, k, limit);
      CollectStep(xs, limit, CursorAfter(xs, k), pages);
      if mid < |xs| {
        CollectIsPrefix(xs, mid, limit, pages - 1, end);
        CursorIsSome(xs, mid);
      }
    }
  }

  lemma CursorIsSome(xs: seq<Task>, k: nat)
    requires 0 < k <= |xs|
    ensures CursorAfter(xs, k).Some?
  {
  }

  /**
   * Following tokens to the end returns the whole listing exactly when pages hold at least one task;
   * a page size of zero answers a non-empty listing with an empty last page.
   */
  lemma WalkIsCompleteIffPagesHoldTasks(xs: seq<Task>, limit: nat)
    requires DistinctIds(xs)
    ensures Collect(xs, limit, None, |xs| + 1) == xs <==> limit >= 1 || xs == []
  {
    if limit >= 1 {
      CapacityIsProduct(|xs| + 1, limit);
      CollectIsPrefix(xs, 0, limit, |xs| + 1, |xs|);
    }
  }

  // ---- The remote client ----

  const MAX_LIST_PAGES := 10
  const PAGE_SIZE := 100

  /** A server maps the page token of a request (empty for the first) to tasks and the next token. */
  type Server = string -> Result<(seq<Task>, string), string>

  function Follow(server: Server, token: string, pages: nat): Result<seq<Task>, string>
    decreases pages
  {
    if pages == 0 then Ok([])
    else match server(token)
      case Err(e) => Err(e)
      case Ok((tasks, next)) =>
        if next == "" then Ok(tasks)
        else match Follow(server, next, pages - 1)
          case Err(e) => Err(e)
          case Ok(more) => Ok(tasks + more)
  }

  /** The walk ends after ten requests whatever tokens the server mints. */
  method ListAllTasks(server: Server) returns (r: Result<seq<Task>, string>, requests: nat)
    ensures r == Follow(server, "", MAX_LIST_PAGES) && requests <= MAX_LIST_PAGES
  {
    var allTasks, token := [], "";
    requests := 0;
    assert Follow(server, "", MAX_LIST_PAGES).Ok? ==> [] + Follow(server, "", MAX_LIST_PAGES).value == Follow(server, "", MAX_LIST_PAGES).value;
    while requests < MAX_LIST_PAGES
      invariant requests <= MAX_LIST_PAGES
      invariant Follow(server, "", MAX_LIST_PAGES)
        == match Follow(server, token, MAX_LIST_PAGES - requests)
           case Err(e) => Err(e)
           case Ok(more) => Ok(allTasks + more)
    {
      requests := requests + 1;
      match server(token)
      case Err(e) => return Err(e), requests;
      case Ok((tasks, next)) =>
        ghost var before := allTasks;
        allTasks := allTasks + tasks;
        if next == "" { return Ok(allTasks), requests; }
        token := next;
        ghost var later := Follow(server, token, MAX_LIST_PAGES - requests);
        assert later.Ok? ==> before + (tasks + later.value) == allTasks + later.value;
    }
    assert Follow(server, token, 0) == Ok([]) && allTasks + [] == allTasks;
    r := Ok(allTasks);
  }

  /** The reference server over a store that does not change: page size clamped to 100, token `""` for none. */
  function StoreServer(xs: seq<Task>, pageSize: nat): Server
  {
    (token: string) =>
      var p := PageOf(xs, if pageSize < 100 then pageSize else 100, if token == "" then None else Some(token));
      Ok((p.tasks, if p.next.Some? then p.next.value else ""))
  }

  /** A request for more than a hundred tasks is answered as one for a hundred. */
  lemma ServerServesAtMostAHundred(xs: seq<Task>, pageSize: nat, token: string)
    requires token != ""
    ensures StoreServer(xs, pageSize)(token).Ok? && |StoreServer(xs, pageSize)(token).value.0| <= 100
    ensures pageSize >= 100 ==> StoreServer(xs, pageSize)(token) == StoreServer(xs, 100)(token)
    ensures pageSize <= 100 ==> StoreServer(xs, pageSize)(token).value.0 == PageOf(xs, pageSize, Some(token)).tasks
  {
    hide Rest;
  }

  lemma {:induction false} FollowIsCollect(xs: seq<Task>, token: string, pages: nat)
    requires forall i :: 0 <= i < |xs| ==> xs[i].id != ""
    ensures Follow(StoreServer(xs, PAGE_SIZE), token, pages)
         == Ok(Collect(xs, PAGE_SIZE, if token == "" then None else Some(token), pages))
    decreases pages
  {
    hide PageOf, Follow, Collect, StoreServer;
    if pages == 0 {
      NoPages(StoreServer(xs, PAGE_SIZE), token);
      NoPagesCollected(xs, PAGE_SIZE, if token == "" then None else Some(token));
    } else {
      var cursor := if token == "" then None else Some(token);
      var p := PageOf(xs, PAGE_SIZE, cursor);
      PageTokenIsAnId(xs, cursor);
      ServedPage(xs, token, cursor);
      FollowStep(StoreServer(xs, PAGE_SIZE), token, pages, p.tasks, if p.next.Some? then p.next.value else "");
      CollectStep(xs, PAGE_SIZE, cursor, pages);
      if p.next.Some? { FollowIsCollect(xs, p.next.value, pages - 1); }
    }
  }

  lemma NoPages(server: Server, token: string)
    ensures Follow(server, token, 0) == Ok([])
  {
  }

  lemma ServedPage(xs: seq<Task>, token: string, cursor: Option<string>)
    requires cursor == if token == "" then None else Some(token)
    ensures var p := PageOf(xs, PAGE_SIZE, cursor);
      StoreServer(xs, PAGE_SIZE)(token) == Ok((p.tasks, if p.next.Some? then p.next.value else ""))
  {
    hide PageOf;
  }

  lemma FollowStep(server: Server, token: string, pages: nat, tasks: seq<Task>, next: string)
    requires pages > 0 && server(token) == Ok((tasks, next))
    ensures next == "" ==> Follow(server, token, pages) == Ok(tasks)
    ensures next != "" && Follow(server, next, pages - 1).Ok? ==>
      Follow(server, token, pages) == Ok(tasks + Follow(server, next, pages - 1).value)
  {
  }

  lemma PageTokenIsAnId(xs: seq<Task>, cursor: Option<string>)
    requires forall i :: 0 <= i < |xs| ==> xs[i].id != ""
    ensures PageOf(xs, PAGE_SIZE, cursor).next != Some("")
  {
  }

  /**
   * Client and server together: the walk over an unchanged store returns all its tasks, in order, up to
   * a thousand of them, and exactly the first thousand otherwise.
   */
  lemma ClientSeesFirstThousand(s: Store, xs: seq<Task>)
    requires IsListing(s, Everything, xs) && forall id :: id in s.tasks ==> id != ""
    ensures Follow(StoreServer(xs, PAGE_SIZE), "", MAX_LIST_PAGES)
         == Ok(if |xs| <= 1000 then xs else xs[..1000])
  {
    ListingHasDistinctIds(s, Everything, xs);
    forall i | 0 <= i < |xs| ensures xs[i].id != "" { assert xs[i] in xs; }
    FollowIsCollect(xs, "", MAX_LIST_PAGES);
    CapacityIsProduct(MAX_LIST_PAGES, PAGE_SIZE);
    CollectIsPrefix(xs, 0, PAGE_SIZE, MAX_LIST_PAGES, Min(|xs|, 1000));
    hide Collect, Capacity, Follow, PageOf;
    assert xs[0..|xs|] == xs;
  }

  // ---- Task-id prefixes ----

  const MIN_PREFIX_LEN := 8

  function LowerChar(c: char): char { if 'A' <= c <= 'Z' then c + ('a' - 'A') else c }

  function Lower(s: string): (r: string)
    ensures |r| == |s|
  {
    if s == "" then "" else [LowerChar(s[0])] + Lower(s[1..])
  }

  predicate IsHexOrDash(c: char) { '0' <= c <= '9' || 'a' <= c <= 'f' || 'A' <= c <= 'F' || c == '-' }

  predicate Matches(t: Task, input: string) { Lower(input) <= Lower(t.id) }

  function Matching(xs: seq<Task>, input: string): seq<Task>
  {
    if xs == [] then [] else (if Matches(xs[0], input) then [xs[0]] else []) + Matching(xs[1..], input)
  }

  datatype ResolveError =
    | NotHex | TooShort | ListFailed(reason: string) | NoMatch | Ambiguous(candidates: seq<(string, TaskState)>)

  function Labels(xs: seq<Task>): seq<(string, TaskState)>
  {
    seq(|xs|, i requires 0 <= i < |xs| => (xs[i].id, xs[i].State()))
  }

  /** `isUuid` is the UUID parser; a full UUID is passed on without a request. */
  function ResolveTaskId(isUuid: string -> bool, listed: Result<seq<Task>, string>, input: string)
    : Result<string, ResolveError>
  {
    if isUuid(input) then Ok(input)
    else if exists i :: 0 <= i < |input| && !IsHexOrDash(input[i]) then Err(NotHex)
    else if |input| < MIN_PREFIX_LEN then Err(TooShort)
    else match listed
      case Err(e) => Err(ListFailed(e))
      case Ok(tasks) =>
        var found := Matching(tasks, input);
        if |found| == 1 then Ok(found[0].id)
        else if found == [] then Err(NoMatch)
        else Err(Ambiguous(Labels(found)))
  }

  /** A request a prefix resolution actually makes. */
  predicate IsPrefixQuery(isUuid: string -> bool, input: string)
  {
    !isUuid(input) && (forall i :: 0 <= i < |input| ==> IsHexOrDash(input[i])) && |input| >= MIN_PREFIX_LEN
  }

  predicate OnlyMatch(xs: seq<Task>, input: string, k: nat)
    requires k < |xs|
  {
    Matches(xs[k], input) && forall j :: 0 <= j < |xs| && j != k ==> !Matches(xs[j], input)
  }

  ghost predicate UniqueMatch(xs: seq<Task>, input: string, id: string)
  {
    exists k :: 0 <= k < |xs| && xs[k].id == id && OnlyMatch(xs, input, k)
  }

  lemma {:induction false} MatchingIsFilter(xs: seq<Task>, input: string)
    ensures forall t :: t in Matching(xs, input) <==> t in xs && Matches(t, input)
    ensures forall k :: 0 <= k < |xs| && Matches(xs[k], input) ==> |Matching(xs, input)| >= 1
    ensures forall k, j :: (0 <= k < j < |xs| && Matches(xs[k], input) && Matches(xs[j], input)
      ==> |Matching(xs, input)| >= 2)
  {
    if xs != [] {
      var t := xs[1..];
      MatchingIsFilter(t, input);
      assert xs == [xs[0]] + t;
      forall k, j | 0 <= k < j < |xs| && Matches(xs[k], input) && Matches(xs[j], input)
        ensures |Matching(xs, input)| >= 2
      {
        assert xs[j] == t[j - 1];
        if k > 0 { assert xs[k] == t[k - 1]; }
      }
    }
  }

  lemma {:induction false} MatchingOfNone(xs: seq<Task>, input: string)
    requires forall j :: 0 <= j < |xs| ==> !Matches(xs[j], input)
    ensures Matching(xs, input) == []
  {
    if xs != [] { MatchingOfNone(xs[1..], input); }
  }

  lemma {:induction false} MatchingOfUnique(xs: seq<Task>, input: string, k: nat)
    requires k < |xs| && OnlyMatch(xs, input, k)
    ensures Matching(xs, input) == [xs[k]]
  {
    if k == 0 {
      MatchingOfNone(xs[1..], input);
    } else {
      MatchingOfUnique(xs[1..], input, k - 1);
    }
  }

  /** Ids and prefixes are compared letter by letter, capitals like small letters. */
  lemma MatchesLetterByLetter(t: Task, input: string)
    ensures Matches(t, input) <==>
      |input| <= |t.id| && forall i :: 0 <= i < |input| ==> SameLetter(input[i], t.id[i])
  {
    LowerAt(input);
    LowerAt(t.id);
  }

  /** Equal, or the same letter of the alphabet in small and capital form. */
  predicate SameLetter(c: char, d: char)
  {
    || c == d
    || ('a' <= c <= 'z' && 'A' <= d <= 'Z' && c as int - d as int == 32)
    || ('A' <= c <= 'Z' && 'a' <= d <= 'z' && d as int - c as int == 32)
  }

  lemma {:induction false} LowerAt(s: string)
    ensures forall i :: 0 <= i < |s| ==> Lower(s)[i] == LowerChar(s[i])
  {
    if s != "" { LowerAt(s[1..]); }
  }

  /**
   * Every answer of the resolver: a full UUID is passed on; a character that is neither a hexadecimal digit nor a dash,
   * a prefix of fewer than eight characters, and a failed listing are reported in that order; then nothing that
   * matches, or several candidates with their states.
   */
  lemma AnswersOfTheResolver(isUuid: string -> bool, listed: Result<seq<Task>, string>, input: string)
    ensures var r := ResolveTaskId(isUuid, listed, input);
      var hex := forall c :: c in input ==> c in "0123456789abcdefABCDEF-";
      && (isUuid(input) ==> r == Ok(input))
      && (!isUuid(input) && !hex ==> r == Err(NotHex))
      && (!isUuid(input) && hex && |input| < 8 ==> r == Err(TooShort))
      && (!isUuid(input) && hex && |input| >= 8 && listed.Err? ==> r == Err(ListFailed(listed.error)))
      && (!isUuid(input) && hex && |input| >= 8 && listed.Ok? ==>
            && (r == Err(NoMatch) <==> forall t :: t in listed.value ==> !Matches(t, input))
            && (r.Ok? || r == Err(NoMatch) || r.error.Ambiguous?)
            && (r.Err? && r.error.Ambiguous? ==>
                  && |r.error.candidates| >= 2
                  && forall c :: (c in r.error.candidates <==>
                       exists t :: t in listed.value && Matches(t, input) && c == (t.id, t.status.state))))
  {
    HexDigits(input);
    hide IsHexOrDash, Matches;
    if listed.Ok? {
      var found := Matching(listed.value, input);
      MatchingIsFilter(listed.value, input);
      if found != [] { assert found[0] in found; }
      LabelsAreOf(found);
    }
  }

  lemma LabelsAreOf(xs: seq<Task>)
    ensures forall c :: c in Labels(xs) <==> exists t :: t in xs && c == (t.id, t.status.state)
  {
    forall t | t in xs ensures (t.id, t.status.state) in Labels(xs) {
      var i :| 0 <= i < |xs| && xs[i] == t;
      assert Labels(xs)[i] == (t.id, t.status.state);
    }
    forall c | c in Labels(xs) ensures exists t :: t in xs && c == (t.id, t.status.state) {
      var i :| 0 <= i < |xs| && Labels(xs)[i] == c;
      assert xs[i] in xs;
    }
  }

  lemma HexDigits(input: string)
    ensures (exists i :: 0 <= i < |input| && !IsHexOrDash(input[i])) <==>
      !forall c :: c in input ==> c in "0123456789abcdefABCDEF-"
  {
    forall c ensures IsHexOrDash(c) <==> c in "0123456789abcdefABCDEF-" { HexDigit(c); }
  }

  lemma HexDigit(c: char)
    ensures IsHexOrDash(c) <==> c in "0123456789abcdefABCDEF-"
  {
    var s := "0123456789abcdefABCDEF-";
    if '0' <= c <= '9' {
      assert s[c as int - '0' as int] == c;
    } else if 'a' <= c <= 'f' {
      assert s[10 + (c as int - 'a' as int)] == c;
    } else if 'A' <= c <= 'F' {
      assert s[16 + (c as int - 'A' as int)] == c;
    } else {
      assert s[22] == '-';
    }
  }

  /** A prefix resolves to an id exactly when that id is the only listed one it matches. */
  lemma ResolvesIffUnique(isUuid: string -> bool, xs: seq<Task>, input: string, id: string)
    requires IsPrefixQuery(isUuid, input)
    ensures ResolveTaskId(isUuid, Ok(xs), input) == Ok(id) <==> UniqueMatch(xs, input, id)
  {
    MatchingIsFilter(xs, input);
    if ResolveTaskId(isUuid, Ok(xs), input) == Ok(id) {
      var found := Matching(xs, input);
      assert found[0] in found;
      var k :| 0 <= k < |xs| && xs[k] == found[0];
      assert OnlyMatch(xs, input, k);
    }
    if UniqueMatch(xs, input, id) {
      var k :| 0 <= k < |xs| && xs[k].id == id && OnlyMatch(xs, input, k);
      MatchingOfUnique(xs, input, k);
    }
  }

  /**
   * The resolver promises an id that matches no other task of the agent. Over the network it keeps the
   * promise exactly when nothing past the first thousand tasks matches too.
   */
  lemma RemoteResolutionIsUniqueIff(s: Store, xs: seq<Task>, isUuid: string -> bool, input: string, id: string)
    requires IsListing(s, Everything, xs) && (forall x :: x in s.tasks ==> x != "")
    requires IsPrefixQuery(isUuid, input)
    requires ResolveTaskId(isUuid, Follow(StoreServer(xs, PAGE_SIZE), "", MAX_LIST_PAGES), input) == Ok(id)
    ensures UniqueMatch(xs, input, id) <==> forall j :: 1000 <= j < |xs| ==> !Matches(xs[j], input)
  {
    hide Matches, ResolveTaskId, Follow, StoreServer, IsListing, IsPrefixQuery;
    ClientSeesFirstThousand(s, xs);
    var seen := if |xs| <= 1000 then xs else xs[..1000];
    ResolvesIffUnique(isUuid, seen, input, id);
    assert xs[..|seen|] == seen;
  }

  /** Up to a thousand tasks a prefix resolves over the network to an id exactly when it matches that task alone. */
  lemma RemotePrefixResolvesIffUnique(s: Store, xs: seq<Task>, isUuid: string -> bool, input: string, id: string)
    requires IsListing(s, Everything, xs) && (forall x :: x in s.tasks ==> x != "") && |xs| <= 1000 && TaskRuns.Inv(s)
    requires IsPrefixQuery(isUuid, input)
    ensures ResolveTaskId(isUuid, Follow(StoreServer(xs, PAGE_SIZE), "", MAX_LIST_PAGES), input) == Ok(id) <==>
      UniqueStored(s, input, id)
  {
    hide Matches, ResolveTaskId, Follow, StoreServer, IsListing, IsPrefixQuery, UniqueMatch, UniqueStored;
    ClientSeesFirstThousand(s, xs);
    ResolvesIffUnique(isUuid, xs, input, id);
    UniqueInListing(s, xs, input, id);
  }

  /** Of all stored tasks the prefix matches the one with this id alone. */
  predicate UniqueStored(s: Store, input: string, id: string)
  {
    id in s.tasks && Matches(s.tasks[id], input) && forall x :: x in s.tasks && x != id ==> !Matches(s.tasks[x], input)
  }

  lemma UniqueInListing(s: Store, xs: seq<Task>, input: string, id: string)
    requires IsListing(s, Everything, xs) && TaskRuns.Inv(s)
    ensures UniqueMatch(xs, input, id) <==> UniqueStored(s, input, id)
  {
    hide Matches;
    ListingHasDistinctIds(s, Everything, xs);
    TaskRuns.InvParts(s);
    hide TaskRuns.Inv;
    if UniqueMatch(xs, input, id) {
      var k :| 0 <= k < |xs| && xs[k].id == id && OnlyMatch(xs, input, k);
      assert xs[k] in xs;
      forall x | x in s.tasks && x != id ensures !Matches(s.tasks[x], input) {
        assert s.tasks[x] in xs;
        var j :| 0 <= j < |xs| && xs[j] == s.tasks[x];
      }
    }
    if UniqueStored(s, input, id) {
      assert s.tasks[id] in xs;
      var k :| 0 <= k < |xs| && xs[k] == s.tasks[id];
      forall j | 0 <= j < |xs| && j != k ensures !Matches(xs[j], input) {
        assert xs[j] in xs;
        assert xs[j].id != xs[k].id;
      }
      assert OnlyMatch(xs, input, k);
    }
  }

  // ---- Ordering against time ----

  lemma StartsInOrder(clock: int)
    ensures TaskRuns.Inv(TaskRuns.Empty) && TaskRuns.Fits(TaskRuns.Empty.seqs, TaskRuns.NoAges)
    ensures TaskRuns.InStep(TaskRuns.Times(TaskRuns.Empty), TaskRuns.NoAges, clock)
  {
  }

  /**
   * With a clock that never runs backwards, two tasks neither of which was completed are listed in the
   * order of their last status changes, newest first.
   */
  lemma NewestChangeFirst(ops: seq<TaskRuns.Op>, clock: int, a: string, b: string)
    requires TaskRuns.FreshRun(TaskRuns.Empty, ops) && TaskRuns.Monotone(ops, clock)
    requires var s := TaskRuns.Run(TaskRuns.Empty, ops); a in s.tasks && b in s.tasks && a != b
    ensures var s, g := TaskRuns.Run(TaskRuns.Empty, ops), TaskRuns.RunAges(TaskRuns.Empty, ops, TaskRuns.NoAges);
      && a in g.of && b in g.of
      && (!g.of[a].atOnce && !g.of[b].atOnce ==>
           (Before(s.seqs, s.tasks[a], s.tasks[b]) <==> g.of[a].changed > g.of[b].changed))
  {
    StartsInOrder(clock);
    hide Before, TaskRuns.Run, TaskRuns.RunAges, TaskRuns.FreshRun, TaskRuns.Monotone, TaskRuns.Times;
    hide TaskRuns.Inv, TaskRuns.Fits, TaskRuns.InStep;
    var s, g := TaskRuns.Run(TaskRuns.Empty, ops), TaskRuns.RunAges(TaskRuns.Empty, ops, TaskRuns.NoAges);
    TaskRuns.RunKeepsInv(TaskRuns.Empty, ops);
    TaskRuns.SequenceIsStaleIffCompleted(TaskRuns.Empty, ops, TaskRuns.NoAges);
    var clock' := TaskRuns.ClockOrdersChanges(TaskRuns.Empty, ops, TaskRuns.NoAges, clock);
    OrderFollowsAges(s, g, clock', a, b);
  }

  /**
   * For all pairs, completed or not: of two tasks the one changed last is listed first exactly when its clock reading
   * is later or its last stamp is. Only a completion, which leaves the stamp as it was, within the clock's resolution
   * of the other change can fail both.
   */
  lemma ChangedLastIsListedFirstIff(ops: seq<TaskRuns.Op>, clock: int, a: string, b: string)
    requires TaskRuns.FreshRun(TaskRuns.Empty, ops) && TaskRuns.Monotone(ops, clock)
    requires var s, g := TaskRuns.Run(TaskRuns.Empty, ops), TaskRuns.RunAges(TaskRuns.Empty, ops, TaskRuns.NoAges);
      a in s.tasks && b in s.tasks && a in g.of && b in g.of && g.of[a].changed > g.of[b].changed
    ensures var s, g := TaskRuns.Run(TaskRuns.Empty, ops), TaskRuns.RunAges(TaskRuns.Empty, ops, TaskRuns.NoAges);
      && (Before(s.seqs, s.tasks[a], s.tasks[b]) <==>
           s.tasks[a].status.timestamp > s.tasks[b].status.timestamp || g.of[a].stamped > g.of[b].stamped)
      && (!Before(s.seqs, s.tasks[a], s.tasks[b]) ==> g.of[a].atOnce)
  {
    StartsInOrder(clock);
    hide Before, TaskRuns.Run, TaskRuns.RunAges, TaskRuns.FreshRun, TaskRuns.Monotone, TaskRuns.Times;
    hide TaskRuns.Inv, TaskRuns.Fits, TaskRuns.InStep;
    var s, g := TaskRuns.Run(TaskRuns.Empty, ops), TaskRuns.RunAges(TaskRuns.Empty, ops, TaskRuns.NoAges);
    TaskRuns.RunKeepsInv(TaskRuns.Empty, ops);
    TaskRuns.SequenceIsStaleIffCompleted(TaskRuns.Empty, ops, TaskRuns.NoAges);
    var clock' := TaskRuns.ClockOrdersChanges(TaskRuns.Empty, ops, TaskRuns.NoAges, clock);
    OrderFollowsStamps(s, g, clock', a, b);
  }

  lemma OrderFollowsStamps(s: Store, g: TaskRuns.Ages<string>, clock: int, a: string, b: string)
    requires TaskRuns.Inv(s) && TaskRuns.Fits(s.seqs, g) && TaskRuns.InStep(TaskRuns.Times(s), g, clock)
    requires a in s.tasks && b in s.tasks && a in g.of && b in g.of && g.of[a].changed > g.of[b].changed
    ensures Before(s.seqs, s.tasks[a], s.tasks[b]) <==>
      s.tasks[a].status.timestamp > s.tasks[b].status.timestamp || g.of[a].stamped > g.of[b].stamped
    ensures !Before(s.seqs, s.tasks[a], s.tasks[b]) ==> g.of[a].atOnce
  {
    TaskRuns.InvParts(s);
    hide TaskRuns.Inv;
    var times := TaskRuns.Times(s);
    assert times[a] == s.tasks[a].status.timestamp && times[b] == s.tasks[b].status.timestamp;
    assert s.tasks[a].id == a && s.tasks[b].id == b;
  }

  lemma OrderFollowsAges(s: Store, g: TaskRuns.Ages<string>, clock: int, a: string, b: string)
    requires TaskRuns.Inv(s) && TaskRuns.Fits(s.seqs, g) && TaskRuns.InStep(TaskRuns.Times(s), g, clock)
    requires a in s.tasks && b in s.tasks && a != b
    ensures a in g.of && b in g.of
    ensures !g.of[a].atOnce && !g.of[b].atOnce ==>
      (Before(s.seqs, s.tasks[a], s.tasks[b]) <==> g.of[a].changed > g.of[b].changed)
  {
    TaskRuns.InvParts(s);
    hide TaskRuns.Inv;
    var times := TaskRuns.Times(s);
    assert times[a] == s.tasks[a].status.timestamp && times[b] == s.tasks[b].status.timestamp;
    assert s.tasks[a].id == a && s.tasks[b].id == b;
  }

  // ---- Where the order and time disagree ----

  function At(id: string, t: int): NewTask { NewTask(id, None, None, None, t, t) }

  /** Create `id1`, start it, create `id2`, complete `id1`: all at clock reading 0. */
  function LateRun(id1: string, id2: string, result: Artifact, done: TaskStatus): seq<TaskRuns.Op>
  {
    [TaskRuns.OpCreate(At(id1, 0)), TaskRuns.OpSetStatus(id1, TaskStatus(Working, 0, None)),
     TaskRuns.OpCreate(At(id2, 0)), TaskRuns.OpComplete(id1, result, done)]
  }

  /**
   * Completion is the exception. Both tasks change at the same clock reading; `id1` changes last, by
   * completing, and is listed after `id2` all the same, because completion leaves its old sequence number.
   */
  lemma CompletionIsListedLate(id1: string, id2: string, result: Artifact, done: TaskStatus)
    requires id1 != id2 && done.state == Completed && done.timestamp == 0
    ensures var ops := LateRun(id1, id2, result, done);
      var s := TaskRuns.Run(TaskRuns.Empty, ops);
      && TaskRuns.FreshRun(TaskRuns.Empty, ops) && TaskRuns.Monotone(ops, 0)
      && id1 in s.tasks && id2 in s.tasks && s.tasks[id1].State() == Completed
      && Before(s.seqs, s.tasks[id2], s.tasks[id1])
  {
    var ops := LateRun(id1, id2, result, done);
    var s0 := TaskRuns.Empty;
    var s1 := TaskRuns.After(s0, ops[0]);
    var s2 := TaskRuns.After(s1, ops[1]);
    var s3 := TaskRuns.After(s2, ops[2]);
    var s4 := TaskRuns.After(s3, ops[3]);
    assert s2.tasks[id1].State() == Working && s3.seqs[id1] == 1 && s3.seqs[id2] == 2 && id2 !in s2.tasks;
    assert s4.seqs == s3.seqs && s4.tasks[id1].State() == Completed && s4.tasks[id2] == s3.tasks[id2];
    assert s4.tasks[id1].status.timestamp == 0 && s4.tasks[id2].status.timestamp == 0;
    assert TaskRuns.Fresh(s0, ops[0]) && TaskRuns.Fresh(s1, ops[1]) && TaskRuns.Fresh(s2, ops[2]) && TaskRuns.Fresh(s3, ops[3]);
    assert s4.tasks[id1].id == id1 && s4.tasks[id2].id == id2;
    FourSteps(s0, s1, s2, s3, s4, ops);
  }

  lemma FourSteps(s0: Store, s1: Store, s2: Store, s3: Store, s4: Store, ops: seq<TaskRuns.Op>)
    requires |ops| == 4 && s1 == TaskRuns.After(s0, ops[0]) && s2 == TaskRuns.After(s1, ops[1])
    requires s3 == TaskRuns.After(s2, ops[2]) && s4 == TaskRuns.After(s3, ops[3])
    requires TaskRuns.Fresh(s0, ops[0]) && TaskRuns.Fresh(s1, ops[1]) && TaskRuns.Fresh(s2, ops[2])
    requires TaskRuns.Fresh(s3, ops[3])
    requires forall op :: op in ops ==> TaskRuns.Reading(op, 0) == 0
    ensures TaskRuns.Run(s0, ops) == s4 && TaskRuns.FreshRun(s0, ops) && TaskRuns.Monotone(ops, 0)
  {
    hide TaskRuns.After, TaskRuns.Reading, TaskRuns.Fresh;
    assert ops[1..][1..] == ops[2..] && ops[2..][1..] == ops[3..] && ops[3..][1..] == [];
    assert TaskRuns.Run(s3, ops[3..]) == s4 && TaskRuns.FreshRun(s3, ops[3..]) && TaskRuns.Monotone(ops[3..], 0);
    assert TaskRuns.Run(s2, ops[2..]) == s4 && TaskRuns.FreshRun(s2, ops[2..]) && TaskRuns.Monotone(ops[2..], 0);
    assert TaskRuns.Run(s1, ops[1..]) == s4 && TaskRuns.FreshRun(s1, ops[1..]) && TaskRuns.Monotone(ops[1..], 0);
  }
}
