/** The layout planner, the plain backend that paints its plans, and the frame the two agree on. */
module Layout {

  datatype Family = User | Assistant | Tool | Task | Notice | Banner

  /** A transcript entry: its blank rows above and below, and its content rows at a given width. */
  datatype Entry = Entry(family: Family, top: nat, bottom: nat, content: nat -> seq<string>)

  datatype RowRect = RowRect(row: nat, width: nat, rows: nat, contentOffset: nat) {
    function End(): nat { row + rows }
  }

  datatype PlannedEntry = PlannedEntry(index: nat, family: Family, gapBefore: nat, rect: RowRect)

  datatype FramePlan = FramePlan(entries: seq<PlannedEntry>, trailingGap: nat, totalRows: nat)

  function Max(a: nat, b: nat): nat { if a < b then b else a }

  // ---- Gaps ----

  function BaseGap(prev: Family, incoming: Family): nat
  {
    if prev == Tool && incoming == Tool then 0
    else if prev == Tool && incoming == Assistant then 1
    else if prev == Assistant && incoming == Tool then 1
    else 2
  }

  function GapBetween(prev: Family, incoming: Family, prevBottom: nat, nextTop: nat): nat
  {
    if BaseGap(prev, incoming) < prevBottom + nextTop then 0 else BaseGap(prev, incoming) - (prevBottom + nextTop)
  }

  function TrailingGap(last: Family): nat { if last == User then 1 else 0 }

  /** The blank rows between two neighbours: the table's spacing, or their own paddings where these take more. */
  function Separation(a: Entry, b: Entry): nat { Max(BaseGap(a.family, b.family), a.bottom + b.top) }

  /** The paddings entries have today: none, but for a tool entry whose display closes with one blank row. */
  predicate AsShipped(e: Entry) { e.top == 0 && e.bottom <= 1 && (e.bottom == 1 ==> e.family == Tool) }

  /**
   * Gap and paddings add up to the table's spacing unless the paddings exceed it. With the paddings in use that
   * leaves exactly one pair out: a padded tool entry before another tool entry.
   */
  lemma SpacingIsTheTablesIff(a: Entry, b: Entry)
    ensures GapBetween(a.family, b.family, a.bottom, b.top) + a.bottom + b.top == Separation(a, b)
    ensures Separation(a, b) == BaseGap(a.family, b.family) <==> a.bottom + b.top <= BaseGap(a.family, b.family)
    ensures AsShipped(a) && AsShipped(b) ==>
      (Separation(a, b) == BaseGap(a.family, b.family) <==> !(a.family == Tool && b.family == Tool && a.bottom == 1))
  {
  }

  // ---- Planning ----

  function ContentRows(e: Entry, width: nat): seq<string> { (e.content)(Max(width, 1)) }

  function PaddingTop(entries: seq<Entry>, i: nat): nat
    requires i < |entries|
  {
    if i == 0 then 0 else entries[i].top
  }

  function PaddingBottom(entries: seq<Entry>, i: nat): nat
    requires i < |entries|
  {
    if i == |entries| - 1 then 0 else entries[i].bottom
  }

  predicate IsPlacement(entries: seq<Entry>, width: nat, planned: seq<PlannedEntry>, i: nat)
    requires i < |planned| <= |entries|
  {
    var p := planned[i];
    && p.index == i && p.family == entries[i].family
    && p.gapBefore == (if i == 0 then 0
                       else GapBetween(entries[i - 1].family, entries[i].family, PaddingBottom(entries, i - 1), PaddingTop(entries, i)))
    && p.rect.row == (if i == 0 then 0 else planned[i - 1].rect.End()) + p.gapBefore
    && p.rect.width == Max(width, 1)
    && p.rect.contentOffset == PaddingTop(entries, i)
    && p.rect.rows == PaddingTop(entries, i) + |ContentRows(entries[i], width)| + PaddingBottom(entries, i)
  }

  predicate IsPlan(entries: seq<Entry>, width: nat, plan: FramePlan)
  {
    && |plan.entries| == |entries|
    && (forall i :: 0 <= i < |entries| ==> IsPlacement(entries, width, plan.entries, i))
    && plan.trailingGap == (if entries == [] then 0 else TrailingGap(entries[|entries| - 1].family))
    && plan.totalRows == (if entries == [] then 0 else plan.entries[|entries| - 1].rect.End()) + plan.trailingGap
  }

  method Plan(entries: seq<Entry>, width: nat, backend: PlainBackend) returns (plan: FramePlan)
    ensures IsPlan(entries, width, plan)
  {
    var w := if width == 0 then 1 else width;
    var planned: seq<PlannedEntry> := [];
    var row := 0;
    var lastIndex := if |entries| == 0 then 0 else |entries| - 1;
    var hasPrev, prevFamily, prevBottom := false, User, 0;
    for index := 0 to |entries|
      invariant |planned| == index && (hasPrev <==> index > 0)
      invariant forall i :: 0 <= i < index ==> IsPlacement(entries, width, planned, i)
      invariant index > 0 ==> prevFamily == entries[index - 1].family && prevBottom == PaddingBottom(entries, index - 1)
      invariant row == if index == 0 then 0 else planned[index - 1].rect.End()
    {
      var entry := entries[index];
      var paddingTop := if hasPrev then entry.top else 0;
      var paddingBottom := if index == lastIndex then 0 else entry.bottom;
      var gapBefore := if hasPrev then GapBetween(prevFamily, entry.family, prevBottom, paddingTop) else 0;
      row := row + gapBefore;
      var measured := backend.Measure(entry, w);
      var rows := measured + paddingTop + paddingBottom;
      ghost var before := planned;
      planned := planned + [PlannedEntry(index, entry.family, gapBefore, RowRect(row, w, rows, paddingTop))];
      forall i | 0 <= i < index ensures IsPlacement(entries, width, planned, i) {
        assert IsPlacement(entries, width, before, i);
      }
      row := row + rows;
      hasPrev, prevFamily, prevBottom := true, entry.family, paddingBottom;
    }
    var trailingGap := if hasPrev then TrailingGap(prevFamily) else 0;
    plan := FramePlan(planned, trailingGap, row + trailingGap);
  }

  // ---- Painting ----

  function Blanks(n: nat): (r: seq<string>)
    ensures |r| == n && forall i :: 0 <= i < n ==> r[i] == ""
  {
    seq(n, _ => "")
  }

  /** `Vec::resize` with empty rows. */
  function Resized(lines: seq<string>, n: nat): (r: seq<string>)
    ensures |r| == n
  {
    if |lines| < n then lines + Blanks(n - |lines|) else lines[..n]
  }

  function EntryRows(e: Entry, width: nat, contentOffset: nat, rows: nat): seq<string>
  {
    var content := ContentRows(e, width);
    var lead := if contentOffset < rows then contentOffset else rows;
    var kept := if |content| < rows - lead then content else content[..rows - lead];
    Resized(Blanks(lead) + kept, rows)
  }

  function Rendered(lines: seq<string>, e: Entry, rect: RowRect): seq<string>
  {
    (if |lines| < rect.row then Resized(lines, rect.row) else lines) + EntryRows(e, rect.width, rect.contentOffset, rect.rows)
  }

  /** The first `k` entries painted in order on an empty backend. */
  function Painted(entries: seq<Entry>, planned: seq<PlannedEntry>, k: nat): seq<string>
    requires k <= |planned| == |entries|
  {
    if k == 0 then [] else Rendered(Painted(entries, planned, k - 1), entries[k - 1], planned[k - 1].rect)
  }

  class PlainBackend {
    var lines: seq<string>

    constructor ()
      ensures lines == []
    {
      lines := [];
    }

    method Measure(e: Entry, width: nat) returns (rows: nat)
      ensures rows == |ContentRows(e, width)|
    {
      rows := |ContentRows(e, width)|;
    }

    method Clear()
      modifies this
      ensures lines == []
    {
      lines := [];
    }

    method Render(e: Entry, rect: RowRect)
      modifies this
      ensures lines == Rendered(old(lines), e, rect)
    {
      if |lines| < rect.row { lines := Resized(lines, rect.row); }
      var content := ContentRows(e, rect.width);
      var lead := if rect.contentOffset < rect.rows then rect.contentOffset else rect.rows;
      var out := Blanks(lead);
      var keep := rect.rows - lead;
      out := out + if |content| < keep then content else content[..keep];
      out := Resized(out, rect.rows);
      lines := lines + out;
    }

    /** Clears the backend and paints a whole plan in order. */
    method PaintFrame(entries: seq<Entry>, width: nat, plan: FramePlan)
      requires IsPlan(entries, width, plan)
      modifies this
      ensures lines == Frame(entries, width) && |lines| == plan.totalRows - plan.trailingGap
    {
      hide Rendered, Frame, IsPlacement;
      Clear();
      for i := 0 to |entries|
        invariant lines == Painted(entries, plan.entries, i)
      {
        Render(entries[i], plan.entries[i].rect);
      }
      PaintingShowsTheFrame(entries, width, plan);
    }
  }

  // ---- The frame ----

  /** What a reader should see: the contents in order, each two neighbours apart by their separation, nothing around. */
  function Frame(entries: seq<Entry>, width: nat): seq<string>
  {
    if entries == [] then []
    else
      var before, e := entries[..|entries| - 1], entries[|entries| - 1];
      if before == [] then ContentRows(e, width)
      else Frame(before, width) + Blanks(Separation(before[|before| - 1], e)) + ContentRows(e, width)
  }

  lemma PlannedRows(e: Entry, width: nat, top: nat, bottom: nat)
    ensures EntryRows(e, Max(width, 1), top, top + |ContentRows(e, width)| + bottom) ==
      Blanks(top) + ContentRows(e, width) + Blanks(bottom)
  {
    var content := ContentRows(e, width);
    assert content[..|content|] == content;
  }

  lemma RenderedAfterGap(lines: seq<string>, e: Entry, rect: RowRect, gap: nat)
    requires rect.row == |lines| + gap
    ensures Rendered(lines, e, rect) == lines + Blanks(gap) + EntryRows(e, rect.width, rect.contentOffset, rect.rows)
  {
    assert Blanks(0) == [];
    assert lines + [] == lines && lines[..|lines|] == lines;
  }

  lemma FrameStep(entries: seq<Entry>, width: nat, k: nat)
    requires 1 < k <= |entries|
    ensures Frame(entries[..k], width) ==
      Frame(entries[..k - 1], width) + Blanks(Separation(entries[k - 2], entries[k - 1])) + ContentRows(entries[k - 1], width)
  {
    assert entries[..k][..k - 1] == entries[..k - 1];
  }

  /** After `k` entries the backend shows their frame, followed by the last one's bottom padding. */
  lemma {:induction false} PaintedPrefix(entries: seq<Entry>, width: nat, planned: seq<PlannedEntry>, k: nat)
    requires 0 < k <= |entries| == |planned|
    requires forall i :: 0 <= i < |entries| ==> IsPlacement(entries, width, planned, i)
    ensures Painted(entries, planned, k) == Frame(entries[..k], width) + Blanks(PaddingBottom(entries, k - 1))
    ensures |Painted(entries, planned, k)| == planned[k - 1].rect.End()
  {
    hide EntryRows, BaseGap, Rendered, Frame, ContentRows, Separation, Blanks;
    var e, rect := entries[k - 1], planned[k - 1].rect;
    var top, bottom := PaddingTop(entries, k - 1), PaddingBottom(entries, k - 1);
    assert IsPlacement(entries, width, planned, k - 1);
    PlannedRows(e, width, top, bottom);
    var rows := Blanks(top) + ContentRows(e, width) + Blanks(bottom);
    RenderedAfterGap(Painted(entries, planned, k - 1), e, rect, planned[k - 1].gapBefore) by {
      if k > 1 {
        PaintedPrefix(entries, width, planned, k - 1);
        assert IsPlacement(entries, width, planned, k - 2);
      }
    }
    if k > 1 {
      PaintedPrefix(entries, width, planned, k - 1);
      var frame, above, gap := Frame(entries[..k - 1], width), PaddingBottom(entries, k - 2), planned[k - 1].gapBefore;
      assert IsPlacement(entries, width, planned, k - 2);
      SpacingIsTheTablesIff(entries[k - 2], e);
      FrameStep(entries, width, k);
    } else {
      FrameOfOne(entries, width, bottom);
    }
  }

  lemma FrameOfOne(entries: seq<Entry>, width: nat, bottom: nat)
    requires entries != []
    ensures [] + Blanks(0) + (Blanks(0) + ContentRows(entries[0], width) + Blanks(bottom)) == Frame(entries[..1], width) + Blanks(bottom)
  {
    assert entries[..1][..0] == [] && entries[..1][0] == entries[0];
  }

  /** Painting any plan in order on an empty backend gives exactly the frame, with the planned number of rows. */
  lemma PaintingShowsTheFrame(entries: seq<Entry>, width: nat, plan: FramePlan)
    requires IsPlan(entries, width, plan)
    ensures Painted(entries, plan.entries, |entries|) == Frame(entries, width)
    ensures |Frame(entries, width)| == plan.totalRows - plan.trailingGap
  {
    if entries != [] {
      PaintedPrefix(entries, width, plan.entries, |entries|);
      assert entries[..|entries|] == entries;
    }
  }

  /** Whether row `r` holds content of entry `i`. */
  predicate InContent(entries: seq<Entry>, width: nat, plan: FramePlan, i: nat, r: nat)
    requires i < |plan.entries| == |entries|
  {
    var rect := plan.entries[i].rect;
    rect.row + rect.contentOffset <= r < rect.row + rect.contentOffset + |ContentRows(entries[i], width)|
  }

  /** The rectangles follow one another without overlap. */
  lemma {:induction false} RectsAreOrdered(entries: seq<Entry>, width: nat, plan: FramePlan, i: nat, j: nat)
    requires IsPlan(entries, width, plan) && i < j < |entries|
    ensures plan.entries[i].rect.End() <= plan.entries[j].rect.row
    decreases j
  {
    assert IsPlacement(entries, width, plan.entries, j);
    if i < j - 1 {
      RectsAreOrdered(entries, width, plan, i, j - 1);
      assert IsPlacement(entries, width, plan.entries, j - 1);
    }
  }

  /** Where the content of entry `k - 1` starts, in the frame of the first `k`. */
  lemma NextContent(entries: seq<Entry>, width: nat, plan: FramePlan, k: nat)
    requires IsPlan(entries, width, plan) && 0 < k <= |entries|
    ensures var rect, frame, content := plan.entries[k - 1].rect, Frame(entries[..k], width), ContentRows(entries[k - 1], width);
      var at := rect.row + rect.contentOffset;
      at + |content| == |frame| && frame[at..] == content && (k == 1 ==> at == 0)
    ensures k > 1 ==> Frame(entries[..k - 1], width) <= Frame(entries[..k], width)
    ensures k > 1 ==>
      |Frame(entries[..k - 1], width)| <= plan.entries[k - 1].rect.row + plan.entries[k - 1].rect.contentOffset
    ensures k > 1 ==> forall r: nat ::
      |Frame(entries[..k - 1], width)| <= r < plan.entries[k - 1].rect.row + plan.entries[k - 1].rect.contentOffset ==>
      Frame(entries[..k], width)[r] == ""
  {
    hide EntryRows, BaseGap, Painted, ContentRows, Separation;
    assert IsPlacement(entries, width, plan.entries, k - 1);
    if k > 1 {
      hide Frame;
      PaintedPrefix(entries, width, plan.entries, k - 1);
      assert IsPlacement(entries, width, plan.entries, k - 2);
      SpacingIsTheTablesIff(entries[k - 2], entries[k - 1]);
      FrameStep(entries, width, k);
    } else {
      assert entries[..1][..0] == [] && entries[..1][0] == entries[0];
    }
  }

  lemma EarlierContentIsInside(entries: seq<Entry>, width: nat, plan: FramePlan, k: nat, i: nat, r: nat)
    requires IsPlan(entries, width, plan) && i < k <= |entries| && InContent(entries, width, plan, i, r)
    ensures r < |Frame(entries[..k], width)|
  {
    hide Frame, ContentRows;
    NextContent(entries, width, plan, k);
    assert IsPlacement(entries, width, plan.entries, i);
    assert IsPlacement(entries, width, plan.entries, k - 1);
    if i < k - 1 { RectsAreOrdered(entries, width, plan, i, k - 1); }
  }

  /** Within the frame of the first `k` entries, a row is the content of the entry it belongs to, or blank. */
  ghost predicate RowIsPlaced(entries: seq<Entry>, width: nat, plan: FramePlan, k: nat, r: nat)
    requires k <= |plan.entries| == |entries| && r < |Frame(entries[..k], width)|
  {
    && (forall i: nat :: i < k && InContent(entries, width, plan, i, r) ==>
          var rect := plan.entries[i].rect;
          Frame(entries[..k], width)[r] == ContentRows(entries[i], width)[r - rect.row - rect.contentOffset])
    && ((forall i: nat :: i < k ==> !InContent(entries, width, plan, i, r)) ==> Frame(entries[..k], width)[r] == "")
  }

  lemma {:induction false} ContentPlaces(entries: seq<Entry>, width: nat, plan: FramePlan, k: nat, r: nat)
    requires IsPlan(entries, width, plan) && 0 < k <= |entries| && r < |Frame(entries[..k], width)|
    ensures RowIsPlaced(entries, width, plan, k, r)
    decreases k
  {
    hide Frame, ContentRows;
    NextContent(entries, width, plan, k);
    var frame, before := Frame(entries[..k], width), Frame(entries[..k - 1], width);
    var at := plan.entries[k - 1].rect.row + plan.entries[k - 1].rect.contentOffset;
    forall i: nat | i < k - 1 && InContent(entries, width, plan, i, r) ensures r < |before| {
      EarlierContentIsInside(entries, width, plan, k - 1, i, r);
    }
    if k > 1 && r < |before| {
      ContentPlaces(entries, width, plan, k - 1, r);
      assert frame[r] == before[r];
    } else if at <= r {
      assert frame[r] == frame[at..][r - at];
      assert InContent(entries, width, plan, k - 1, r);
    }
  }

  /** Each entry's content stands whole and in order where its rectangle says, inside the frame. */
  lemma ContentIsInTheFrame(entries: seq<Entry>, width: nat, plan: FramePlan, i: nat, j: nat)
    requires IsPlan(entries, width, plan) && i < |entries| && j < |ContentRows(entries[i], width)|
    ensures var at := plan.entries[i].rect.row + plan.entries[i].rect.contentOffset + j;
      at < |Frame(entries, width)| && Frame(entries, width)[at] == ContentRows(entries[i], width)[j]
  {
    hide BaseGap, Frame, ContentRows, Painted;
    var n, at := |entries|, plan.entries[i].rect.row + plan.entries[i].rect.contentOffset + j;
    assert entries[..n] == entries;
    PaintingShowsTheFrame(entries, width, plan);
    assert IsPlacement(entries, width, plan.entries, i);
    if i < n - 1 {
      RectsAreOrdered(entries, width, plan, i, n - 1);
      assert IsPlacement(entries, width, plan.entries, n - 1);
    }
    assert InContent(entries, width, plan, i, at);
    ContentPlaces(entries, width, plan, n, at);
  }

  /** Any row of the frame is the content of the entry whose rectangle's content part it is in, or else blank. */
  lemma EveryRowIsAccountedFor(entries: seq<Entry>, width: nat, plan: FramePlan, r: nat)
    requires IsPlan(entries, width, plan) && r < |Frame(entries, width)|
    ensures forall i: nat :: i < |entries| && InContent(entries, width, plan, i, r) ==>
      var rect := plan.entries[i].rect;
      Frame(entries, width)[r] == ContentRows(entries[i], width)[r - rect.row - rect.contentOffset]
    ensures (forall i: nat :: i < |entries| ==> !InContent(entries, width, plan, i, r)) ==> Frame(entries, width)[r] == ""
  {
    hide ContentRows;
    assert entries[..|entries|] == entries;
    ContentPlaces(entries, width, plan, |entries|, r);
  }

  // ---- The edges of the frame ----

  /** The row at which the content of entry `i` starts. */
  function ContentStart(plan: FramePlan, i: nat): nat
    requires i < |plan.entries|
  {
    plan.entries[i].rect.row + plan.entries[i].rect.contentOffset
  }

  /** Contents start at row 0, and each one its predecessor's rows and their separation after it. */
  lemma ContentStarts(entries: seq<Entry>, width: nat, plan: FramePlan, i: nat)
    requires IsPlan(entries, width, plan) && i < |entries|
    ensures i == 0 ==> ContentStart(plan, i) == 0
    ensures i > 0 ==>
      ContentStart(plan, i) == ContentStart(plan, i - 1) + |ContentRows(entries[i - 1], width)| + Separation(entries[i - 1], entries[i])
  {
    assert IsPlacement(entries, width, plan.entries, i);
    if i > 0 {
      assert IsPlacement(entries, width, plan.entries, i - 1);
      SpacingIsTheTablesIff(entries[i - 1], entries[i]);
    }
  }

  /**
   * The spacing rules on a plan: one tool entry follows another without a gap, a tool entry and an assistant entry are
   * one row apart, any others two; paddings count towards that. Only a user entry has a row below it at the end.
   */
  lemma PlanFollowsTheTable(entries: seq<Entry>, width: nat, plan: FramePlan, i: nat)
    requires IsPlan(entries, width, plan) && 0 < i < |entries|
    ensures var a, b := entries[i - 1], entries[i];
      var table := match (a.family, b.family)
        case (Tool, Tool) => 0
        case (Tool, Assistant) => 1
        case (Assistant, Tool) => 1
        case _ => 2;
      ContentStart(plan, i) == ContentStart(plan, i - 1) + |ContentRows(a, width)| + Max(table, a.bottom + b.top)
    ensures plan.totalRows == |Frame(entries, width)| + (if entries[|entries| - 1].family == User then 1 else 0)
  {
    hide ContentStart, ContentRows, Frame;
    ContentStarts(entries, width, plan, i);
    PaintingShowsTheFrame(entries, width, plan);
  }

  /**
   * An entry is given the frame's width, or one column when there is none, and rows for its content and its paddings;
   * the first entry has none above and the last none below.
   */
  lemma EntryIsGivenItsRows(entries: seq<Entry>, width: nat, plan: FramePlan, i: nat)
    requires IsPlan(entries, width, plan) && i < |entries|
    ensures var e, rect, w := entries[i], plan.entries[i].rect, if width == 0 then 1 else width;
      var top, bottom := if i == 0 then 0 else e.top, if i == |entries| - 1 then 0 else e.bottom;
      && plan.entries[i].index == i && plan.entries[i].family == e.family
      && rect.width == w && rect.contentOffset == top && rect.rows == top + |(e.content)(w)| + bottom
  {
    assert IsPlacement(entries, width, plan.entries, i);
  }

  /** Every row of a painted rectangle, whatever its size: the content cut to what fits, blanks around it. */
  lemma RenderedRow(lines: seq<string>, e: Entry, rect: RowRect, r: nat)
    ensures var out := Rendered(lines, e, rect);
      && |out| == Max(|lines|, rect.row) + rect.rows
      && (r < |lines| ==> out[r] == lines[r])
      && (|lines| <= r < rect.row ==> out[r] == "")
    ensures r < rect.rows ==>
      var row, content := Rendered(lines, e, rect)[Max(|lines|, rect.row) + r], (e.content)(Max(rect.width, 1));
      row == if rect.contentOffset <= r < rect.contentOffset + |content| then content[r - rect.contentOffset] else ""
  {
  }

  /** Nothing stands before entry `f`: what precedes it has no rows and is not separated. */
  predicate NothingBefore(entries: seq<Entry>, width: nat, f: nat)
    requires f < |entries|
  {
    forall j :: 0 <= j < f ==> ContentRows(entries[j], width) == [] && Separation(entries[j], entries[j + 1]) == 0
  }

  predicate NothingAfter(entries: seq<Entry>, width: nat, l: nat)
    requires l < |entries|
  {
    forall j :: l < j < |entries| ==> ContentRows(entries[j], width) == [] && Separation(entries[j - 1], entries[j]) == 0
  }

  lemma {:induction false} StartsAtTheTopIff(entries: seq<Entry>, width: nat, plan: FramePlan, f: nat)
    requires IsPlan(entries, width, plan) && f < |entries|
    ensures ContentStart(plan, f) == 0 <==> NothingBefore(entries, width, f)
  {
    hide ContentRows, Separation, IsPlan, ContentStart;
    ContentStarts(entries, width, plan, f);
    if f > 0 { StartsAtTheTopIff(entries, width, plan, f - 1); }
  }

  lemma {:induction false} EndsAtTheBottomIff(entries: seq<Entry>, width: nat, plan: FramePlan, l: nat)
    requires IsPlan(entries, width, plan) && l < |entries|
    ensures ContentStart(plan, l) + |ContentRows(entries[l], width)| <= |Frame(entries, width)|
    ensures ContentStart(plan, l) + |ContentRows(entries[l], width)| == |Frame(entries, width)| <==> NothingAfter(entries, width, l)
    decreases |entries| - l
  {
    hide Frame, ContentRows, Separation, ContentStart, IsPlan;
    if l == |entries| - 1 {
      LastContentEnds(entries, width, plan);
    } else {
      ContentStarts(entries, width, plan, l + 1);
      EndsAtTheBottomIff(entries, width, plan, l + 1);
    }
  }

  lemma LastContentEnds(entries: seq<Entry>, width: nat, plan: FramePlan)
    requires IsPlan(entries, width, plan) && entries != []
    ensures ContentStart(plan, |entries| - 1) + |ContentRows(entries[|entries| - 1], width)| == |Frame(entries, width)|
  {
    assert IsPlacement(entries, width, plan.entries, |entries| - 1);
    PaintingShowsTheFrame(entries, width, plan);
  }

  predicate IsTop(entries: seq<Entry>, width: nat, f: nat)
  {
    f < |entries| && ContentRows(entries[f], width) != [] && NothingBefore(entries, width, f)
  }

  predicate IsBottom(entries: seq<Entry>, width: nat, l: nat)
  {
    l < |entries| && ContentRows(entries[l], width) != [] && NothingAfter(entries, width, l)
  }

  predicate Holds(entries: seq<Entry>, width: nat, plan: FramePlan, i: nat, r: nat)
    requires |plan.entries| == |entries|
  {
    i < |entries| && InContent(entries, width, plan, i, r)
  }

  /** Row `r` is a content row of some entry. */
  ghost predicate IsContentRow(entries: seq<Entry>, width: nat, plan: FramePlan, r: nat)
    requires |plan.entries| == |entries|
  {
    exists i: nat :: Holds(entries, width, plan, i, r)
  }

  lemma EdgeOf(entries: seq<Entry>, width: nat, plan: FramePlan, i: nat)
    requires IsPlan(entries, width, plan) && Frame(entries, width) != []
    ensures Holds(entries, width, plan, i, 0) <==> IsTop(entries, width, i)
    ensures Holds(entries, width, plan, i, |Frame(entries, width)| - 1) <==> IsBottom(entries, width, i)
  {
    hide Frame, ContentRows, NothingBefore, NothingAfter;
    if i < |entries| {
      StartsAtTheTopIff(entries, width, plan, i);
      EndsAtTheBottomIff(entries, width, plan, i);
    }
  }

  /**
   * The frame's first row is a content row exactly when nothing stands before the first entry that has content, and its
   * last row exactly when nothing stands after the last one: an entry without rows must not even be separated.
   */
  lemma EdgesAreContentIff(entries: seq<Entry>, width: nat, plan: FramePlan)
    requires IsPlan(entries, width, plan) && Frame(entries, width) != []
    ensures IsContentRow(entries, width, plan, 0) <==> exists f: nat :: IsTop(entries, width, f)
    ensures IsContentRow(entries, width, plan, |Frame(entries, width)| - 1) <==> exists l: nat :: IsBottom(entries, width, l)
  {
    hide Frame, Holds, IsTop, IsBottom;
    var bottom := |Frame(entries, width)| - 1;
    forall i: nat
      ensures Holds(entries, width, plan, i, 0) <==> IsTop(entries, width, i)
      ensures Holds(entries, width, plan, i, bottom) <==> IsBottom(entries, width, i)
    {
      EdgeOf(entries, width, plan, i);
    }
  }

  /** The input that fails: a message without rows comes first, and the frame begins with two blank rows. */
  lemma EmptyMessageLeavesBlankRows(width: nat)
    ensures var entries := [Entry(User, 0, 0, _ => []), Entry(Assistant, 0, 0, _ => ["x"])];
      Frame(entries, width) == ["", "", "x"]
  {
    var first, second := Entry(User, 0, 0, _ => []), Entry(Assistant, 0, 0, _ => ["x"]);
    var entries := [first, second];
    assert entries[..1] == [first] && [first][..0] == [];
    assert Frame([first], width) == [];
    assert Frame(entries, width) == [] + Blanks(2) + ["x"];
    assert Blanks(2) == ["", ""];
  }
}
