/** Splitting a unified diff into its old and new side, and the printer it undoes. */
module UnifiedDiff {
  import opened Options
  import opened Sequences
  import opened Text

  // ---- The splitter ----

  /** What one line of a diff contributes to the two sides. */
  datatype Part = Dropped | OldOnly(text: string) | NewOnly(text: string) | Both(text: string)

  function Classify(line: string): Part
  {
    if "--- " <= line || "+++ " <= line || "@@" <= line then Dropped
    else if "\\" <= line then Dropped
    else if "-" <= line then OldOnly(line[1..])
    else if "+" <= line then NewOnly(line[1..])
    else if " " <= line then Both(line[1..])
    else Both(line)
  }

  /** The old side, the new side, and whether the diff has an old-side line at all. */
  datatype Sides = Sides(old': string, new': string, hasOld: bool)

  function Take(s: Sides, p: Part): Sides
  {
    match p
    case Dropped => s
    case OldOnly(t) => Sides(s.old' + t + "\n", s.new', true)
    case NewOnly(t) => Sides(s.old', s.new' + t + "\n", s.hasOld)
    case Both(t) => Sides(s.old' + t + "\n", s.new' + t + "\n", true)
  }

  function TakeAll(s: Sides, lines: seq<string>): Sides
    decreases |lines|
  {
    if lines == [] then s else TakeAll(Take(s, Classify(lines[0])), lines[1..])
  }

  const Nothing := Sides("", "", false)

  function Answer(s: Sides): (Option<string>, string) { (if s.hasOld then Some(s.old') else None, s.new') }

  method SplitUnifiedDiff(text: string) returns (oldText: Option<string>, newText: string)
    ensures (oldText, newText) == Answer(TakeAll(Nothing, Lines(text)))
  {
    var lines := Lines(text);
    var o, n, hasOld := "", "", false;
    var i := 0;
    while i < |lines|
      invariant i <= |lines|
      invariant TakeAll(Nothing, lines) == TakeAll(Sides(o, n, hasOld), lines[i..])
    {
      var line := lines[i];
      assert lines[i..][0] == line && lines[i..][1..] == lines[i + 1..];
      i := i + 1;
      if "--- " <= line || "+++ " <= line || "@@" <= line { continue; }
      if "\\" <= line { continue; }
      if "-" <= line {
        o, hasOld := o + line[1..] + "\n", true;
      } else if "+" <= line {
        n := n + line[1..] + "\n";
      } else {
        var body := if " " <= line then line[1..] else line;
        o, n, hasOld := o + body + "\n", n + body + "\n", true;
      }
    }
    oldText, newText := if hasOld then Some(o) else None, n;
  }

  // ---- The printer ----

  /** One line of a unified diff; `text` is what follows the marker. */
  datatype DiffLine =
    | Context(text: string) | Removed(text: string) | Added(text: string)
    | OldHeader(text: string) | NewHeader(text: string) | HunkHeader(text: string) | NoNewlineMarker(text: string)

  function Printed(l: DiffLine): string
  {
    match l
    case Context(t) => " " + t
    case Removed(t) => "-" + t
    case Added(t) => "+" + t
    case OldHeader(t) => "--- " + t
    case NewHeader(t) => "+++ " + t
    case HunkHeader(t) => "@@" + t
    case NoNewlineMarker(t) => "\\" + t
  }

  function Print(ls: seq<DiffLine>): string
  {
    if ls == [] then "" else Printed(ls[0]) + "\n" + Print(ls[1..])
  }

  /** What the line means, read off the hunk itself. */
  function Meaning(l: DiffLine): Part
  {
    match l
    case Context(t) => Both(t)
    case Removed(t) => OldOnly(t)
    case Added(t) => NewOnly(t)
    case _ => Dropped
  }

  function MeaningAll(s: Sides, ls: seq<DiffLine>): Sides
    decreases |ls|
  {
    if ls == [] then s else MeaningAll(Take(s, Meaning(ls[0])), ls[1..])
  }

  /** The guards of the splitter: no carriage return at the end, no text that reads as a file header. */
  predicate Survives(l: DiffLine)
  {
    match l
    case Context(t) => StripCr(t) == t
    case Removed(t) => StripCr(t) == t && !("-- " <= t)
    case Added(t) => StripCr(t) == t && !("++ " <= t)
    case _ => true
  }

  /** The splitter's reading of a printed line. */
  function Reading(l: DiffLine): Part { Classify(StripCr(Printed(l))) }

  lemma {:induction false} LinesOfPrint(ls: seq<DiffLine>, s: Sides)
    requires forall i :: 0 <= i < |ls| ==> OneLine(ls[i].text)
    ensures TakeAll(s, Lines(Print(ls))) == if ls == [] then s else TakeAll(Take(s, Reading(ls[0])), Lines(Print(ls[1..])))
  {
    hide Classify, Take;
    if ls != [] {
      var line := Printed(ls[0]);
      assert OneLine(line);
      LinesStep(line, Print(ls[1..]));
      var later := Lines(Print(ls[1..]));
      assert Lines(Print(ls)) == [StripCr(line)] + later;
      assert ([StripCr(line)] + later)[1..] == later;
    }
  }

  /** How much text the part adds to one side. */
  function Kept(p: Part, onOld: bool): nat
  {
    match p
    case Dropped => 0
    case OldOnly(x) => if onOld then |x| + 1 else 0
    case NewOnly(x) => if onOld then 0 else |x| + 1
    case Both(x) => |x| + 1
  }

  lemma StripCrBehindMarker(c: char, t: string)
    requires c != '\r'
    ensures StripCr([c] + t) == [c] + StripCr(t)
  {
  }

  /** Whether a text starts with two dashes (or pluses) and a blank does not depend on a final carriage return. */
  lemma HeaderPrefix(c: char, t: string)
    requires c != '\r'
    ensures [c, c, ' '] <= StripCr(t) <==> [c, c, ' '] <= t
    ensures [c, c, c, ' '] <= [c] + t <==> [c, c, ' '] <= t
  {
    assert [c, c, ' '] <= t <==> |t| >= 3 && t[0] == c && t[1] == c && t[2] == ' ';
    var u := [c] + t;
    assert [c, c, c, ' '] <= u <==> |u| >= 4 && u[0] == c && u[1] == c && u[2] == c && u[3] == ' ';
  }

  lemma ReadingOfContext(t: string)
    ensures Reading(Context(t)) == Both(StripCr(t))
  {
    StripCrBehindMarker(' ', t);
    assert (" " + StripCr(t))[0] == ' ' && (" " + StripCr(t))[1..] == StripCr(t);
  }

  lemma ReadingOfRemoved(t: string)
    ensures Reading(Removed(t)) == if "-- " <= t then Dropped else OldOnly(StripCr(t))
  {
    StripCrBehindMarker('-', t);
    HeaderPrefix('-', t);
    HeaderPrefix('-', StripCr(t));
    var p := "-" + StripCr(t);
    assert p[0] == '-' && p[1..] == StripCr(t);
  }

  lemma ReadingOfAdded(t: string)
    ensures Reading(Added(t)) == if "++ " <= t then Dropped else NewOnly(StripCr(t))
  {
    StripCrBehindMarker('+', t);
    HeaderPrefix('+', t);
    HeaderPrefix('+', StripCr(t));
    var p := "+" + StripCr(t);
    assert p[0] == '+' && p[1..] == StripCr(t);
  }

  lemma ReadingOfHeader(l: DiffLine)
    requires !l.Context? && !l.Removed? && !l.Added?
    ensures Reading(l) == Dropped
  {
    var p := StripCr(Printed(l));
    match l
    case OldHeader(t) => assert p[..4] == "--- ";
    case NewHeader(t) => assert p[..4] == "+++ ";
    case HunkHeader(t) => assert p[..2] == "@@";
    case NoNewlineMarker(t) => assert p[..1] == "\\"; assert p[0] == '\\';
  }

  /** A line that survives is read as it was meant; any other loses text, and no line ever gains any. */
  lemma ReadingOfLine(l: DiffLine)
    ensures Survives(l) ==> Reading(l) == Meaning(l)
    ensures Kept(Reading(l), true) <= Kept(Meaning(l), true)
    ensures Kept(Reading(l), false) <= Kept(Meaning(l), false)
    ensures !Survives(l) ==>
      Kept(Reading(l), true) + Kept(Reading(l), false) < Kept(Meaning(l), true) + Kept(Meaning(l), false)
  {
    hide Reading;
    match l
    case Context(t) => ReadingOfContext(t);
    case Removed(t) => ReadingOfRemoved(t);
    case Added(t) => ReadingOfAdded(t);
    case _ => ReadingOfHeader(l);
  }

  lemma {:induction false} FaithfulLines(ls: seq<DiffLine>, s: Sides)
    requires forall i :: 0 <= i < |ls| ==> OneLine(ls[i].text) && Survives(ls[i])
    ensures TakeAll(s, Lines(Print(ls))) == MeaningAll(s, ls)
    decreases |ls|
  {
    LinesOfPrint(ls, s);
    if ls != [] {
      ReadingOfLine(ls[0]);
      FaithfulLines(ls[1..], Take(s, Meaning(ls[0])));
    }
  }

  /** The total length of both sides, which an unfaithful line shortens for good. */
  lemma {:induction false} LostTextIsNeverMadeUp(ls: seq<DiffLine>, s: Sides, m: Sides)
    requires forall i :: 0 <= i < |ls| ==> OneLine(ls[i].text)
    requires |s.old'| <= |m.old'| && |s.new'| <= |m.new'|
    ensures var r, e := TakeAll(s, Lines(Print(ls))), MeaningAll(m, ls);
      && |r.old'| <= |e.old'| && |r.new'| <= |e.new'|
      && ((exists i :: 0 <= i < |ls| && !Survives(ls[i])) || |s.old'| + |s.new'| < |m.old'| + |m.new'| ==>
           |r.old'| + |r.new'| < |e.old'| + |e.new'|)
    decreases |ls|
  {
    hide Reading, Meaning, Survives, Lines, Print;
    LinesOfPrint(ls, s);
    if ls != [] {
      ReadingOfLine(ls[0]);
      LostTextIsNeverMadeUp(ls[1..], Take(s, Reading(ls[0])), Take(m, Meaning(ls[0])));
      assert forall i :: 0 < i < |ls| ==> ls[i] == ls[1..][i - 1];
    }
  }

  /** The old text of a diff: its context and what it removes, line by line. */
  function OldSide(ls: seq<DiffLine>): string
  {
    if ls == [] then ""
    else (if ls[0].Context? || ls[0].Removed? then ls[0].text + "\n" else "") + OldSide(ls[1..])
  }

  /** The new text of a diff: its context and what it adds. */
  function NewSide(ls: seq<DiffLine>): string
  {
    if ls == [] then ""
    else (if ls[0].Context? || ls[0].Added? then ls[0].text + "\n" else "") + NewSide(ls[1..])
  }

  predicate HasOldSide(ls: seq<DiffLine>) { exists i :: 0 <= i < |ls| && (ls[i].Context? || ls[i].Removed?) }

  lemma {:induction false} MeaningIsBothSides(s: Sides, ls: seq<DiffLine>)
    ensures MeaningAll(s, ls) == Sides(s.old' + OldSide(ls), s.new' + NewSide(ls), s.hasOld || HasOldSide(ls))
    decreases |ls|
  {
    hide Take, Meaning, HasOldSide;
    if ls == [] {
      assert s.old' + "" == s.old' && s.new' + "" == s.new';
      assert !HasOldSide(ls) by { NoLinesNoOldSide(); }
    } else {
      var o := if ls[0].Context? || ls[0].Removed? then ls[0].text + "\n" else "";
      var n := if ls[0].Context? || ls[0].Added? then ls[0].text + "\n" else "";
      OneMeaning(s, ls[0], o, n);
      MeaningIsBothSides(Take(s, Meaning(ls[0])), ls[1..]);
      HasOldSideStep(ls);
      hide MeaningAll, OldSide, NewSide;
      Regroup(s.old', o, OldSide(ls[1..]));
      Regroup(s.new', n, NewSide(ls[1..]));
    }
  }

  lemma NoLinesNoOldSide()
    ensures !HasOldSide([])
  {
  }

  lemma OneMeaning(s: Sides, l: DiffLine, o: string, n: string)
    requires o == if l.Context? || l.Removed? then l.text + "\n" else ""
    requires n == if l.Context? || l.Added? then l.text + "\n" else ""
    ensures Take(s, Meaning(l)) == Sides(s.old' + o, s.new' + n, s.hasOld || l.Context? || l.Removed?)
  {
    assert s.old' + "" == s.old' && s.new' + "" == s.new';
    Regroup(s.old', l.text, "\n");
    Regroup(s.new', l.text, "\n");
  }

  lemma HasOldSideStep(ls: seq<DiffLine>)
    requires ls != []
    ensures HasOldSide(ls) <==> ls[0].Context? || ls[0].Removed? || HasOldSide(ls[1..])
  {
    assert forall i :: 0 < i < |ls| ==> ls[i] == ls[1..][i - 1];
    assert forall i :: 0 <= i < |ls| - 1 ==> ls[1..][i] == ls[i + 1];
  }

  lemma SurvivesIff(l: DiffLine)
    ensures Survives(l) <==>
      && ((l.Context? || l.Removed? || l.Added?) && l.text != "" ==> l.text[|l.text| - 1] != '\r')
      && (l.Removed? ==> !("-- " <= l.text)) && (l.Added? ==> !("++ " <= l.text))
  {
  }

  /**
   * Splitting a printed diff gives back its old and its new text, for any hunks with any headers and markers, exactly
   * when no line ends in a carriage return, no removed text starts with `-- ` and no added text starts with `++ `.
   */
  lemma SplitUndoesPrint(ls: seq<DiffLine>)
    requires forall i :: 0 <= i < |ls| ==> OneLine(ls[i].text)
    ensures Answer(TakeAll(Nothing, Lines(Print(ls)))) == (if HasOldSide(ls) then Some(OldSide(ls)) else None, NewSide(ls))
      <==> forall l :: l in ls ==>
        && ((l.Context? || l.Removed? || l.Added?) && l.text != "" ==> l.text[|l.text| - 1] != '\r')
        && (l.Removed? ==> !("-- " <= l.text)) && (l.Added? ==> !("++ " <= l.text))
  {
    hide Survives, Print, Lines, TakeAll, MeaningAll, OldSide, NewSide, HasOldSide, OneLine;
    MeaningIsBothSides(Nothing, ls);
    assert "" + OldSide(ls) == OldSide(ls) && "" + NewSide(ls) == NewSide(ls);
    SplitUndoesPrintIff(ls);
    forall i | 0 <= i < |ls| ensures ls[i] in ls { }
    forall l: DiffLine { SurvivesIff(l); }
  }

  lemma SplitUndoesPrintIff(ls: seq<DiffLine>)
    requires forall i :: 0 <= i < |ls| ==> OneLine(ls[i].text)
    ensures Answer(TakeAll(Nothing, Lines(Print(ls)))) == Answer(MeaningAll(Nothing, ls))
      <==> forall i :: 0 <= i < |ls| ==> Survives(ls[i])
  {
    if forall i :: 0 <= i < |ls| ==> Survives(ls[i]) {
      FaithfulLines(ls, Nothing);
    } else {
      LostTextIsNeverMadeUp(ls, Nothing, Nothing);
      NoOldLineNoOldText(ls, Nothing);
    }
  }

  /** A line without any marker is context as it stands. */
  lemma UnmarkedLineIsContext(line: string)
    requires OneLine(line) && (line == "" || line[|line| - 1] != '\r')
    requires line == "" || (line[0] !in "-+ @" && line[0] != '\\')
    ensures Answer(TakeAll(Nothing, Lines(line + "\n"))) == (Some(line + "\n"), line + "\n")
  {
    LinesStep(line, "");
    UnfinishedLine("");
    assert Classify(line) == Both(line) by { FirstCharacters(line); }
    hide Lines, Classify, StripCr;
    assert line + "\n" + "" == line + "\n" && [line] + [] == [line];
    assert TakeAll(Nothing, [line]) == Take(Nothing, Both(line)) by { assert [line][1..] == []; }
    assert "" + line == line;
  }

  lemma FirstCharacters(line: string)
    requires line == "" || (line[0] !in "-+ @" && line[0] != '\\')
    ensures !("--- " <= line) && !("+++ " <= line) && !("@@" <= line) && !("\\" <= line)
    ensures !("-" <= line) && !("+" <= line) && !(" " <= line)
  {
    assert "-+ @"[0] == '-' && "-+ @"[1] == '+' && "-+ @"[2] == ' ' && "-+ @"[3] == '@';
    if line != "" { assert line[0] != '-' && line[0] != '+' && line[0] != ' ' && line[0] != '@'; }
  }

  lemma {:induction false} NoOldLineNoOldText(ls: seq<DiffLine>, s: Sides)
    requires !s.hasOld ==> s.old' == ""
    ensures var e := MeaningAll(s, ls); !e.hasOld ==> e.old' == ""
    decreases |ls|
  {
    if ls != [] { NoOldLineNoOldText(ls[1..], Take(s, Meaning(ls[0]))); }
  }

  /** Context, or a removal that does not read as a file header. */
  predicate LeavesOld(l: DiffLine) { l.Context? || (l.Removed? && !("-- " <= l.text)) }

  lemma LeavesOldIff(l: DiffLine, s: Sides)
    ensures Take(s, Reading(l)).hasOld <==> s.hasOld || LeavesOld(l)
  {
    hide Reading;
    match l
    case Context(t) => ReadingOfContext(t);
    case Removed(t) => ReadingOfRemoved(t);
    case Added(t) => ReadingOfAdded(t);
    case _ => ReadingOfHeader(l);
  }

  lemma {:induction false} HasOldIff(ls: seq<DiffLine>, s: Sides)
    requires forall i :: 0 <= i < |ls| ==> OneLine(ls[i].text)
    ensures TakeAll(s, Lines(Print(ls))).hasOld <==> s.hasOld || exists i :: 0 <= i < |ls| && LeavesOld(ls[i])
    decreases |ls|
  {
    hide Reading, Take, LeavesOld, Lines, Print, OneLine;
    LinesOfPrint(ls, s);
    if ls != [] {
      LeavesOldIff(ls[0], s);
      HasOldIff(ls[1..], Take(s, Reading(ls[0])));
      assert forall i :: 0 < i < |ls| ==> ls[i] == ls[1..][i - 1];
      assert forall i :: 0 <= i < |ls| - 1 ==> ls[1..][i] == ls[i + 1];
    }
  }

  /**
   * The old side is absent exactly when the diff has no context and each of its removals reads as a file header: for
   * a new file, and for one whose removed lines all start with `-- `.
   */
  lemma OldSideIsAbsentIff(ls: seq<DiffLine>)
    requires forall i :: 0 <= i < |ls| ==> OneLine(ls[i].text)
    ensures Answer(TakeAll(Nothing, Lines(Print(ls)))).0.None?
      <==> forall i :: 0 <= i < |ls| ==> !ls[i].Context? && (ls[i].Removed? ==> "-- " <= ls[i].text)
  {
    HasOldIff(ls, Nothing);
    assert forall i :: 0 <= i < |ls| ==> (LeavesOld(ls[i]) <==> ls[i].Context? || (ls[i].Removed? && !("-- " <= ls[i].text)));
  }

  lemma PrintedIsOneLine(l: DiffLine)
    requires OneLine(l.text)
    ensures OneLine(Printed(l)) && Printed(l) != ""
  {
  }

  /** A diff without a newline at its very end reads the same, but for a carriage return that nothing strips. */
  lemma {:induction false} LastNewlineDoesNotMatter(ls: seq<DiffLine>, l: DiffLine, s: Sides)
    requires OneLine(l.text) && forall i :: 0 <= i < |ls| ==> OneLine(ls[i].text)
    requires l.text == "" || l.text[|l.text| - 1] != '\r'
    ensures TakeAll(s, Lines(Print(ls) + Printed(l))) == TakeAll(s, Lines(Print(ls + [l])))
    decreases |ls|
  {
    hide Classify, Take, Printed, Lines, StripCr;
    if ls == [] {
      PrintedIsOneLine(l);
      UnfinishedLine(Printed(l));
      LinesStep(Printed(l), "");
      UnfinishedLine("");
      NoCarriageReturn(l);
      assert ls + [l] == [l] && [l][1..] == [] && Printed(l) + "\n" + "" == Printed(l) + "\n";
      assert [Printed(l)] + [] == [Printed(l)] && Print(ls) + Printed(l) == Printed(l);
    } else {
      var line, rest := Printed(ls[0]), ls[1..];
      PrintedIsOneLine(ls[0]);
      assert (ls + [l])[0] == ls[0] && (ls + [l])[1..] == rest + [l];
      LinesStep(line, Print(rest) + Printed(l));
      LinesStep(line, Print(rest + [l]));
      assert Print(ls) + Printed(l) == line + "\n" + (Print(rest) + Printed(l));
      TakeFirst(s, StripCr(line), Lines(Print(rest) + Printed(l)));
      TakeFirst(s, StripCr(line), Lines(Print(rest + [l])));
      LastNewlineDoesNotMatter(rest, l, Take(s, Classify(StripCr(line))));
    }
  }

  lemma NoCarriageReturn(l: DiffLine)
    requires l.text == "" || l.text[|l.text| - 1] != '\r'
    ensures StripCr(Printed(l)) == Printed(l)
  {
  }

  lemma TakeFirst(s: Sides, line: string, later: seq<string>)
    ensures TakeAll(s, [line] + later) == TakeAll(Take(s, Classify(line)), later)
  {
    hide Classify, Take;
    assert ([line] + later)[1..] == later;
  }

  /** A removed SQL comment reads as a file header and vanishes, and with it the old side. */
  lemma RemovedCommentIsLost(comment: string, keep: string)
    requires OneLine(comment) && OneLine(keep) && keep != "" && keep[0] != '+' && keep[|keep| - 1] != '\r'
    ensures Answer(TakeAll(Nothing, Lines(Print([Removed("-- " + comment), Added(keep)])))) == (None, keep + "\n")
  {
    hide Reading, Lines, Print, TakeAll, Classify, StripCr;
    var removed, added := Removed("-- " + comment), Added(keep);
    assert [removed, added][1..] == [added] && [added][1..] == [];
    LinesOfPrint([removed, added], Nothing);
    ReadingOfRemoved(removed.text);
    LinesOfPrint([added], Nothing);
    NoPlusNoHeader(keep);
    var read := Sides("", "" + keep + "\n", false);
    assert Take(Nothing, NewOnly(keep)) == read;
    LinesOfPrint([], read);
    assert "" + keep == keep;
  }

  lemma NoPlusNoHeader(keep: string)
    requires keep != "" && keep[0] != '+' && keep[|keep| - 1] != '\r'
    ensures Reading(Added(keep)) == NewOnly(keep)
  {
    ReadingOfAdded(keep);
    assert !("++ " <= keep);
  }
}
