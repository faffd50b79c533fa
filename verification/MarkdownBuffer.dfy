/** Streaming markdown buffer: rescans everything received and releases only closed prefixes. */
module MarkdownBuffer {
  import opened Options
  import opened Utf8

  const BACKTICK: byte := 0x60
  const TILDE: byte := 0x7E
  const STAR: byte := 0x2A
  const UNDERSCORE: byte := 0x5F
  const OPEN_BRACKET: byte := 0x5B
  const CLOSE_PAREN: byte := 0x29

  datatype Fence = Fence(marker: byte, len: nat)

  /** Which constructs are open at a scan position. */
  datatype Open = Open(fence: Option<Fence>, code: bool, bold: bool, italic: bool, link: bool)
  {
    predicate Clean() { fence.None? && !code && !bold && !italic && !link }

    predicate Literal() { fence.Some? || code }
  }

  const Closed := Open(None, false, false, false, false)

  // ---- The scanner as a function ----

  /** Number of bytes equal to `c` from `i` on. */
  function Run(b: Bytes, i: nat, c: byte): (n: nat)
    requires i <= |b|
    ensures i + n <= |b|
    decreases |b| - i
  {
    if i < |b| && b[i] == c then 1 + Run(b, i + 1, c) else 0
  }

  predicate IsMarker(c: byte) { c == BACKTICK || c == TILDE || c == STAR || c == UNDERSCORE }

  function FenceStep(st: Open, marker: byte, run: nat): Open
  {
    match st.fence
    case None => st.(fence := Some(Fence(marker, run)))
    case Some(f) => if f == Fence(marker, run) then st.(fence := None) else st
  }

  /** Emphasis toggles: a run of two or more is bold, a single marker italic. */
  function EmphasisStep(st: Open, run: nat): Open
  {
    if run >= 2 then st.(bold := !st.bold) else st.(italic := !st.italic)
  }

  /** One scan step at `i`: how far it moves and what is open afterwards. */
  function Step(b: Bytes, i: nat, st: Open): (r: (nat, Open))
    requires i < |b|
    ensures i < r.0 <= |b|
    ensures Continuation(b[i]) ==> r == (i + 1, st)
  {
    var c := b[i];
    var run := Run(b, i, c);
    if c == BACKTICK then
      if run >= 3 then (i + run, FenceStep(st, c, run))
      else if st.fence.None? then (i + run, st.(code := !st.code))
      else (i + 1, st)
    else if c == TILDE then
      if run >= 3 then (i + run, FenceStep(st, c, run)) else (i + 1, st)
    else if c == STAR || c == UNDERSCORE then
      if st.Literal() then (i + 1, st) else (i + run, EmphasisStep(st, run))
    else if c == OPEN_BRACKET && !st.Literal() then (i + 1, st.(link := true))
    else if c == CLOSE_PAREN && !st.Literal() then (i + 1, st.(link := false))
    else (i + 1, st)
  }

  /** The last clean position of the scan that continues at `i` with `st` open. */
  function LastClean(b: Bytes, i: nat, st: Open, last: nat): (k: nat)
    requires last <= i <= |b|
    ensures last <= k <= |b|
    decreases |b| - i
  {
    if i == |b| then last
    else
      var (j, st') := Step(b, i, st);
      LastClean(b, j, st', if st'.Clean() then j else last)
  }

  function CleanBoundary(b: Bytes): nat { LastClean(b, 0, Closed, 0) }

  /** The scan from `(i, st)` stands at `j` with `st'` open at some point. */
  predicate Passes(b: Bytes, i: nat, st: Open, j: nat, st': Open)
    requires i <= |b|
    decreases |b| - i
  {
    if i == j then st == st'
    else i < |b| && i < j && var (n, s) := Step(b, i, st); Passes(b, n, s, j, st')
  }

  /** Scanning `b` on its own ends with nothing open. */
  predicate ClosedMarkdown(b: Bytes) { Passes(b, 0, Closed, |b|, Closed) }

  // ---- What the boundary is ----

  /** The boundary is a position the scan reaches with nothing open, and the last such position. */
  lemma {:induction false} BoundaryIsTheLastCleanPosition(b: Bytes, i: nat, st: Open, last: nat)
    requires last <= i <= |b|
    ensures var k := LastClean(b, i, st, last);
      && (k == last || Passes(b, i, st, k, Closed))
      && (k != last ==> k > i)
      && (forall j, c: Open :: i < j <= |b| && c.Clean() && Passes(b, i, st, j, c) ==> j <= k)
    decreases |b| - i
  {
    if i < |b| {
      var (n, s) := Step(b, i, st);
      var last' := if s.Clean() then n else last;
      BoundaryIsTheLastCleanPosition(b, n, s, last');
    }
  }

  /** Cutting the text at any position the scan stands on does not change the scan up to there. */
  lemma {:induction false} PassesSurvivesTruncation(b: Bytes, i: nat, st: Open, k: nat, st': Open)
    requires i <= k <= |b| && Passes(b, i, st, k, st')
    ensures Passes(b[..k], i, st, k, st')
    decreases |b| - i
  {
    if i < k {
      var (n, s) := Step(b, i, st);
      StepIgnoresTheCut(b, i, st, k);
      PassesSurvivesTruncation(b, n, s, k, st');
    }
  }

  lemma {:induction false} RunInPrefix(b: Bytes, i: nat, c: byte, k: nat)
    requires i <= k <= |b|
    ensures Run(b[..k], i, c) == if i + Run(b, i, c) <= k then Run(b, i, c) else k - i
    decreases |b| - i
  {
    if i < k && b[i] == c {
      RunInPrefix(b, i + 1, c, k);
    }
  }

  lemma StepIgnoresTheCut(b: Bytes, i: nat, st: Open, k: nat)
    requires i < k <= |b| && Step(b, i, st).0 <= k
    ensures Step(b[..k], i, st) == Step(b, i, st)
  {
    RunInPrefix(b, i, b[i], k);
  }

  /** The last clean boundary of a text is a fixpoint, and the prefix it cuts off is closed markdown. */
  lemma ReleasedPrefixIsClosed(b: Bytes)
    ensures var k := CleanBoundary(b);
      && k <= |b| && ClosedMarkdown(b[..k]) && CleanBoundary(b[..k]) == k
  {
    var k := CleanBoundary(b);
    BoundaryIsTheLastCleanPosition(b, 0, Closed, 0);
    PassesSurvivesTruncation(b, 0, Closed, k, Closed);
    BoundaryIsTheLastCleanPosition(b[..k], 0, Closed, 0);
  }

  /** For any bytes whatever, the boundary never splits a multi-byte character. */
  lemma BoundaryIsCharBoundary(b: Bytes)
    ensures IsCharBoundary(b, CleanBoundary(b))
  {
    var k := CleanBoundary(b);
    BoundaryIsTheLastCleanPosition(b, 0, Closed, 0);
    if 0 < k < |b| && Continuation(b[k]) {
      PassesOneMore(b, 0, Closed, k, Closed);
      assert false;
    }
  }

  lemma {:induction false} PassesOneMore(b: Bytes, i: nat, st: Open, k: nat, st': Open)
    requires i <= k < |b| && Passes(b, i, st, k, st')
    ensures Passes(b, i, st, Step(b, k, st').0, Step(b, k, st').1)
    decreases |b| - i
  {
    if i < k {
      PassesOneMore(b, Step(b, i, st).0, Step(b, i, st).1, k, st');
    }
  }

  // ---- What a marker opens and what closes it ----

  /** A run of `n` equal bytes. */
  function Rep(c: byte, n: nat): (r: Bytes)
    ensures |r| == n && forall i :: 0 <= i < n ==> r[i] == c
  {
    seq(n, _ => c)
  }

  /** No backtick, tilde, star, underscore, opening bracket or closing parenthesis. */
  predicate Plain(b: Bytes) { forall c :: c in b ==> c !in [0x60, 0x7E, 0x2A, 0x5F, 0x5B, 0x29] }

  /** Neither backtick nor tilde: what code and fences take as it is. */
  predicate Verbatim(b: Bytes) { forall c :: c in b ==> c !in [0x60, 0x7E] }

  /** Code, fences of three or more backticks or tildes, emphasis, and links. */
  predicate Opens(c: byte, n: nat) { n >= 1 && (c in [0x60, 0x2A, 0x5F, 0x5B] || (c == 0x7E && n >= 3)) }

  /** Whether `m` bytes `d` close what `n` bytes `c` opened. */
  predicate Closes(c: byte, n: nat, d: byte, m: nat)
  {
    || (c in [0x60, 0x7E] && d == c && n >= 3 && m == n)
    || (c == 0x60 && d == c && n < 3 && 1 <= m < 3)
    || (c in [0x2A, 0x5F] && d in [0x2A, 0x5F] && m >= 1 && (n >= 2 <==> m >= 2))
    || (c == 0x5B && d == 0x29 && m >= 1)
  }

  /** What is open after the opening run. */
  function Opened(c: byte, n: nat): Open
    requires Opens(c, n)
  {
    if n >= 3 && c in [0x60, 0x7E] then Closed.(fence := Some(Fence(c, n)))
    else if c == 0x60 then Closed.(code := true)
    else if c == 0x5B then Closed.(link := true)
    else if n >= 2 then Closed.(bold := true)
    else Closed.(italic := true)
  }

  lemma {:induction false} RunOfRep(b: Bytes, i: nat, c: byte, n: nat)
    requires i + n <= |b| && (forall k :: i <= k < i + n ==> b[k] == c) && (i + n < |b| ==> b[i + n] != c)
    ensures Run(b, i, c) == n
    decreases n
  {
    if n > 0 { RunOfRep(b, i + 1, c, n - 1); }
  }

  /** The scan takes bytes that mean nothing to it one by one. */
  lemma {:induction false} ScanOfText(b: Bytes, i: nat, j: nat, st: Open, last: nat)
    requires last <= i <= j <= |b|
    requires Plain(b[i..j]) || (Verbatim(b[i..j]) && st.Literal())
    ensures LastClean(b, i, st, last) == LastClean(b, j, st, if st.Clean() && i < j then j else last)
    decreases j - i
  {
    if i < j {
      assert b[i..j] == [b[i]] + b[i + 1..j];
      assert b[i] in b[i..j];
      assert Step(b, i, st) == (i + 1, st);
      ScanOfText(b, i + 1, j, st, if st.Clean() then i + 1 else last);
    }
  }

  /** The scan takes an opening run, with nothing open before it. */
  lemma {:induction false} ScanOfOpening(b: Bytes, i: nat, c: byte, n: nat, last: nat)
    requires last <= i && i + n <= |b| && Opens(c, n)
    requires (forall k :: i <= k < i + n ==> b[k] == c) && (i + n < |b| ==> b[i + n] != c)
    ensures LastClean(b, i, Closed, last) == LastClean(b, i + n, Opened(c, n), last)
  {
    RunOfRep(b, i, c, n);
    if c == 0x5B {
      assert Step(b, i, Closed) == (i + 1, Opened(c, n));
      ScanOfBrackets(b, i + 1, n - 1, last);
    } else {
      assert Step(b, i, Closed) == (i + n, Opened(c, n));
    }
  }

  lemma {:induction false} ScanOfBrackets(b: Bytes, i: nat, n: nat, last: nat)
    requires last <= i && i + n <= |b| && forall k :: i <= k < i + n ==> b[k] == 0x5B
    ensures LastClean(b, i, Closed.(link := true), last) == LastClean(b, i + n, Closed.(link := true), last)
    decreases n
  {
    if n > 0 {
      assert Step(b, i, Closed.(link := true)) == (i + 1, Closed.(link := true));
      ScanOfBrackets(b, i + 1, n - 1, last);
    }
  }

  /** Marks without effect leave what is open. */
  lemma {:induction false} TailWithoutEffect(b: Bytes, i: nat, d: byte, st: Open, last: nat)
    requires last <= i <= |b| && !st.Clean() && forall k :: i <= k < |b| ==> b[k] == d
    requires
      || (st.Literal() && d in [0x2A, 0x5F, 0x5B, 0x29])
      || (d == 0x7E && |b| - i < 3) || (d == 0x60 && |b| - i < 3 && st.fence.Some?)
      || (!st.Literal() && d == 0x5B && st.link) || (!st.Literal() && d == 0x29 && !st.link)
    ensures LastClean(b, i, st, last) == last
    decreases |b| - i
  {
    if i < |b| {
      RunOfRep(b, i, d, |b| - i);
      assert Step(b, i, st) == (i + 1, st);
      TailWithoutEffect(b, i + 1, d, st, last);
    }
  }

  /** Past a closed link, more parentheses are plain text. */
  lemma {:induction false} ParenthesesStayClosed(b: Bytes, i: nat)
    requires i <= |b| && forall k :: i <= k < |b| ==> b[k] == 0x29
    ensures LastClean(b, i, Closed, i) == |b|
    decreases |b| - i
  {
    if i < |b| {
      assert Step(b, i, Closed) == (i + 1, Closed);
      ParenthesesStayClosed(b, i + 1);
    }
  }

  lemma ScanOfClosing(b: Bytes, i: nat, c: byte, n: nat, d: byte, last: nat)
    requires last <= i < |b| && Opens(c, n) && d in [0x60, 0x7E, 0x2A, 0x5F, 0x5B, 0x29]
    requires forall k :: i <= k < |b| ==> b[k] == d
    ensures LastClean(b, i, Opened(c, n), last) == if Closes(c, n, d, |b| - i) then |b| else last
  {
    var st, m := Opened(c, n), |b| - i;
    RunOfRep(b, i, d, m);
    if d in [0x60, 0x7E] {
      if m < 3 && (d == 0x7E || st.fence.Some?) {
        TailWithoutEffect(b, i, d, st, last);
      } else {
        assert Step(b, i, st).0 == |b|;
        assert Step(b, i, st).1.Clean() <==> Closes(c, n, d, m);
      }
    } else if st.Literal() {
      TailWithoutEffect(b, i, d, st, last);
    } else if d == 0x5B {
      assert Step(b, i, st) == (i + 1, st.(link := true));
      TailWithoutEffect(b, i + 1, d, st.(link := true), last);
    } else if d == 0x29 {
      assert Step(b, i, st) == (i + 1, st.(link := false));
      if st.link {
        ParenthesesStayClosed(b, i + 1);
      } else {
        TailWithoutEffect(b, i + 1, d, st, last);
      }
    } else {
      assert Step(b, i, st).0 == |b|;
      assert Step(b, i, st).1.Clean() <==> Closes(c, n, d, m);
    }
  }

  /**
   * Markdown as its readers know it: plain text is released at once, and a marker run holds everything from it on back.
   * A fence of three or more backticks or tildes is closed by an equal one, code by one or two backticks, emphasis by
   * stars or underscores of its own strength, and a link by its closing parenthesis, and then all of it is released.
   */
  lemma SpanIsHeldBackUntilClosed(text: Bytes, c: byte, n: nat, body: Bytes, d: byte, m: nat)
    requires Plain(text) && Opens(c, n) && body != []
    requires if c in [0x60, 0x7E] then Verbatim(body) else Plain(body)
    requires d in [0x60, 0x7E, 0x2A, 0x5F, 0x5B, 0x29] && m >= 1
    ensures CleanBoundary(text) == |text|
    ensures CleanBoundary(text + Rep(c, n) + body) == |text|
    ensures var whole := text + Rep(c, n) + body + Rep(d, m);
      CleanBoundary(whole) == if Closes(c, n, d, m) then |whole| else |text|
  {
    var open := text + Rep(c, n) + body;
    var whole := open + Rep(d, m);
    assert text[0..|text|] == text;
    ScanOfText(text, 0, |text|, Closed, 0);
    ScanOfSpan(open, text, c, n, body);
    ScanOfSpan(whole, text, c, n, body);
    ScanOfClosing(whole, |open|, c, n, d, |text|);
  }

  lemma ScanOfSpan(b: Bytes, text: Bytes, c: byte, n: nat, body: Bytes)
    requires Plain(text) && Opens(c, n) && body != [] && text + Rep(c, n) + body <= b
    requires if c in [0x60, 0x7E] then Verbatim(body) else Plain(body)
    ensures var at := |text| + n + |body|;
      LastClean(b, 0, Closed, 0) == LastClean(b, at, Opened(c, n), |text|)
  {
    hide LastClean, Opened, Opens, Plain, Verbatim;
    var i, j, k := |text|, |text| + n, |text| + n + |body|;
    assert b[..k] == text + Rep(c, n) + body;
    assert b[0..i] == text && b[j..k] == body;
    StartsWithoutMarkers(c, n, body);
    assert b[j] == body[0] && forall l :: i <= l < j ==> b[l] == b[..k][l] == Rep(c, n)[l - i];
    ScanOfText(b, 0, i, Closed, 0);
    ScanOfOpening(b, i, c, n, i);
    ScanOfText(b, j, k, Opened(c, n), i) by { OpenedIsOpen(c, n); }
    OpenedIsOpen(c, n);
  }

  lemma StartsWithoutMarkers(c: byte, n: nat, body: Bytes)
    requires Opens(c, n) && body != [] && if c in [0x60, 0x7E] then Verbatim(body) else Plain(body)
    ensures n >= 1 && body[0] != c
  {
    assert body[0] in body;
  }

  lemma OpenedIsOpen(c: byte, n: nat)
    requires Opens(c, n)
    ensures !Opened(c, n).Clean() && (c in [0x60, 0x7E] ==> Opened(c, n).Literal())
  {
  }

  // ---- Rescanning against resuming ----

  /** `delta` lengthens the marker run that ends `b`. */
  predicate ExtendsTrailingRun(b: Bytes, delta: Bytes)
  {
    b != [] && delta != [] && IsMarker(b[|b| - 1]) && delta[0] == b[|b| - 1]
  }

  /** Where the scan of `b` ends: everything still open at the end of the text. */
  function EndState(b: Bytes, i: nat, st: Open): (r: Open)
    requires i <= |b|
    ensures Passes(b, i, st, |b|, r)
    decreases |b| - i
  {
    if i == |b| then st
    else
      var (n, s) := Step(b, i, st);
      EndState(b, n, s)
  }

  lemma {:induction false} RunWithDelta(b: Bytes, i: nat, d: Bytes)
    requires i < |b| && !ExtendsTrailingRun(b, d) && IsMarker(b[i])
    ensures Run(b + d, i, b[i]) == Run(b, i, b[i])
    decreases |b| - i
  {
    assert (b + d)[i] == b[i];
    if i + 1 < |b| {
      assert (b + d)[i + 1] == b[i + 1];
      if b[i + 1] == b[i] { RunWithDelta(b, i + 1, d); }
    } else if d != [] {
      assert (b + d)[|b|] == d[0];
    }
  }

  lemma StepIgnoresTheDelta(b: Bytes, i: nat, st: Open, d: Bytes)
    requires i < |b| && !ExtendsTrailingRun(b, d)
    ensures Step(b + d, i, st) == Step(b, i, st)
  {
    assert (b + d)[i] == b[i];
    if IsMarker(b[i]) { RunWithDelta(b, i, d); }
  }

  /**
   * Unless the delta lengthens the trailing marker run, rescanning from byte 0 equals resuming
   * where the scan of the old text ended.
   */
  lemma {:induction false} RescanEqualsResume(b: Bytes, d: Bytes, i: nat, st: Open, last: nat)
    requires last <= i <= |b| && !ExtendsTrailingRun(b, d)
    ensures LastClean(b + d, i, st, last)
         == LastClean(b + d, |b|, EndState(b, i, st), LastClean(b, i, st, last))
    decreases |b| - i
  {
    if i < |b| {
      var (n, s) := Step(b, i, st);
      StepIgnoresTheDelta(b, i, st, d);
      RescanEqualsResume(b, d, n, s, if s.Clean() then n else last);
    }
  }

  lemma BoundaryNeverMovesBackWithoutRunExtension(b: Bytes, d: Bytes)
    requires !ExtendsTrailingRun(b, d)
    ensures CleanBoundary(b) <= CleanBoundary(b + d)
  {
    RescanEqualsResume(b, d, 0, Closed, 0);
  }

  /** The hypothesis is needed: one more star turns a closed italic span into an open one. */
  lemma BoundaryMovesBackWhenARunGrows()
    ensures var b := [STAR, 0x62, STAR];
      ExtendsTrailingRun(b, [STAR]) && CleanBoundary(b) == 3 && CleanBoundary(b + [STAR]) == 0
  {
    var b: Bytes := [STAR, 0x62, STAR];
    var s := Closed.(italic := true);
    assert Run(b, 0, STAR) == 1 && Run(b, 2, STAR) == 1;
    assert Step(b, 0, Closed) == (1, s);
    assert Step(b, 1, s) == (2, s);
    assert Step(b, 2, s) == (3, Closed);
    assert CleanBoundary(b) == LastClean(b, 1, s, 0) == LastClean(b, 2, s, 0) == LastClean(b, 3, Closed, 3);
    var c := b + [STAR];
    assert Run(c, 2, STAR) == 2 && Run(c, 0, STAR) == 1;
    assert Step(c, 0, Closed) == (1, s);
    assert Step(c, 1, s) == (2, s);
    assert Step(c, 2, s) == (4, s.(bold := true));
    assert CleanBoundary(c) == LastClean(c, 1, s, 0) == LastClean(c, 2, s, 0)
        == LastClean(c, 4, s.(bold := true), 0);
  }

  // ---- The pieces handed to the terminal, one by one ----

  lemma {:induction false} RunShifts(p: Bytes, b: Bytes, i: nat, c: byte)
    requires i <= |b|
    ensures Run(p + b, |p| + i, c) == Run(b, i, c)
    decreases |b| - i
  {
    if i < |b| {
      assert (p + b)[|p| + i] == b[i];
      RunShifts(p, b, i + 1, c);
    }
  }

  /** Scanning `b` behind `p` and scanning `b` alone visit the same positions, shifted. */
  lemma {:induction false} PassesShifts(p: Bytes, b: Bytes, i: nat, st: Open, j: nat, st': Open)
    requires i <= |b|
    ensures Passes(p + b, |p| + i, st, |p| + j, st') == Passes(b, i, st, j, st')
    decreases |b| - i
  {
    if i < |b| && i < j {
      assert (p + b)[|p| + i] == b[i];
      RunShifts(p, b, i, b[i]);
      var (n, s) := Step(b, i, st);
      assert Step(p + b, |p| + i, st) == (|p| + n, s);
      PassesShifts(p, b, n, s, j, st');
    }
  }

  /**
   * A released piece is closed markdown on its own whenever the rescan still stands, with nothing
   * open, where the previous release ended.
   */
  lemma PieceIsClosedWhenTheRescanStopsClean(b: Bytes, from: nat, to: nat)
    requires from <= to <= |b|
    requires Passes(b, 0, Closed, from, Closed) && Passes(b, 0, Closed, to, Closed)
    ensures ClosedMarkdown(b[from..to])
  {
    PassesFrom(b, 0, Closed, from, Closed, to, Closed);
    PassesSurvivesTruncation(b, from, Closed, to, Closed);
    var p, piece := b[..from], b[from..to];
    assert b[..to] == p + piece;
    PassesShifts(p, piece, 0, Closed, |piece|, Closed);
  }

  lemma {:induction false} PassesFrom(b: Bytes, i: nat, st: Open, j: nat, mid: Open, k: nat, end: Open)
    requires i <= j <= k <= |b| && Passes(b, i, st, j, mid) && Passes(b, i, st, k, end)
    ensures Passes(b, j, mid, k, end)
    decreases |b| - i
  {
    if i < j {
      PassesFrom(b, Step(b, i, st).0, Step(b, i, st).1, j, mid, k, end);
    }
  }

  /** The standing point of the last release survives every delta that lengthens no run. */
  lemma {:induction false} PassesSurvivesDelta(b: Bytes, d: Bytes, i: nat, st: Open, j: nat, st': Open)
    requires i <= j <= |b| && Passes(b, i, st, j, st') && !ExtendsTrailingRun(b, d)
    ensures Passes(b + d, i, st, j, st')
    decreases |b| - i
  {
    if i < j {
      StepIgnoresTheDelta(b, i, st, d);
      PassesSurvivesDelta(b, d, Step(b, i, st).0, Step(b, i, st).1, j, st');
    }
  }

  // ---- When exactly a piece is closed on its own ----

  /** How many bytes equal to the last one end the text. */
  function TrailingRun(b: Bytes): (n: nat)
    requires b != []
    ensures 0 < n <= |b|
    ensures forall j :: |b| - n <= j < |b| ==> b[j] == b[|b| - 1]
    ensures n < |b| ==> b[|b| - n - 1] != b[|b| - 1]
  {
    if |b| > 1 && b[|b| - 2] == b[|b| - 1] then 1 + TrailingRun(b[..|b| - 1]) else 1
  }

  /**
   * `piece` is closed whatever `released` ends with: no marker run goes across the cut, or one of two tildes,
   * which mark nothing, or a fence run that the cut halves, so that its second half fences again.
   */
  predicate SelfContained(released: Bytes, piece: Bytes)
    requires piece != []
  {
    ExtendsTrailingRun(released, piece) ==>
      var p, q := TrailingRun(released), Run(piece, 0, piece[0]);
      (piece[0] == TILDE && p + q < 3) || ((piece[0] == TILDE || piece[0] == BACKTICK) && p == q >= 3)
  }

  /** What a whole run of `n` bytes `c` does, marker by marker or at once. */
  function RunStep(st: Open, c: byte, n: nat): Open
  {
    if c == BACKTICK then
      if n >= 3 then FenceStep(st, c, n) else if st.fence.None? then st.(code := !st.code) else st
    else if c == TILDE then if n >= 3 then FenceStep(st, c, n) else st
    else if c == STAR || c == UNDERSCORE then if st.Literal() then st else EmphasisStep(st, n)
    else if c == OPEN_BRACKET && !st.Literal() then st.(link := true)
    else if c == CLOSE_PAREN && !st.Literal() then st.(link := false)
    else st
  }

  /** A marker takes its whole run with it, any other byte only itself. */
  function Width(b: Bytes, i: nat): (n: nat)
    requires i < |b|
    ensures 0 < n <= |b| - i
  {
    if IsMarker(b[i]) then Run(b, i, b[i]) else 1
  }

  /** Whatever is open before it, every scan stands behind a run, with the run's effect. */
  lemma {:induction false} ScanOverRun(b: Bytes, i: nat, st: Open)
    requires i < |b|
    ensures EndState(b, i, st) == EndState(b, i + Width(b, i), RunStep(st, b[i], Width(b, i)))
    decreases |b| - i
  {
    hide EmphasisStep, FenceStep;
    if Step(b, i, st).0 != i + Width(b, i) {
      assert Run(b, i, b[i]) == 1 + Run(b, i + 1, b[i]) && Run(b, i + 1, b[i]) > 0;
      ScanOverRun(b, i + 1, st);
    }
  }

  /** Two scan states that agree in everything but an open link. */
  predicate Similar(
      s: Open, t: Open) { s.fence == t.fence && s.code == t.code && s.bold == t.bold && s.italic == t.italic }

  lemma FencesKeepApart(s: Open, t: Open, c: byte, n: nat)
    requires !Similar(s, t)
    ensures !Similar(FenceStep(s, c, n), FenceStep(t, c, n))
  {
  }

  lemma EmphasisKeepsApart(s: Open, t: Open, n: nat)
    requires !Similar(s, t)
    ensures !Similar(EmphasisStep(s, n), EmphasisStep(t, n))
    ensures EmphasisStep(s, n).fence == s.fence && EmphasisStep(s, n).code == s.code
    ensures EmphasisStep(t, n).fence == t.fence && EmphasisStep(t, n).code == t.code
  {
  }

  /** Fences swap "none" with one fence, code and emphasis toggle: no run makes different states alike. */
  lemma RunKeepsApart(s: Open, t: Open, c: byte, n: nat)
    requires !Similar(s, t)
    ensures !Similar(RunStep(s, c, n), RunStep(t, c, n))
  {
    hide FenceStep, EmphasisStep;
    FencesKeepApart(s, t, c, n);
    EmphasisKeepsApart(s, t, n);
  }

  lemma {:induction false} ScansStayApart(b: Bytes, i: nat, s: Open, t: Open)
    requires i <= |b| && !Similar(s, t)
    ensures !Similar(EndState(b, i, s), EndState(b, i, t))
    decreases |b| - i
  {
    hide RunStep, Similar;
    if i < |b| {
      var n := Width(b, i);
      ScanOverRun(b, i, s);
      ScanOverRun(b, i, t);
      RunKeepsApart(s, t, b[i], n);
      ScansStayApart(b, i + n, RunStep(s, b[i], n), RunStep(t, b[i], n));
    }
  }

  lemma {:induction false} EndStateIsTheEnd(b: Bytes, i: nat, st: Open, end: Open)
    requires i <= |b|
    ensures Passes(b, i, st, |b|, end) <==> end == EndState(b, i, st)
    decreases |b| - i
  {
    if i < |b| { EndStateIsTheEnd(b, Step(b, i, st).0, Step(b, i, st).1, end); }
  }

  /** Behind a part whose last run goes no further, the scan goes on from that part's end state. */
  lemma EndStateSplit(x: Bytes, y: Bytes)
    requires !ExtendsTrailingRun(x, y)
    ensures EndState(x + y, 0, Closed) == EndState(x + y, |x|, EndState(x, 0, Closed))
  {
    var all, mid := x + y, EndState(x, 0, Closed);
    PassesSurvivesDelta(x, y, 0, Closed, |x|, mid);
    var end := EndState(all, 0, Closed);
    PassesFrom(all, 0, Closed, |x|, mid, |all|, end);
    EndStateIsTheEnd(all, |x|, mid, end);
  }

  lemma {:induction false} RunOfSame(b: Bytes, i: nat, j: nat)
    requires i < j <= |b| && forall k :: i <= k < j ==> b[k] == b[i]
    ensures Run(b, i, b[i]) == j - i + Run(b, j, b[i])
    decreases j - i
  {
    if i + 1 < j { RunOfSame(b, i + 1, j); }
  }

  /** A run that closes everything, but lengthened: its rest alone does the same only in the listed cases. */
  lemma SplitRun(st: Open, c: byte, p: nat, q: nat)
    requires IsMarker(c) && p > 0 && q > 0 && RunStep(st, c, p) == Closed
    ensures var whole, rest := RunStep(st, c, p + q), RunStep(Closed, c, q);
      && (whole == rest <==> (c == TILDE && p + q < 3) || ((c == TILDE || c == BACKTICK) && p == q >= 3))
      && (whole != rest ==> !Similar(whole, rest))
  {
  }

  /** Where the run at the cut starts, and what is open there in either scan. */
  lemma ReleasedScan(released: Bytes, r: nat, st: Open)
    requires released != [] && IsMarker(released[|released| - 1])
    requires r == |released| - TrailingRun(released) && st == EndState(released[..r], 0, Closed)
    ensures EndState(released, 0, Closed) == RunStep(st, released[|released| - 1], TrailingRun(released))
  {
    hide RunStep, EndState;
    var front, back := released[..r], released[r..];
    assert released == front + back;
    EndStateSplit(front, back);
    RunOfSame(released, r, |released|);
    ScanOverRun(released, r, st);
  }

  lemma RunAcrossTheCut(released: Bytes, piece: Bytes, r: nat)
    requires piece != [] && ExtendsTrailingRun(released, piece) && r == |released| - TrailingRun(released)
    ensures var all, c, q := released + piece, piece[0], Run(piece, 0, piece[0]);
      && all[r] == c && Width(all, r) == TrailingRun(released) + q
      && all[|released|] == c && Width(all, |released|) == q
    ensures !ExtendsTrailingRun(released[..r], released[r..] + piece)
  {
    var all := released + piece;
    RunShifts(released, piece, 0, piece[0]);
    assert forall k :: r <= k < |released| ==> all[k] == released[k];
    RunOfSame(all, r, |released|);
  }

  lemma WholeScan(released: Bytes, piece: Bytes, r: nat, st: Open)
    requires piece != [] && ExtendsTrailingRun(released, piece)
    requires r == |released| - TrailingRun(released) && st == EndState(released[..r], 0, Closed)
    ensures var all, c, p, q := released + piece, piece[0], TrailingRun(released), Run(piece, 0, piece[0]);
      && Passes(all, 0, Closed, r, st)
      && EndState(all, 0, Closed) == EndState(all, |released| + q, RunStep(st, c, p + q))
      && EndState(all, |released|, Closed) == EndState(all, |released| + q, RunStep(Closed, c, q))
  {
    hide RunStep, EndState, Run, Width, ExtendsTrailingRun, Passes;
    var all, front, back := released + piece, released[..r], released[r..];
    assert all == front + (back + piece);
    RunAcrossTheCut(released, piece, r);
    EndStateSplit(front, back + piece);
    EndStateIsTheEnd(front, 0, Closed, st);
    PassesSurvivesDelta(front, back + piece, 0, Closed, r, st);
    ScanOverRun(all, r, st);
    ScanOverRun(all, |released|, Closed);
  }

  /**
   * After closed text, and making closed text with it, a piece is closed on its own exactly when it is
   * self-contained.
   */
  lemma PieceIsClosedIff(released: Bytes, piece: Bytes)
    requires piece != [] && ClosedMarkdown(released) && ClosedMarkdown(released + piece)
    ensures ClosedMarkdown(piece) <==> SelfContained(released, piece)
  {
    hide RunStep, EndState;
    var all := released + piece;
    EndStateIsTheEnd(released, 0, Closed, Closed);
    EndStateIsTheEnd(all, 0, Closed, Closed);
    PassesShifts(released, piece, 0, Closed, |piece|, Closed);
    EndStateIsTheEnd(all, |released|, Closed, Closed);
    if ExtendsTrailingRun(released, piece) {
      var r, c, p, q := |released| - TrailingRun(released), piece[0], TrailingRun(released), Run(piece, 0, piece[0]);
      var st := EndState(released[..r], 0, Closed);
      ReleasedScan(released, r, st);
      WholeScan(released, piece, r, st);
      SplitRun(st, c, p, q);
      if RunStep(st, c, p + q) != RunStep(Closed, c, q) {
        RunShifts(released, piece, 0, c);
        ScansStayApart(all, |released| + q, RunStep(st, c, p + q), RunStep(Closed, c, q));
      }
    } else {
      EndStateSplit(released, piece);
    }
  }

  /** The rescan stands clean where the last release ended, unless a marker run goes across the cut and means something. */
  lemma RescanStopsCleanIff(released: Bytes, piece: Bytes)
    requires piece != [] && ClosedMarkdown(released)
    ensures Passes(released + piece, 0, Closed, |released|, Closed) <==>
      !ExtendsTrailingRun(released, piece) || (piece[0] == TILDE && TrailingRun(released) + Run(piece, 0, TILDE) < 3)
  {
    var all := released + piece;
    if ExtendsTrailingRun(released, piece) {
      var r := |released| - TrailingRun(released);
      var st := EndState(released[..r], 0, Closed);
      EndStateIsTheEnd(released, 0, Closed, Closed);
      ReleasedScan(released, r, st);
      WholeScan(released, piece, r, st);
      RunAcrossTheCut(released, piece, r);
      PassesThrough(all, 0, Closed, r, st, |released|, Closed);
    } else {
      PassesSurvivesDelta(released, piece, 0, Closed, |released|, Closed);
    }
  }

  lemma {:induction false} PassesThrough(b: Bytes, i: nat, st: Open, j: nat, mid: Open, k: nat, end: Open)
    requires i <= j <= k <= |b| && Passes(b, i, st, j, mid)
    ensures Passes(b, i, st, k, end) <==> Passes(b, j, mid, k, end)
    decreases |b| - i
  {
    if i < j { PassesThrough(b, Step(b, i, st).0, Step(b, i, st).1, j, mid, k, end); }
  }

  /**
   * Without that, a piece can be open: after `*b*` is released and the run grows, the next piece
   * released is `*c*d**`, which leaves a bold span open.
   */
  lemma PieceCanBeOpenOnItsOwn()
    ensures var was, all := [STAR, 0x62, STAR], [STAR, 0x62, STAR, STAR, 0x63, STAR, 0x64, STAR, STAR];
      && CleanBoundary(was) == 3 && CleanBoundary(all) == 9
      && !ClosedMarkdown(all[3..9])
  {
    BoundaryMovesBackWhenARunGrows();
    var all: Bytes := [STAR, 0x62, STAR, STAR, 0x63, STAR, 0x64, STAR, STAR];
    var it, bo := Closed.(italic := true), Closed.(bold := true);
    var both := it.(bold := true);
    assert Run(all, 0, STAR) == 1;
    assert Run(all, 4, STAR) == 0 && Run(all, 3, STAR) == 1 && Run(all, 2, STAR) == 2;
    assert Run(all, 6, STAR) == 0 && Run(all, 5, STAR) == 1;
    assert Run(all, 9, STAR) == 0 && Run(all, 8, STAR) == 1 && Run(all, 7, STAR) == 2;
    assert Step(all, 0, Closed) == (1, it) && Step(all, 1, it) == (2, it);
    assert Step(all, 2, it) == (4, both) && Step(all, 4, both) == (5, both);
    assert Step(all, 5, both) == (6, bo) && Step(all, 6, bo) == (7, bo) && Step(all, 7, bo) == (9, Closed);
    assert CleanBoundary(all) == LastClean(all, 1, it, 0) == LastClean(all, 2, it, 0)
        == LastClean(all, 4, both, 0) == LastClean(all, 5, both, 0) == LastClean(all, 6, bo, 0)
        == LastClean(all, 7, bo, 0) == 9;
    var piece := all[3..9];
    assert piece == [STAR, 0x63, STAR, 0x64, STAR, STAR];
    assert Run(piece, 0, STAR) == 1 && Run(piece, 2, STAR) == 1 && Run(piece, 4, STAR) == 2;
    assert Step(piece, 0, Closed) == (1, it) && Step(piece, 1, it) == (2, it) && Step(piece, 2, it) == (3, Closed);
    assert Step(piece, 3, Closed) == (4, Closed) && Step(piece, 4, Closed) == (6, bo);
    assert ClosedMarkdown(piece) == Passes(piece, 1, it, 6, Closed) == Passes(piece, 2, it, 6, Closed)
        == Passes(piece, 3, Closed, 6, Closed) == Passes(piece, 4, Closed, 6, Closed) == Passes(piece, 6, bo, 6, Closed);
  }

  // ---- The buffer itself ----

  method CountRun(b: Bytes, start: nat, c: byte) returns (n: nat)
    requires start <= |b|
    ensures n == Run(b, start, c)
  {
    n := 0;
    var i := start;
    while i < |b| && b[i] == c
      invariant start <= i <= |b| && n == i - start
      invariant Run(b, start, c) == n + Run(b, i, c)
    {
      n := n + 1;
      i := i + 1;
    }
  }

  class StreamingMarkdownBuffer {
    var accumulated: Bytes
    var lastFlushedLen: nat
    /** Everything handed out since the last reset. */
    ghost var released: Bytes
    /** Whether some of it was handed out by `Flush`, which does not wait for closing markers. */
    ghost var forced: bool

    ghost predicate Valid()
      reads this
    {
      && Utf8.Valid(accumulated)
      && lastFlushedLen <= |accumulated| && IsCharBoundary(accumulated, lastFlushedLen)
      && released == accumulated[..lastFlushedLen]
      && (!forced ==> ClosedMarkdown(released) && CleanBoundary(released) == lastFlushedLen)
    }

    constructor ()
      ensures Valid() && accumulated == [] && released == [] && !forced
    {
      accumulated, lastFlushedLen, released, forced := [], 0, [], false;
    }

    method Push(delta: Bytes) returns (out: Bytes)
      requires Valid() && Utf8.Valid(delta)
      modifies this
      ensures Valid() && Utf8.Valid(out) && forced == old(forced)
      ensures accumulated == old(accumulated) + delta && released == old(released) + out
      ensures var k := CleanBoundary(accumulated);
        lastFlushedLen == if k > old(lastFlushedLen) then k else old(lastFlushedLen)
      ensures Passes(accumulated, 0, Closed, old(lastFlushedLen), Closed) ==> ClosedMarkdown(out)
      ensures out != [] && !forced ==> (ClosedMarkdown(out) <==> SelfContained(old(released), out))
    {
      AppendKeepsBoundary(accumulated, delta, lastFlushedLen);
      accumulated := accumulated + delta;
      var safeEnd := LastCleanBoundary();
      if safeEnd > lastFlushedLen {
        ReleaseIsSound(accumulated, lastFlushedLen);
        out := accumulated[lastFlushedLen..safeEnd];
        lastFlushedLen := safeEnd;
      } else {
        out := [];
      }
      if out != [] && !forced { PieceIsClosedIff(released, out); }
      released := released + out;
    }

    method Flush() returns (rest: Bytes)
      requires Valid()
      modifies this
      ensures Valid() && Utf8.Valid(rest) && accumulated == old(accumulated)
      ensures released == old(released) + rest == accumulated
    {
      rest := accumulated[lastFlushedLen..];
      SplitAtBoundary(accumulated, lastFlushedLen);
      lastFlushedLen := |accumulated|;
      released, forced := released + rest, true;
    }

    method Reset()
      modifies this
      ensures Valid() && accumulated == [] && released == [] && !forced
    {
      accumulated := [];
      lastFlushedLen, released, forced := 0, [], false;
    }

    method LastCleanBoundary() returns (lastClean: nat)
      ensures lastClean == CleanBoundary(accumulated)
    {
      var bytes := accumulated;
      var n := |bytes|;
      var i := 0;
      lastClean := 0;
      var inCodeFence, inInlineCode, inBold, inItalic, inLink := false, false, false, false, false;
      var fenceChar: byte, fenceLen := 0, 0;
      ghost var st, goal := Closed, CleanBoundary(bytes);
      while i < n
        invariant lastClean <= i <= n
        invariant st == OpenOf(inCodeFence, fenceChar, fenceLen, inInlineCode, inBold, inItalic, inLink)
        invariant LastClean(bytes, i, st, lastClean) == goal
      {
        var c := bytes[i];
        ghost var (j, st') := Step(bytes, i, st);
        if c == BACKTICK || c == TILDE {
          i, inCodeFence, fenceChar, fenceLen, inInlineCode :=
            FenceMarkerArm(bytes, i, st, inCodeFence, fenceChar, fenceLen, inInlineCode);
        } else if c == STAR || c == UNDERSCORE {
          if inCodeFence || inInlineCode {
            i, st := i + 1, st';
            continue;
          }
          var run := CountRun(bytes, i, c);
          if run >= 2 {
            inBold := !inBold;
            i := i + run;
          } else {
            inItalic := !inItalic;
            i := i + 1;
          }
        } else {
          inLink := if c == OPEN_BRACKET && !inCodeFence && !inInlineCode then true
            else if c == CLOSE_PAREN && inLink && !inCodeFence && !inInlineCode then false
            else inLink;
          i := i + 1;
        }
        assert i == j;
        st := st';
        if !inCodeFence && !inInlineCode && !inBold && !inItalic && !inLink {
          lastClean := i;
        }
      }
    }
  }

  /** The backtick and tilde arms of the scanner, which differ only in inline code. */
  method FenceMarkerArm(bytes: Bytes, start: nat, ghost st: Open,
      inCodeFence: bool, fenceChar: byte, fenceLen: nat, inInlineCode: bool)
    returns (i: nat, inCodeFence': bool, fenceChar': byte, fenceLen': nat, inInlineCode': bool)
    requires start < |bytes| && (bytes[start] == BACKTICK || bytes[start] == TILDE)
    requires st == OpenOf(inCodeFence, fenceChar, fenceLen, inInlineCode, st.bold, st.italic, st.link)
    ensures Step(bytes, start, st)
         == (i, OpenOf(inCodeFence', fenceChar', fenceLen', inInlineCode', st.bold, st.italic, st.link))
  {
    var c := bytes[start];
    inCodeFence', fenceChar', fenceLen', inInlineCode' := inCodeFence, fenceChar, fenceLen, inInlineCode;
    var run := CountRun(bytes, start, c);
    if run >= 3 {
      if inCodeFence {
        if fenceChar == c && fenceLen == run { inCodeFence' := false; }
      } else {
        inCodeFence', fenceChar', fenceLen' := true, c, run;
      }
      i := start + run;
    } else if c == BACKTICK && !inCodeFence {
      inInlineCode' := !inInlineCode;
      i := start + run;
    } else {
      i := start + 1;
    }
  }

  /** The scanner's seven loop variables as one value. */
  function OpenOf(inFence: bool, marker: byte, len: nat, code: bool, bold: bool, italic: bool, link: bool): Open
  {
    Open(if inFence then Some(Fence(marker, len)) else None, code, bold, italic, link)
  }

  lemma AppendKeepsBoundary(s: Bytes, delta: Bytes, k: nat)
    requires Utf8.Valid(s) && Utf8.Valid(delta) && k <= |s| && IsCharBoundary(s, k)
    ensures Utf8.Valid(s + delta) && IsCharBoundary(s + delta, k) && (s + delta)[..k] == s[..k]
  {
    BoundaryAfterAppend(s, delta, k);
    ConcatIsValid(s, delta);
  }

  /** What `Push` may rely on when the boundary of the grown text lies past the last release. */
  lemma ReleaseIsSound(b: Bytes, from: nat)
    requires Utf8.Valid(b) && from <= CleanBoundary(b) && IsCharBoundary(b, from)
    ensures var k := CleanBoundary(b);
      && Utf8.Valid(b[from..k]) && IsCharBoundary(b, k)
      && ClosedMarkdown(b[..k]) && CleanBoundary(b[..k]) == k && b[..from] + b[from..k] == b[..k]
      && (Passes(b, 0, Closed, from, Closed) ==> ClosedMarkdown(b[from..k]))
  {
    hide CleanBoundary, IsCharBoundary, Passes, ClosedMarkdown, Utf8.Valid;
    var k := CleanBoundary(b);
    ReleasedPrefixIsClosed(b);
    BoundaryIsCharBoundary(b);
    BoundaryIsInside(b);
    SliceIsValid(b, from, k);
    if Passes(b, 0, Closed, from, Closed) {
      PieceIsClosedWhenTheRescanStopsClean(b, from, k);
    }
  }

  lemma BoundaryIsInside(b: Bytes)
    ensures CleanBoundary(b) <= |b| && Passes(b, 0, Closed, CleanBoundary(b), Closed)
  {
    BoundaryIsTheLastCleanPosition(b, 0, Closed, 0);
  }

  lemma SliceIsValid(s: Bytes, from: nat, to: nat)
    requires Utf8.Valid(s) && from <= to <= |s| && IsCharBoundary(s, from) && IsCharBoundary(s, to)
    ensures Utf8.Valid(s[from..to])
  {
    SplitAtBoundary(s, to);
    var t := s[..to];
    assert from < to ==> t[from] == s[from];
    SplitAtBoundary(t, from);
    assert t[from..] == s[from..to];
  }
}
