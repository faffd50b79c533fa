/** Lines, prefixes and decimal numbers as Rust's `str` and `format!` define them. */
module Text {
  import opened Options

  function IndexOf(s: string, c: char): (r: Option<nat>)
    ensures r.Some? ==> r.value < |s| && s[r.value] == c && c !in s[..r.value]
    ensures r.None? ==> c !in s
  {
    if s == "" then None
    else if s[0] == c then Some(0)
    else match IndexOf(s[1..], c) { case Some(i) => Some(i + 1) case None => None }
  }

  function StripCr(line: string): string
  {
    if line != "" && line[|line| - 1] == '\r' then line[..|line| - 1] else line
  }

  /** `str::lines`: a newline ends a line and takes one carriage return with it; an unfinished last line is kept whole. */
  function Lines(s: string): seq<string>
    decreases |s|
  {
    if s == "" then []
    else match IndexOf(s, '\n')
      case None => [s]
      case Some(i) => [StripCr(s[..i])] + Lines(s[i + 1..])
  }

  predicate OneLine(s: string) { '\n' !in s }

  lemma {:induction false} IndexOfFirst(line: string, rest: string, c: char)
    requires c !in line
    ensures IndexOf(line + [c] + rest, c) == Some(|line|)
  {
    var s := line + [c] + rest;
    if line != "" {
      assert s[1..] == line[1..] + [c] + rest && s[0] == line[0];
      IndexOfFirst(line[1..], rest, c);
    }
  }

  /** A terminated line comes off the front, without the carriage return before its newline. */
  lemma LinesStep(line: string, rest: string)
    requires OneLine(line)
    ensures (line == "" || line[|line| - 1] != '\r') ==> StripCr(line) == line
    ensures StripCr(line + "\r") == line
    ensures Lines(line + "\n" + rest) == [StripCr(line)] + Lines(rest)
  {
    IndexOfFirst(line, rest, '\n');
    var s := line + "\n" + rest;
    assert s[..|line|] == line && s[|line| + 1..] == rest;
    assert (line + "\r")[..|line|] == line;
  }

  /** A last line without a newline is kept, whatever it ends in; an empty rest is no line. */
  lemma UnfinishedLine(line: string)
    requires OneLine(line)
    ensures Lines(line) == if line == "" then [] else [line]
  {
    if IndexOf(line, '\n').Some? { assert false; }
  }

  /** Text after `prefix`, if the text starts with it. */
  function StripPrefix(s: string, prefix: string): (r: Option<string>)
    ensures r.Some? ==> s == prefix + r.value
    ensures r.None? ==> |s| < |prefix| || s[..|prefix|] != prefix
  {
    if prefix <= s then Some(s[|prefix|..]) else None
  }

  // ---- Decimal numbers ----

  function Digit(n: nat): char
    requires n < 10
  {
    "0123456789"[n]
  }

  function Decimal(n: nat): (r: string)
    ensures r != "" && '-' !in r
  {
    if n < 10 then [Digit(n)] else Decimal(n / 10) + [Digit(n % 10)]
  }

  /** The number a string of digits writes. */
  function NumberOf(
      s: string): int { if s == "" then 0 else 10 * NumberOf(s[..|s| - 1]) + (s[|s| - 1] as int - '0' as int) }

  /** The decimal digits of the number, without a leading zero. */
  lemma {:induction false} DecimalReads(n: nat)
    ensures NumberOf(Decimal(n)) == n && forall c :: c in Decimal(n) ==> '0' <= c <= '9'
    ensures Decimal(n)[0] == '0' ==> n == 0 && Decimal(n) == "0"
  {
    DigitReads(n % 10);
    if n < 10 {
      assert Decimal(n)[..0] == "";
    } else {
      DecimalReads(n / 10);
      assert Decimal(n)[..|Decimal(n)| - 1] == Decimal(n / 10);
    }
  }

  lemma DigitReads(n: nat)
    requires n < 10
    ensures Digit(n) as int - '0' as int == n
  {
  }

  lemma {:induction false} DecimalInjective(m: nat, n: nat)
    requires Decimal(m) == Decimal(n)
    ensures m == n
    decreases m
  {
    var x, y := Decimal(m), Decimal(n);
    assert x[|x| - 1] == Digit(m % 10) && y[|y| - 1] == Digit(n % 10);
    if m >= 10 && n >= 10 {
      assert x[..|x| - 1] == Decimal(m / 10) && y[..|y| - 1] == Decimal(n / 10);
      DecimalInjective(m / 10, n / 10);
    }
  }
}
