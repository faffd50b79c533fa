/** Bytes, UTF-8 well-formedness (table 3-7 of the Unicode standard) and character boundaries. */
module Utf8 {

  newtype byte = x: int | 0 <= x < 256

  type Bytes = seq<byte>

  predicate Continuation(b: byte) { 0x80 <= b < 0xC0 }

  /** How many bytes the well-formed character at the front of `s` takes; 0 when there is none. */
  function CharLen(s: Bytes): (n: nat)
    ensures n <= |s| && n <= 4
    ensures forall j :: 1 <= j < n ==> Continuation(s[j])
    ensures n > 0 ==> !Continuation(s[0])
  {
    if s == [] then 0
    else if s[0] < 0x80 then 1
    else if |s| >= 2 && 0xC2 <= s[0] <= 0xDF && Continuation(s[1]) then 2
    else if |s| >= 3 && 0xE0 <= s[0] <= 0xEF && SecondByteFits(s[0], s[1]) && Continuation(s[2]) then 3
    else if |s| >= 4 && 0xF0 <= s[0] <= 0xF4 && SecondByteFits(s[0], s[1])
         && Continuation(s[2]) && Continuation(s[3]) then 4
    else 0
  }

  /** The second-byte ranges that exclude overlong forms, surrogates and values past U+10FFFF. */
  predicate SecondByteFits(lead: byte, second: byte)
  {
    Continuation(second) &&
    (lead == 0xE0 ==> second >= 0xA0) && (lead == 0xED ==> second < 0xA0) &&
    (lead == 0xF0 ==> second >= 0x90) && (lead == 0xF4 ==> second < 0x90)
  }

  predicate Valid(s: Bytes)
  {
    s == [] || (CharLen(s) > 0 && Valid(s[CharLen(s)..]))
  }

  /** The slice positions a Rust `str` accepts. */
  predicate IsCharBoundary(s: Bytes, k: nat)
    requires k <= |s|
  {
    k == 0 || k == |s| || !Continuation(s[k])
  }

  lemma CharLenOfPrefix(s: Bytes, k: nat)
    requires s != [] && CharLen(s) <= k <= |s| && CharLen(s) > 0
    ensures CharLen(s[..k]) == CharLen(s)
  {
  }

  /** Cutting well-formed text at a character boundary leaves two well-formed halves. */
  lemma {:induction false} SplitAtBoundary(s: Bytes, k: nat)
    requires Valid(s) && k <= |s| && IsCharBoundary(s, k)
    ensures Valid(s[..k]) && Valid(s[k..])
  {
    if k == 0 {
      assert s[..k] == [] && s[k..] == s;
    } else if k == |s| {
      assert s[..k] == s && s[k..] == [];
    } else {
      var n := CharLen(s);
      assert n <= k;
      SplitAtBoundary(s[n..], k - n);
      assert s[..k][n..] == s[n..][..k - n];
      assert s[n..][k - n..] == s[k..];
      CharLenOfPrefix(s, k);
    }
  }

  lemma {:induction false} ConcatIsValid(s: Bytes, t: Bytes)
    requires Valid(s) && Valid(t)
    ensures Valid(s + t)
  {
    if s == [] {
      assert s + t == t;
    } else {
      var n := CharLen(s);
      assert CharLen(s + t) == n;
      assert (s + t)[n..] == s[n..] + t;
      ConcatIsValid(s[n..], t);
    }
  }

  /** Appending well-formed text keeps every old boundary, the old end included. */
  lemma BoundaryAfterAppend(s: Bytes, t: Bytes, k: nat)
    requires Valid(t) && k <= |s| && IsCharBoundary(s, k)
    ensures IsCharBoundary(s + t, k)
  {
    if k < |s| {
      assert (s + t)[k] == s[k];
    } else if t != [] {
      assert (s + t)[k] == t[0] && CharLen(t) > 0;
    }
  }
}
