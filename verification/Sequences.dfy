/** Facts about sequences that several models use. */
module Sequences {

  lemma Regroup<T>(x: seq<T>, y: seq<T>, z: seq<T>)
    ensures (x + y) + z == x + (y + z)
  {
  }

  lemma SliceSnoc<T>(s: seq<T>, from: nat, k: nat)
    requires from < k <= |s|
    ensures s[from..k] == s[from..k - 1] + [s[k - 1]]
  {
  }

  lemma InSum<T>(xs: seq<T>, ys: seq<T>, x: T)
    requires x in xs || x in ys
    ensures x in xs + ys
  {
  }
}
