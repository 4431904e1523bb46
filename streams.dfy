/** Sequence facts shared by the serial-driver models. */
module Streams {
  /**
   * Regrouping two stream equations into one: if a first step turns `r0 + here`
   * into delivered `d1` and pending `r1`, and a second turns `r1 + later` into
   * delivered `d2` and pending `r2`, then together they turn `r0 + here + later`
   * into delivered `d1 + d2` and pending `r2`.
   */
  lemma Splice<T>(d1: seq<T>, d2: seq<T>, r2: seq<T>, r1: seq<T>, later: seq<T>, r0: seq<T>, here: seq<T>)
    requires d2 + r2 == r1 + later
    requires d1 + r1 == r0 + here
    ensures (d1 + d2) + r2 == r0 + (here + later)
  {
    calc {
      (d1 + d2) + r2;
      d1 + (d2 + r2);
      d1 + (r1 + later);
      (d1 + r1) + later;
      (r0 + here) + later;
    }
  }

  /** Accepting the first byte of a burst and then k - 1 more is accepting its first k bytes. */
  lemma AcceptFirst<T>(o: seq<T>, bs: seq<T>, k: nat)
    requires 1 <= k <= |bs|
    ensures (o + [bs[0]]) + bs[1..][..k - 1] == o + bs[..k]
  {
    assert bs[..k] == [bs[0]] + bs[1..][..k - 1];
  }

  /** Concatenation regroups freely. */
  lemma Associate<T>(a: seq<T>, b: seq<T>, c: seq<T>)
    ensures (a + b) + c == a + (b + c)
  {
  }
}
