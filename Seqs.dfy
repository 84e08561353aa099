/** Facts about slices of concatenated sequences, independent of what the elements are. */
module Seqs {
  /** The concatenation of a sequence of pieces, first piece first. */
  function Concat<T>(ss: seq<seq<T>>): (joined: seq<T>) {
    if ss == [] then [] else Concat(ss[..|ss| - 1]) + ss[|ss| - 1]
  }

  lemma ConcatSnoc<T>(ss: seq<seq<T>>, s: seq<T>)
    ensures Concat(ss + [s]) == Concat(ss) + s
  {
    assert (ss + [s])[..|ss|] == ss;
  }

  lemma ConcatPair<T>(a: seq<T>, b: seq<T>)
    ensures Concat([a, b]) == a + b
  {
    ConcatSnoc([a], b);
    ConcatSnoc([], a);
    assert [a] == [] + [a];
    assert [a, b] == [a] + [b];
  }

  /** The pieces before n concatenate to a prefix of the whole. */
  lemma {:induction false} ConcatPrefix<T>(ss: seq<seq<T>>, n: nat)
    requires n <= |ss|
    ensures Concat(ss[..n]) <= Concat(ss)
    decreases |ss|
  {
    if n < |ss| {
      var m := |ss| - 1;
      assert ss[..m][..n] == ss[..n];
      ConcatPrefix(ss[..m], n);
      PrefixOfAppend(Concat(ss[..n]), Concat(ss[..m]), ss[m]);
    } else {
      assert ss[..n] == ss;
    }
  }

  /** Piece k sits right after the pieces before it. */
  lemma ConcatPieceAt<T>(ss: seq<seq<T>>, k: nat)
    requires k < |ss|
    ensures var start := |Concat(ss[..k])|;
            start + |ss[k]| <= |Concat(ss)| && Concat(ss)[start..start + |ss[k]|] == ss[k]
  {
    assert ss[..k + 1] == ss[..k] + [ss[k]];
    ConcatSnoc(ss[..k], ss[k]);
    ConcatPrefix(ss, k + 1);
    PieceOfPrefix(Concat(ss[..k]), ss[k], Concat(ss));
  }

  /** A prefix of `b` stays a prefix when more is appended. */
  lemma PrefixOfAppend<T>(a: seq<T>, b: seq<T>, c: seq<T>)
    requires a <= b
    ensures a <= b + c
  {
    assert (b + c)[..|a|] == b[..|a|];
  }

  /** When `a + b` starts `w`, `b` sits in `w` right after `a`. */
  lemma PieceOfPrefix<T>(a: seq<T>, b: seq<T>, w: seq<T>)
    requires a + b <= w
    ensures |a| + |b| <= |w| && w[|a|..|a| + |b|] == b
  {
    assert w[..|a| + |b|] == a + b;
    SliceOfSlice(w, 0, |a| + |b|, |a|, |a| + |b|);
    MiddleOfConcat(a, b, []);
  }

  /** A slice of a slice is a slice of the original. */
  lemma SliceOfSlice<T>(a: seq<T>, i: nat, j: nat, p: nat, q: nat)
    requires i <= j <= |a| && p <= q <= j - i
    ensures a[i..j][p..q] == a[i + p..i + q]
  {
    var b := a[i..j];
    forall t | 0 <= t < q - p
      ensures b[p..q][t] == a[i + p..i + q][t]
    {
      assert b[p..q][t] == b[p + t];
      assert b[p + t] == a[i + p + t];
    }
  }

  /** The middle part of `a + b + c` is `b`. */
  lemma MiddleOfConcat<T>(a: seq<T>, b: seq<T>, c: seq<T>)
    ensures (a + b + c)[|a|..|a| + |b|] == b
  {
    var s := a + b + c;
    forall t | 0 <= t < |b|
      ensures s[|a|..|a| + |b|][t] == b[t]
    {
      assert s[|a| + t] == b[t];
    }
  }

  lemma FiveParts<T>(p: seq<T>, x: seq<T>, q: seq<T>, y: seq<T>, z: seq<T>)
    ensures var w := p + x + q + y + z;
            && w[..|p|] == p
            && w[|p|..|p| + |x|] == x
            && w[|p| + |x|..|p| + |x| + |q|] == q
            && w[|p| + |x| + |q|..|w| - |z|] == y
            && w[|w| - |z|..] == z
  {
    var w := p + x + q + y + z;
    assert w == [] + p + (x + q + y + z);
    MiddleOfConcat([], p, x + q + y + z);
    assert w == p + x + (q + y + z);
    MiddleOfConcat(p, x, q + y + z);
    assert w == (p + x) + q + (y + z);
    MiddleOfConcat(p + x, q, y + z);
    assert w == p + x + q + y + z;
    MiddleOfConcat(p + x + q, y, z);
    assert w == (p + x + q + y) + z + [];
    MiddleOfConcat(p + x + q + y, z, []);
  }
}
