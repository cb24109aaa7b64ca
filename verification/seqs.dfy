/** Generic sequence helpers shared by the readers, the writers and the pipeline. */
module Seqs {

  /** The concatenation of a sequence of sequences, in order. */
  function Flatten<T>(ss: seq<seq<T>>): seq<T>
  {
    if |ss| == 0 then [] else Flatten(ss[..|ss| - 1]) + ss[|ss| - 1]
  }

  /** The sum of a sequence of naturals. */
  function Sum(xs: seq<nat>): nat
  {
    if |xs| == 0 then 0 else Sum(xs[..|xs| - 1]) + xs[|xs| - 1]
  }

  lemma {:induction false} FlattenAppend<T>(a: seq<seq<T>>, b: seq<seq<T>>)
    ensures Flatten(a + b) == Flatten(a) + Flatten(b)
    decreases |b|
  {
    if |b| == 0 {
      assert a + b == a;
    } else {
      var b' := b[..|b| - 1];
      assert (a + b)[..|a + b| - 1] == a + b';
      FlattenAppend(a, b');
    }
  }

  lemma FlattenSingle<T>(s: seq<T>)
    ensures Flatten([s]) == s
  {
    assert [s][..0] == [];
  }

  lemma {:induction false} FlattenCons<T>(s: seq<T>, ss: seq<seq<T>>)
    ensures Flatten([s] + ss) == s + Flatten(ss)
  {
    FlattenAppend([s], ss);
    FlattenSingle(s);
  }

  /** Every piece of the concatenation sits at the offset given by the lengths of the pieces before it. */
  lemma {:induction false} FlattenLength<T>(ss: seq<seq<T>>)
    ensures |Flatten(ss)| == Sum(Lengths(ss))
    decreases |ss|
  {
    if |ss| > 0 {
      FlattenLength(ss[..|ss| - 1]);
      assert Lengths(ss)[..|ss| - 1] == Lengths(ss[..|ss| - 1]);
    }
  }

  function Lengths<T>(ss: seq<seq<T>>): (r: seq<nat>)
    ensures |r| == |ss|
    ensures forall i :: 0 <= i < |ss| ==> r[i] == |ss[i]|
  {
    seq(|ss|, i requires 0 <= i < |ss| => |ss[i]|)
  }

  /** Where each of three concatenated pieces sits in the whole. */
  lemma Concat3<T>(a: seq<T>, b: seq<T>, c: seq<T>, s: seq<T>)
    requires s == a + b + c
    ensures |s| == |a| + |b| + |c|
    ensures forall k :: 0 <= k < |a| ==> s[k] == a[k]
    ensures forall k :: 0 <= k < |b| ==> s[|a| + k] == b[k]
    ensures forall k :: 0 <= k < |c| ==> s[|a| + |b| + k] == c[k]
  {
  }

  /** Where each of four concatenated pieces sits in the whole. */
  lemma Concat4<T>(a: seq<T>, b: seq<T>, c: seq<T>, d: seq<T>, s: seq<T>)
    requires s == a + b + c + d
    ensures |s| == |a| + |b| + |c| + |d|
    ensures s[..|a|] == a
    ensures forall k :: 0 <= k < |b| ==> s[|a| + k] == b[k]
    ensures forall k :: 0 <= k < |c| ==> s[|a| + |b| + k] == c[k]
    ensures s[|s| - |d|..] == d
  {
    assert s[..|a|] == a;
    assert s[|s| - |d|..] == d;
  }

  /** The step of every "whole triples, element by element" map: the first triple's
      images followed by the images of the remaining triples. */
  lemma MapTriplesCons<T, U>(ts: seq<T>, f: T -> U, rest: seq<U>, ws: seq<U>)
    requires |ts| >= 3
    requires |rest| == 3 * (|ts[3..]| / 3)
    requires forall i :: 0 <= i < |rest| ==> rest[i] == f(ts[3..][i])
    requires ws == [f(ts[0]), f(ts[1]), f(ts[2])] + rest
    ensures |ws| == 3 * (|ts| / 3)
    ensures forall i :: 0 <= i < |ws| ==> ws[i] == f(ts[i])
  {
    forall i | 3 <= i < |ws| ensures ws[i] == f(ts[i]) {
      assert ws[i] == rest[i - 3];
      assert ts[3..][i - 3] == ts[i];
    }
  }
}
