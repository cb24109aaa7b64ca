/** Meshes and convex hulls as the source holds them: flat coordinate and index
    buffers, three entries per vertex and per triangle. */
module Meshes {

  import opened Options
  import opened Text
  import Seqs

  /** A mesh read from disk (`points`, `triangles`) or a hull returned by the engine
      (`m_points`, `m_triangles`). Counts are derived from the buffer lengths; a trailing
      partial triple is never read by anything in the source. Coordinates are modelled
      as reals: the float/double distinction is not modelled. */
  datatype Mesh = Mesh(points: seq<real>, triangles: seq<int>)

  /** A convex hull has the same shape as a mesh; its indices are local to the hull. */
  type ConvexHull = Mesh

  function NPoints(m: Mesh): nat
  {
    |m.points| / 3
  }

  function NTriangles(m: Mesh): nat
  {
    |m.triangles| / 3
  }

  /** Buffers hold whole triples only. */
  predicate WellFormed(m: Mesh)
  {
    |m.points| % 3 == 0 && |m.triangles| % 3 == 0
  }

  /** What `strtod` makes of the front of a word: the value and how many of the word's
      characters it converted. */
  datatype Converted = Converted(value: real, length: nat)

  /** The C library's decimal conversions, which this model does not define: `strtod`
      converts the numeric prefix of one white-space-free word (nothing when the word
      does not start with a number), `fixed6` prints with `std::fixed` and precision 6,
      `general6` prints with the stream defaults. */
  datatype FloatLib = FloatLib(
    strtod: string -> Option<Converted>,
    fixed6: real -> string,
    general6: real -> string)

  /** A printed float is one non-empty word. */
  predicate IsWord(w: string)
  {
    |w| > 0 && forall i :: 0 <= i < |w| ==> !IsSpace(w[i])
  }

  /** What a printed float is guaranteed to look like: one word that `strtod` converts
      to its end. */
  ghost predicate Coherent(lib: FloatLib)
  {
    && (forall x :: IsWord(lib.fixed6(x)) && ConvertsWhole(lib, lib.fixed6(x)))
    && (forall x :: IsWord(lib.general6(x)) && ConvertsWhole(lib, lib.general6(x)))
  }

  /** `strtod` converts a number at the front of `w` (its end pointer moves). */
  predicate Converts(lib: FloatLib, w: string)
  {
    lib.strtod(w).Some? && lib.strtod(w).value.length > 0
  }

  /** `strtod` converts all of the non-empty word `w`, leaving nothing of it unread. */
  predicate ConvertsWhole(lib: FloatLib, w: string)
  {
    |w| > 0 && lib.strtod(w).Some? && lib.strtod(w).value.length == |w|
  }

  /** The number at the start of a word, or 0 when there is none. */
  function WordValue(lib: FloatLib, w: string): real
  {
    match lib.strtod(w)
    case Some(c) => c.value
    case None => 0.0
  }

  /** C `atof`: white space is skipped, the number at the start of the first word is
      converted, and text with no number reads as 0. */
  function Atof(lib: FloatLib, s: string): real
  {
    var w := FirstWord(s);
    if |w| == 0 then 0.0 else WordValue(lib, w)
  }

  /** Why loading gives up. `NegativeSize` is the `std::length_error` that
      `vector::resize` throws for a negative declared count; `NotSupported` is an input
      name whose extension is neither `.off` nor `.obj`; the others are the readers'
      `false` returns. */
  datatype LoadError = FileNotFound | FormatNotRecognized | NegativeSize | MissingCoordinate | NotSupported

  /** The buffer cut into consecutive triples, as the loops `for (v = 0; v < nV; v += 3)`
      walk it; a trailing partial triple is dropped. */
  function Triples<T>(xs: seq<T>): (r: seq<seq<T>>)
    ensures |r| == |xs| / 3
    ensures forall i :: 0 <= i < |r| ==> |r[i]| == 3
    ensures forall i, j :: 0 <= i < |r| && 0 <= j < 3 ==> r[i][j] == xs[3 * i + j]
    decreases |xs|
  {
    if |xs| < 3 then [] else [xs[..3]] + Triples(xs[3..])
  }

  /** Cutting into triples loses only the trailing partial triple. */
  lemma {:induction false} TriplesFlatten<T>(xs: seq<T>)
    ensures Seqs.Flatten(Triples(xs)) == xs[..3 * (|xs| / 3)]
    decreases |xs|
  {
    if |xs| >= 3 {
      TriplesFlatten(xs[3..]);
      Seqs.FlattenCons(xs[..3], Triples(xs[3..]));
      assert xs[3..][..3 * (|xs[3..]| / 3)] == xs[3..3 * (|xs| / 3)];
      assert xs[..3] + xs[3..3 * (|xs| / 3)] == xs[..3 * (|xs| / 3)];
    } else {
      assert xs[..0] == [];
    }
  }
}
