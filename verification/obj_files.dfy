/** Reading back the OBJ files of the output stage. In a combined file all hulls share
    one vertex numbering: hull `p`'s faces were written with offset
    `1 + PointsBefore(hulls, p)`, so once loaded, each of its local indices `t` has
    become `t + PointsBefore(hulls, p)`, which is exactly where hull `p`'s vertex `t`
    sits in the loaded vertex buffer. A per-hull file is written with offset 1 and loads
    with the hull's own indices. */
module ObjFiles {

  import opened Options
  import opened Text
  import opened Meshes
  import opened Writers
  import opened ObjReader
  import opened ObjReadBack
  import opened Outputs
  import opened Paths
  import Seqs

  /** What hull `p` contributes to the loaded mesh: its reprinted coordinates, and its
      indices moved past the vertices of the hulls before it. */
  function HullMesh(lib: FloatLib, hulls: seq<ConvexHull>, p: nat): (m: Mesh)
    requires p < |hulls|
    ensures |m.points| == 3 * NPoints(hulls[p]) && |m.triangles| == 3 * NTriangles(hulls[p])
  {
    Mesh(RefixedTriples(lib, hulls[p].points), ShiftTriples(hulls[p].triangles, PointsBefore(hulls, p)))
  }

  /** The hulls from `p` on merged into one mesh with one vertex numbering. */
  function MergedFrom(lib: FloatLib, hulls: seq<ConvexHull>, p: nat): Mesh
    requires p <= |hulls|
    decreases |hulls| - p
  {
    if p == |hulls| then Mesh([], []) else Concat(HullMesh(lib, hulls, p), MergedFrom(lib, hulls, p + 1))
  }

  /** Number of triangles of the hulls before hull `p`. */
  function TrianglesBefore(hulls: seq<ConvexHull>, p: nat): nat
    requires p <= |hulls|
  {
    if p == 0 then 0 else TrianglesBefore(hulls, p - 1) + NTriangles(hulls[p - 1])
  }

  // ---------------------------------------------------------------------------
  // The file loads as the merged mesh
  // ---------------------------------------------------------------------------

  /** One hull's section, written with its running offset, loads as the hull's part of
      the merged mesh. */
  lemma ObjSectionLoads(lib: FloatLib, hulls: seq<ConvexHull>, p: nat)
    requires Coherent(lib) && p < |hulls|
    ensures AllOneLine(ObjSection(lib, hulls, p, 1 + PointsBefore(hulls, p)))
    ensures LoadObj(Terminated(ObjSection(lib, hulls, p, 1 + PointsBefore(hulls, p))), lib) == Success(HullMesh(lib, hulls, p))
  {
    hide *;
    var off := 1 + PointsBefore(hulls, p);
    var ls := SaveObj(lib, hulls[p], p, off);
    ObjSectionIs(lib, hulls, p, off);
    HullMeshIs(lib, hulls, p);
    SaveObjParts(lib, hulls[p], p, off);
    SaveObjReadBack(lib, hulls[p], p, off);
    LinesOfFileText(ls);
  }

  lemma ObjSectionIs(lib: FloatLib, hulls: seq<ConvexHull>, p: nat, off: int)
    requires p < |hulls|
    ensures ObjSection(lib, hulls, p, off) == SaveObj(lib, hulls[p], p, off)
  {
    hide SaveObj;
  }

  lemma HullMeshIs(lib: FloatLib, hulls: seq<ConvexHull>, p: nat)
    requires p < |hulls|
    ensures HullMesh(lib, hulls, p)
      == Mesh(RefixedTriples(lib, hulls[p].points), ShiftTriples(hulls[p].triangles, (1 + PointsBefore(hulls, p)) - 1))
  {
    hide RefixedTriples, ShiftTriples, PointsBefore, NPoints, NTriangles;
  }

  lemma LoadObjEmpty(lib: FloatLib)
    ensures LoadObj([], lib) == Success(Mesh([], []))
    ensures Terminated([]) == [] && AllOneLine([])
  {
  }

  lemma JoinSuccess(m: Mesh, n: Mesh)
    ensures Join(Success(m), Success(n)) == Success(Concat(m, n))
  {
  }

  lemma MergedFromEnd(lib: FloatLib, hulls: seq<ConvexHull>)
    ensures MergedFrom(lib, hulls, |hulls|) == Mesh([], [])
  {
  }

  lemma MergedFromCons(lib: FloatLib, hulls: seq<ConvexHull>, p: nat)
    requires p < |hulls|
    ensures MergedFrom(lib, hulls, p) == Concat(HullMesh(lib, hulls, p), MergedFrom(lib, hulls, p + 1))
  {
    hide HullMesh, Concat;
  }

  /** The combined loop from hull `p` on writes lines that load as the merged hulls. */
  lemma {:induction false} ObjCombinedFromLoads(lib: FloatLib, hulls: seq<ConvexHull>, p: nat)
    requires Coherent(lib) && p <= |hulls|
    ensures AllOneLine(ObjCombinedFrom(lib, hulls, p, 1 + PointsBefore(hulls, p)))
    ensures LoadObj(Terminated(ObjCombinedFrom(lib, hulls, p, 1 + PointsBefore(hulls, p))), lib) == Success(MergedFrom(lib, hulls, p))
    decreases |hulls| - p
  {
    hide *;
    if p == |hulls| {
      ObjCombinedFromEnd(lib, hulls, 1 + PointsBefore(hulls, p));
      MergedFromEnd(lib, hulls);
      LoadObjEmpty(lib);
    } else {
      var sec := ObjSection(lib, hulls, p, 1 + PointsBefore(hulls, p));
      var rest := ObjCombinedFrom(lib, hulls, p + 1, 1 + PointsBefore(hulls, p + 1));
      ObjCombinedFromCons(lib, hulls, p);
      ObjSectionsAt(lib, hulls, p);
      ObjSectionLoads(lib, hulls, p);
      ObjCombinedFromLoads(lib, hulls, p + 1);
      MergedFromCons(lib, hulls, p);
      AllOneLineAppend(sec, rest);
      TerminatedAppend(sec, rest);
      LoadObjAppend(Terminated(sec), Terminated(rest), lib);
      JoinSuccess(HullMesh(lib, hulls, p), MergedFrom(lib, hulls, p + 1));
    }
  }

  lemma ObjSectionsAt(lib: FloatLib, hulls: seq<ConvexHull>, p: nat)
    requires p < |hulls|
    ensures ObjSections(lib, hulls)[p] == ObjSection(lib, hulls, p, 1 + PointsBefore(hulls, p))
  {
    hide ObjSection, PointsBefore;
  }

  /** The combined OBJ round trip: the whole combined file loads, and what it loads is
      the hulls merged into one mesh with one vertex numbering. */
  lemma ObjCombinedReadBack(lib: FloatLib, hulls: seq<ConvexHull>)
    requires Coherent(lib)
    ensures LoadObj(Lines(FileText(ObjCombined(lib, hulls))), lib) == Success(MergedFrom(lib, hulls, 0))
  {
    hide *;
    var ls := ObjCombined(lib, hulls);
    ObjCombinedIsFrom(lib, hulls);
    ObjCombinedFromLoads(lib, hulls, 0);
    LinesOfFileText(ls);
  }

  lemma ObjCombinedIsFrom(lib: FloatLib, hulls: seq<ConvexHull>)
    ensures ObjCombined(lib, hulls) == ObjCombinedFrom(lib, hulls, 0, 1 + PointsBefore(hulls, 0))
  {
    hide ObjCombinedFrom;
  }

  // ---------------------------------------------------------------------------
  // Where each hull sits in the merged mesh
  // ---------------------------------------------------------------------------

  /** The merged hulls from `q` on hold their coordinates and triangles back to back. */
  lemma {:induction false} MergedFromSizes(lib: FloatLib, hulls: seq<ConvexHull>, q: nat)
    requires q <= |hulls|
    ensures |MergedFrom(lib, hulls, q).points| == 3 * (PointsBefore(hulls, |hulls|) - PointsBefore(hulls, q))
    ensures |MergedFrom(lib, hulls, q).triangles| == 3 * (TrianglesBefore(hulls, |hulls|) - TrianglesBefore(hulls, q))
    decreases |hulls| - q
  {
    PointsBeforeMonotone(hulls, q, |hulls|);
    TrianglesBeforeMonotone(hulls, q, |hulls|);
    if q < |hulls| {
      MergedFromSizes(lib, hulls, q + 1);
      PointsBeforeMonotone(hulls, q + 1, |hulls|);
      TrianglesBeforeMonotone(hulls, q + 1, |hulls|);
      MergedFromCons(lib, hulls, q);
      PointsBeforeStep(hulls, q);
      TrianglesBeforeStep(hulls, q);
      hide *;
    } else {
      MergedFromEnd(lib, hulls);
    }
  }

  lemma TrianglesBeforeStep(hulls: seq<ConvexHull>, p: nat)
    requires p < |hulls|
    ensures TrianglesBefore(hulls, p + 1) == TrianglesBefore(hulls, p) + NTriangles(hulls[p])
  {
    hide NTriangles;
  }

  lemma {:induction false} TrianglesBeforeMonotone(hulls: seq<ConvexHull>, q: nat, p: nat)
    requires q <= p <= |hulls|
    ensures TrianglesBefore(hulls, q) <= TrianglesBefore(hulls, p)
    decreases p - q
  {
    if q < p {
      TrianglesBeforeMonotone(hulls, q, p - 1);
    }
  }

  /** Coordinate `j` of vertex `t` of hull `p` sits at position
      `3 * (PointsBefore(hulls, p) + t) + j` of the merged buffer, counted from hull `q`. */
  lemma {:induction false} MergedPointAt(lib: FloatLib, hulls: seq<ConvexHull>, q: nat, p: nat, t: nat, j: nat)
    requires q <= p < |hulls| && t < NPoints(hulls[p]) && j < 3
    ensures PointsBefore(hulls, q) <= PointsBefore(hulls, p)
    ensures 3 * (PointsBefore(hulls, p) - PointsBefore(hulls, q) + t) + j < |MergedFrom(lib, hulls, q).points|
    ensures MergedFrom(lib, hulls, q).points[3 * (PointsBefore(hulls, p) - PointsBefore(hulls, q) + t) + j]
      == Refixed(lib, hulls[p].points[3 * t + j])
    decreases p - q
  {
    hide PointsBefore, TrianglesBefore, MergedFrom, ShiftTriples;
    PointsBeforeMonotone(hulls, q, p);
    MergedFromCons(lib, hulls, q);
    var h := HullMesh(lib, hulls, q);
    var m := MergedFrom(lib, hulls, q);
    var m' := MergedFrom(lib, hulls, q + 1);
    assert m.points == h.points + m'.points;
    if q == p {
      assert 3 * t + j < |h.points|;
      assert m.points[3 * t + j] == h.points[3 * t + j];
    } else {
      MergedPointAt(lib, hulls, q + 1, p, t, j);
      PointsBeforeStep(hulls, q);
      var k := 3 * (PointsBefore(hulls, p) - PointsBefore(hulls, q + 1) + t) + j;
      assert 3 * (PointsBefore(hulls, p) - PointsBefore(hulls, q) + t) + j == |h.points| + k;
      assert m.points[|h.points| + k] == m'.points[k];
    }
  }

  /** Index `j` of triangle `i` of hull `p` sits at position
      `3 * (TrianglesBefore(hulls, p) + i) + j` of the merged buffer, counted from hull
      `q`, moved by the vertices of the hulls before `p`. */
  lemma {:induction false} MergedTriangleAt(lib: FloatLib, hulls: seq<ConvexHull>, q: nat, p: nat, i: nat, j: nat)
    requires q <= p < |hulls| && i < NTriangles(hulls[p]) && j < 3
    ensures TrianglesBefore(hulls, q) <= TrianglesBefore(hulls, p)
    ensures 3 * (TrianglesBefore(hulls, p) - TrianglesBefore(hulls, q) + i) + j < |MergedFrom(lib, hulls, q).triangles|
    ensures MergedFrom(lib, hulls, q).triangles[3 * (TrianglesBefore(hulls, p) - TrianglesBefore(hulls, q) + i) + j]
      == hulls[p].triangles[3 * i + j] + PointsBefore(hulls, p)
    decreases p - q
  {
    hide PointsBefore, TrianglesBefore, MergedFrom, RefixedTriples;
    TrianglesBeforeMonotone(hulls, q, p);
    MergedFromCons(lib, hulls, q);
    var h := HullMesh(lib, hulls, q);
    var m := MergedFrom(lib, hulls, q);
    var m' := MergedFrom(lib, hulls, q + 1);
    assert m.triangles == h.triangles + m'.triangles;
    if q == p {
      assert 3 * i + j < |h.triangles|;
      assert m.triangles[3 * i + j] == h.triangles[3 * i + j];
    } else {
      MergedTriangleAt(lib, hulls, q + 1, p, i, j);
      TrianglesBeforeStep(hulls, q);
      var k := 3 * (TrianglesBefore(hulls, p) - TrianglesBefore(hulls, q + 1) + i) + j;
      assert 3 * (TrianglesBefore(hulls, p) - TrianglesBefore(hulls, q) + i) + j == |h.triangles| + k;
      assert m.triangles[|h.triangles| + k] == m'.triangles[k];
    }
  }

  /** The point of the shared numbering: in the loaded combined file, a triangle index of
      hull `p` that named that hull's vertex `t` names a vertex whose coordinates are
      hull `p`'s vertex `t`, reprinted. No hull's faces reach into another hull's
      vertices. */
  lemma CombinedIndexAddressesOwnHull(lib: FloatLib, hulls: seq<ConvexHull>, p: nat, i: nat, j: nat, k: nat)
    requires p < |hulls| && i < NTriangles(hulls[p]) && j < 3 && k < 3
    requires 0 <= hulls[p].triangles[3 * i + j] < NPoints(hulls[p])
    ensures var m := MergedFrom(lib, hulls, 0);
      var x := 3 * (TrianglesBefore(hulls, p) + i) + j;
      x < |m.triangles| && 0 <= 3 * m.triangles[x] + k < |m.points|
      && m.points[3 * m.triangles[x] + k] == Refixed(lib, hulls[p].points[3 * hulls[p].triangles[3 * i + j] + k])
  {
    var t := hulls[p].triangles[3 * i + j];
    MergedTriangleAt(lib, hulls, 0, p, i, j);
    MergedPointAt(lib, hulls, 0, p, t, k);
    assert PointsBefore(hulls, 0) == 0 && TrianglesBefore(hulls, 0) == 0;
  }

  // ---------------------------------------------------------------------------
  // Per-hull files
  // ---------------------------------------------------------------------------

  /** Shifting by nothing keeps the whole triples. */
  lemma ShiftTriplesZero(ts: seq<int>)
    ensures ShiftTriples(ts, 0) == ts[..3 * (|ts| / 3)]
  {
  }

  /** `w` is hull `q`'s own file, and it loads as hull `q`: the reprinted coordinates
      and the hull's triangles with their indices unchanged. */
  predicate LoadsAsOwnHull(lib: FloatLib, hulls: seq<ConvexHull>, base: string, ext: string, w: FileWrite, q: int)
  {
    0 <= q < |hulls| && w.name == PerHullName(base, q, ext)
    && LoadObj(Lines(FileText(w.lines)), lib)
       == Success(Mesh(RefixedTriples(lib, hulls[q].points), hulls[q].triangles[..3 * NTriangles(hulls[q])]))
  }

  /** Every per-hull OBJ file loads as its hull: per-hull files restart the numbering at
      1, so no index moves. */
  lemma ObjPerHullReadBack(lib: FloatLib, hulls: seq<ConvexHull>, base: string, ext: string, canOpen: string -> bool)
    requires Coherent(lib)
    ensures forall w :: w in ObjPerHullFrom(lib, hulls, base, ext, canOpen, 0) ==>
      exists q :: LoadsAsOwnHull(lib, hulls, base, ext, w, q)
  {
    var ws := ObjPerHullFrom(lib, hulls, base, ext, canOpen, 0);
    ObjPerHullSound(lib, hulls, base, ext, canOpen, 0);
    forall w | w in ws
      ensures exists q :: LoadsAsOwnHull(lib, hulls, base, ext, w, q)
    {
      var q :| 0 <= q < |hulls| && canOpen(PerHullName(base, q, ext))
        && w == FileWrite(PerHullName(base, q, ext), SaveObj(lib, hulls[q], q, 1));
      SaveObjReadBack(lib, hulls[q], q, 1);
      ShiftTriplesZero(hulls[q].triangles);
      assert LoadsAsOwnHull(lib, hulls, base, ext, w, q);
    }
  }
}
