/** The output stage of `ComputeHACD`: after the hulls are aggregated, they are written
    to one combined file or to one file per hull, in VRML or OBJ depending on the last
    four characters of the output path. Files are modelled as the lines written to them;
    whether a file can be opened is a parameter. */
module Outputs {

  import opened Options
  import opened Text
  import opened Meshes
  import opened Writers
  import opened Colors
  import opened Paths
  import Seqs

  /** One file created and filled. */
  datatype FileWrite = FileWrite(name: string, lines: seq<string>)

  /** Number of vertices of the hulls before hull `p`. */
  function PointsBefore(hulls: seq<ConvexHull>, p: nat): nat
    requires p <= |hulls|
  {
    if p == 0 then 0 else PointsBefore(hulls, p - 1) + NPoints(hulls[p - 1])
  }

  lemma {:induction false} PointsBeforeMonotone(hulls: seq<ConvexHull>, q: nat, p: nat)
    requires q <= p <= |hulls|
    ensures PointsBefore(hulls, q) <= PointsBefore(hulls, p)
    decreases p - q
  {
    if q < p {
      PointsBeforeMonotone(hulls, q, p - 1);
    }
  }

  // ---------------------------------------------------------------------------
  // OBJ
  // ---------------------------------------------------------------------------

  /** Hull `p` written as an OBJ section with vertex offset `offset`. */
  function ObjSection(lib: FloatLib, hulls: seq<ConvexHull>, p: nat, offset: int): seq<string>
    requires p < |hulls|
  {
    SaveObj(lib, hulls[p], p, offset)
  }

  /** The combined OBJ loop from hull `p` on, `offset` being the running `vertexOffset`:
      each hull is written with the current offset, which then grows by its vertex
      count. */
  function ObjCombinedFrom(lib: FloatLib, hulls: seq<ConvexHull>, p: nat, offset: int): seq<string>
    requires p <= |hulls|
    decreases |hulls| - p
  {
    if p == |hulls| then []
    else ObjSection(lib, hulls, p, offset) + ObjCombinedFrom(lib, hulls, p + 1, offset + NPoints(hulls[p]))
  }

  /** The combined OBJ file: the loop started with `vertexOffset = 1`. */
  function ObjCombined(lib: FloatLib, hulls: seq<ConvexHull>): seq<string>
  {
    ObjCombinedFrom(lib, hulls, 0, 1)
  }

  /** Each hull's section as the file's own numbering needs it: its faces shifted by one
      plus the number of vertices written before it. */
  function ObjSections(lib: FloatLib, hulls: seq<ConvexHull>): (ss: seq<seq<string>>)
    ensures |ss| == |hulls|
    ensures forall p {:trigger ss[p]} :: 0 <= p < |hulls| ==> ss[p] == ObjSection(lib, hulls, p, 1 + PointsBefore(hulls, p))
  {
    var ss := seq(|hulls|, p requires 0 <= p < |hulls| => ObjSection(lib, hulls, p, 1 + PointsBefore(hulls, p)));
    ObjSectionsLayout(lib, hulls, ss);
    ss
  }

  lemma ObjSectionsLayout(lib: FloatLib, hulls: seq<ConvexHull>, ss: seq<seq<string>>)
    requires ss == seq(|hulls|, p requires 0 <= p < |hulls| => ObjSection(lib, hulls, p, 1 + PointsBefore(hulls, p)))
    ensures |ss| == |hulls|
    ensures forall p {:trigger ss[p]} :: 0 <= p < |hulls| ==> ss[p] == ObjSection(lib, hulls, p, 1 + PointsBefore(hulls, p))
  {
    hide ObjSection, PointsBefore, SaveObj;
  }

  /** The running offset is always one plus the vertices written so far: the combined
      file is the hulls' sections in order, hull `p` written with offset
      `1 + PointsBefore(hulls, p)`. */
  lemma ObjCombinedOffsets(lib: FloatLib, hulls: seq<ConvexHull>)
    ensures ObjCombined(lib, hulls) == Seqs.Flatten(ObjSections(lib, hulls))
  {
    hide ObjSection, ObjCombinedFrom, ObjSections, NPoints;
    ObjCombinedFromSections(lib, hulls, 0);
    assert 1 + PointsBefore(hulls, 0) == 1;
    assert ObjSections(lib, hulls)[0..] == ObjSections(lib, hulls);
  }

  lemma {:induction false} ObjCombinedFromSections(lib: FloatLib, hulls: seq<ConvexHull>, p: nat)
    requires p <= |hulls|
    ensures ObjCombinedFrom(lib, hulls, p, 1 + PointsBefore(hulls, p)) == Seqs.Flatten(ObjSections(lib, hulls)[p..])
    decreases |hulls| - p
  {
    hide ObjSection, ObjCombinedFrom, ObjSections, PointsBefore, NPoints;
    var ss := ObjSections(lib, hulls);
    if p < |hulls| {
      ObjCombinedFromCons(lib, hulls, p);
      ObjCombinedFromSections(lib, hulls, p + 1);
      assert ss[p..] == [ss[p]] + ss[p + 1..];
      Seqs.FlattenCons(ss[p], ss[p + 1..]);
    } else {
      assert ss[p..] == [];
      ObjCombinedFromEnd(lib, hulls, 1 + PointsBefore(hulls, p));
    }
  }

  /** One turn of the combined loop, the offset being the vertices written so far. */
  lemma ObjCombinedFromCons(lib: FloatLib, hulls: seq<ConvexHull>, p: nat)
    requires p < |hulls|
    ensures ObjCombinedFrom(lib, hulls, p, 1 + PointsBefore(hulls, p))
      == ObjSections(lib, hulls)[p] + ObjCombinedFrom(lib, hulls, p + 1, 1 + PointsBefore(hulls, p + 1))
  {
    hide ObjSection, PointsBefore, NPoints;
    PointsBeforeStep(hulls, p);
  }

  lemma ObjCombinedFromEnd(lib: FloatLib, hulls: seq<ConvexHull>, offset: int)
    ensures ObjCombinedFrom(lib, hulls, |hulls|, offset) == []
  {
  }

  lemma PointsBeforeStep(hulls: seq<ConvexHull>, p: nat)
    requires p < |hulls|
    ensures PointsBefore(hulls, p + 1) == PointsBefore(hulls, p) + NPoints(hulls[p])
  {
    hide NPoints;
  }

  /** The per-hull OBJ loop from hull `p` on: each hull whose file opens is written to
      its own file with `vertexOffset = 1`; a file that does not open is skipped. */
  function ObjPerHullFrom(lib: FloatLib, hulls: seq<ConvexHull>, base: string, ext: string,
                          canOpen: string -> bool, p: nat): (ws: seq<FileWrite>)
    requires p <= |hulls|
    ensures |ws| <= |hulls| - p
    decreases |hulls| - p
  {
    if p == |hulls| then []
    else
      var rest := ObjPerHullFrom(lib, hulls, base, ext, canOpen, p + 1);
      var name := PerHullName(base, p, ext);
      if canOpen(name) then [FileWrite(name, SaveObj(lib, hulls[p], p, 1))] + rest else rest
  }

  /** Every per-hull OBJ file belongs to a hull whose file opens, is named after it, and
      holds that hull alone written with offset 1. */
  lemma {:induction false} ObjPerHullSound(lib: FloatLib, hulls: seq<ConvexHull>, base: string, ext: string,
                                           canOpen: string -> bool, p: nat)
    requires p <= |hulls|
    ensures forall w :: w in ObjPerHullFrom(lib, hulls, base, ext, canOpen, p) ==>
      exists q :: p <= q < |hulls| && canOpen(PerHullName(base, q, ext))
        && w == FileWrite(PerHullName(base, q, ext), SaveObj(lib, hulls[q], q, 1))
    decreases |hulls| - p
  {
    hide SaveObj, PerHullName;
    if p < |hulls| {
      ObjPerHullSound(lib, hulls, base, ext, canOpen, p + 1);
    }
  }

  /** Every hull whose file opens does get its file. */
  lemma {:induction false} ObjPerHullComplete(lib: FloatLib, hulls: seq<ConvexHull>, base: string, ext: string,
                                              canOpen: string -> bool, p: nat, q: nat)
    requires p <= q < |hulls| && canOpen(PerHullName(base, q, ext))
    ensures FileWrite(PerHullName(base, q, ext), SaveObj(lib, hulls[q], q, 1)) in ObjPerHullFrom(lib, hulls, base, ext, canOpen, p)
    decreases |hulls| - p
  {
    if p < q {
      ObjPerHullComplete(lib, hulls, base, ext, canOpen, p + 1, q);
    }
  }

  // ---------------------------------------------------------------------------
  // VRML
  // ---------------------------------------------------------------------------

  /** Hull `p` written as a whole VRML document with material `m`. */
  function VrmlDocument(lib: FloatLib, hulls: seq<ConvexHull>, p: nat, m: Material): seq<string>
    requires p < |hulls|
  {
    SaveVrml2(lib, hulls[p], m)
  }

  /** The combined VRML loop from hull `p` on: a fresh colour is drawn for every hull,
      then the hull is written as a whole VRML document, header included. The material
      and the draws carry over from one hull to the next. `None` when the draws run
      out. */
  function VrmlCombinedFrom(lib: FloatLib, hulls: seq<ConvexHull>, p: nat, mat: Material, draws: seq<nat>): (r: Option<seq<string>>)
    requires p <= |hulls|
    decreases |hulls| - p
  {
    if p == |hulls| then Some([])
    else
      match ComputeRandomColor(mat, draws)
      case None => None
      case Some(c) =>
        match VrmlCombinedFrom(lib, hulls, p + 1, c.mat, c.rest)
        case None => None
        case Some(ls) => Some(VrmlDocument(lib, hulls, p, c.mat) + ls)
  }

  /** A material the colour loop produced from `mat`: distinct channels, everything
      else as it was. */
  predicate Recolored(m: Material, mat: Material)
  {
    Distinct(m.diffuse) && m == mat.(diffuse := m.diffuse)
  }

  /** The hulls from `p` on written one after the other with the given materials. */
  function VrmlDocuments(lib: FloatLib, hulls: seq<ConvexHull>, p: nat, mats: seq<Material>): (ss: seq<seq<string>>)
    requires p <= |hulls| && |mats| == |hulls| - p
    ensures |ss| == |mats|
    ensures forall i :: 0 <= i < |mats| ==> ss[i] == VrmlDocument(lib, hulls, p + i, mats[i])
  {
    seq(|mats|, i requires 0 <= i < |mats| => VrmlDocument(lib, hulls, p + i, mats[i]))
  }

  /** The materials of `n` successive `ComputeRandomColor` calls, each starting from the
      material the previous one left. */
  function ColorsFor(n: nat, mat: Material, draws: seq<nat>): (r: Option<seq<Material>>)
    ensures r.Some? ==> |r.value| == n
    ensures r.Some? ==> forall i :: 0 <= i < n ==> Recolored(r.value[i], mat)
  {
    hide ComputeRandomColor, Drawn, FirstDistinctAt, SomeDistinct;
    if n == 0 then Some([])
    else
      match ComputeRandomColor(mat, draws)
      case None => None
      case Some(c) =>
        match ColorsFor(n - 1, c.mat, c.rest)
        case None => None
        case Some(ms) =>
          var r := [c.mat] + ms;
          RecoloredByColor(mat, draws);
          RecoloredCons(c.mat, ms, mat, r);
          Some(r)
  }

  lemma RecoloredCons(m0: Material, ms: seq<Material>, mat: Material, r: seq<Material>)
    requires Recolored(m0, mat)
    requires forall i :: 0 <= i < |ms| ==> Recolored(ms[i], m0)
    requires r == [m0] + ms
    ensures forall i :: 0 <= i < |r| ==> Recolored(r[i], mat)
  {
    forall i | 0 <= i < |r| ensures Recolored(r[i], mat) {
      if i > 0 {
        assert r[i] == ms[i - 1];
        RecoloredTrans(ms[i - 1], m0, mat);
      }
    }
  }

  /** `x` in front of the sequence, if there is one. */
  function Prepend<T>(x: seq<T>, o: Option<seq<T>>): (r: Option<seq<T>>)
    ensures r.Some? <==> o.Some?
    ensures r.Some? ==> r.value == x + o.value
  {
    match o
    case None => None
    case Some(s) => Some(x + s)
  }

  /** One turn of the combined VRML loop and of the colour sequence. */
  lemma VrmlCombinedStep(lib: FloatLib, hulls: seq<ConvexHull>, p: nat, mat: Material, draws: seq<nat>)
    requires p < |hulls|
    ensures ComputeRandomColor(mat, draws).None? ==>
      VrmlCombinedFrom(lib, hulls, p, mat, draws).None? && ColorsFor(|hulls| - p, mat, draws).None?
    ensures ComputeRandomColor(mat, draws).Some? ==>
      var c := ComputeRandomColor(mat, draws).value;
      && VrmlCombinedFrom(lib, hulls, p, mat, draws)
         == Prepend(VrmlDocument(lib, hulls, p, c.mat), VrmlCombinedFrom(lib, hulls, p + 1, c.mat, c.rest))
      && ColorsFor(|hulls| - p, mat, draws) == Prepend([c.mat], ColorsFor(|hulls| - (p + 1), c.mat, c.rest))
  {
    hide VrmlDocument, Recolored;
  }

  lemma VrmlCombinedEnd(lib: FloatLib, hulls: seq<ConvexHull>, mat: Material, draws: seq<nat>)
    ensures VrmlCombinedFrom(lib, hulls, |hulls|, mat, draws) == Some([])
    ensures ColorsFor(0, mat, draws) == Some([])
    ensures Seqs.Flatten(VrmlDocuments(lib, hulls, |hulls|, [])) == []
  {
    assert VrmlDocuments(lib, hulls, |hulls|, []) == [];
  }

  /** The combined VRML file is one complete VRML document per hull, in hull order, each
      with its own recoloured copy of the material: the colours the loop draws are those
      of `ColorsFor`, and drawing runs out exactly when it does there. */
  lemma {:induction false} VrmlCombinedDocuments(lib: FloatLib, hulls: seq<ConvexHull>, p: nat, mat: Material, draws: seq<nat>)
    requires p <= |hulls|
    ensures VrmlCombinedFrom(lib, hulls, p, mat, draws).Some? <==> ColorsFor(|hulls| - p, mat, draws).Some?
    ensures VrmlCombinedFrom(lib, hulls, p, mat, draws).Some? ==>
      VrmlCombinedFrom(lib, hulls, p, mat, draws).value
        == Seqs.Flatten(VrmlDocuments(lib, hulls, p, ColorsFor(|hulls| - p, mat, draws).value))
    decreases |hulls| - p
  {
    hide *;
    if p == |hulls| {
      VrmlCombinedEnd(lib, hulls, mat, draws);
    } else {
      VrmlCombinedStep(lib, hulls, p, mat, draws);
      if ComputeRandomColor(mat, draws).Some? {
        var c := ComputeRandomColor(mat, draws).value;
        VrmlCombinedDocuments(lib, hulls, p + 1, c.mat, c.rest);
        if ColorsFor(|hulls| - (p + 1), c.mat, c.rest).Some? {
          VrmlCombinedCons(lib, hulls, p, mat, draws, c, ColorsFor(|hulls| - (p + 1), c.mat, c.rest).value);
        }
      }
    }
  }

  /** The induction step of `VrmlCombinedDocuments` when both loops go on. */
  lemma VrmlCombinedCons(lib: FloatLib, hulls: seq<ConvexHull>, p: nat, mat: Material, draws: seq<nat>,
                         c: Colored, ms: seq<Material>)
    requires p < |hulls|
    requires ComputeRandomColor(mat, draws) == Some(c)
    requires ColorsFor(|hulls| - (p + 1), c.mat, c.rest) == Some(ms)
    requires VrmlCombinedFrom(lib, hulls, p + 1, c.mat, c.rest).Some?
    requires VrmlCombinedFrom(lib, hulls, p + 1, c.mat, c.rest).value == Seqs.Flatten(VrmlDocuments(lib, hulls, p + 1, ms))
    ensures ColorsFor(|hulls| - p, mat, draws) == Some([c.mat] + ms)
    ensures VrmlCombinedFrom(lib, hulls, p, mat, draws).Some?
    ensures VrmlCombinedFrom(lib, hulls, p, mat, draws).value == Seqs.Flatten(VrmlDocuments(lib, hulls, p, [c.mat] + ms))
  {
    hide *;
    VrmlCombinedStep(lib, hulls, p, mat, draws);
    var doc := VrmlDocument(lib, hulls, p, c.mat);
    var ds := VrmlDocuments(lib, hulls, p, [c.mat] + ms);
    assert ds == [doc] + VrmlDocuments(lib, hulls, p + 1, ms);
    Seqs.FlattenCons(doc, VrmlDocuments(lib, hulls, p + 1, ms));
  }

  /** The per-hull VRML loop from hull `p` on: for each hull whose file opens, a colour
      is drawn and the hull is written to its own file. A hull whose file does not open
      draws no colour. */
  function VrmlPerHullFrom(lib: FloatLib, hulls: seq<ConvexHull>, base: string, ext: string,
                           canOpen: string -> bool, p: nat, mat: Material, draws: seq<nat>): (r: Option<seq<FileWrite>>)
    requires p <= |hulls|
    decreases |hulls| - p
  {
    if p == |hulls| then Some([])
    else
      var name := PerHullName(base, p, ext);
      if !canOpen(name) then VrmlPerHullFrom(lib, hulls, base, ext, canOpen, p + 1, mat, draws)
      else
        match ComputeRandomColor(mat, draws)
        case None => None
        case Some(c) =>
          match VrmlPerHullFrom(lib, hulls, base, ext, canOpen, p + 1, c.mat, c.rest)
          case None => None
          case Some(ws) => Some([FileWrite(name, VrmlDocument(lib, hulls, p, c.mat))] + ws)
  }

  /** One turn of the per-hull VRML loop. A hull whose file does not open is passed
      over with the same material and draws; otherwise the drawn colour is a recoloured
      copy of the material and the hull's file comes first. */
  lemma VrmlPerHullStep(lib: FloatLib, hulls: seq<ConvexHull>, base: string, ext: string,
                        canOpen: string -> bool, p: nat, mat: Material, draws: seq<nat>)
    requires p < |hulls|
    requires VrmlPerHullFrom(lib, hulls, base, ext, canOpen, p, mat, draws).Some?
    ensures !canOpen(PerHullName(base, p, ext)) ==>
      VrmlPerHullFrom(lib, hulls, base, ext, canOpen, p, mat, draws)
        == VrmlPerHullFrom(lib, hulls, base, ext, canOpen, p + 1, mat, draws)
    ensures canOpen(PerHullName(base, p, ext)) ==>
      && ComputeRandomColor(mat, draws).Some?
      && var c := ComputeRandomColor(mat, draws).value;
      && Recolored(c.mat, mat)
      && VrmlPerHullFrom(lib, hulls, base, ext, canOpen, p + 1, c.mat, c.rest).Some?
      && VrmlPerHullFrom(lib, hulls, base, ext, canOpen, p, mat, draws).value
         == [FileWrite(PerHullName(base, p, ext), VrmlDocument(lib, hulls, p, c.mat))]
            + VrmlPerHullFrom(lib, hulls, base, ext, canOpen, p + 1, c.mat, c.rest).value
  {
    hide VrmlDocument, PerHullName, Recolored;
    if canOpen(PerHullName(base, p, ext)) {
      RecoloredByColor(mat, draws);
    }
  }

  /** `ComputeRandomColor` only recolours. */
  lemma RecoloredByColor(mat: Material, draws: seq<nat>)
    requires ComputeRandomColor(mat, draws).Some?
    ensures Recolored(ComputeRandomColor(mat, draws).value.mat, mat)
  {
  }

  lemma RecoloredTrans(m: Material, m1: Material, mat: Material)
    requires Recolored(m, m1) && Recolored(m1, mat)
    ensures Recolored(m, mat)
  {
  }

  /** Every file of the per-hull VRML output belongs to a hull whose file opens, is
      named after it and holds that hull alone as a VRML document with a recoloured
      material; and every hull whose file opens gets one. */
  lemma {:induction false} VrmlPerHullFiles(lib: FloatLib, hulls: seq<ConvexHull>, base: string, ext: string,
                                            canOpen: string -> bool, p: nat, mat: Material, draws: seq<nat>)
    requires p <= |hulls|
    requires VrmlPerHullFrom(lib, hulls, base, ext, canOpen, p, mat, draws).Some?
    ensures forall w :: w in VrmlPerHullFrom(lib, hulls, base, ext, canOpen, p, mat, draws).value ==>
      exists q, m :: p <= q < |hulls| && canOpen(PerHullName(base, q, ext)) && Recolored(m, mat)
        && w == FileWrite(PerHullName(base, q, ext), VrmlDocument(lib, hulls, q, m))
    ensures forall q :: p <= q < |hulls| && canOpen(PerHullName(base, q, ext)) ==>
      exists w :: w in VrmlPerHullFrom(lib, hulls, base, ext, canOpen, p, mat, draws).value
        && w.name == PerHullName(base, q, ext)
    decreases |hulls| - p
  {
    hide *;
    if p == |hulls| {
      VrmlPerHullEnd(lib, hulls, base, ext, canOpen, mat, draws);
    } else {
      VrmlPerHullStep(lib, hulls, base, ext, canOpen, p, mat, draws);
      var name := PerHullName(base, p, ext);
      if !canOpen(name) {
        VrmlPerHullFiles(lib, hulls, base, ext, canOpen, p + 1, mat, draws);
      } else {
        var c := ComputeRandomColor(mat, draws).value;
        VrmlPerHullFiles(lib, hulls, base, ext, canOpen, p + 1, c.mat, c.rest);
        var w0 := FileWrite(name, VrmlDocument(lib, hulls, p, c.mat));
        var ws := VrmlPerHullFrom(lib, hulls, base, ext, canOpen, p + 1, c.mat, c.rest).value;
        forall w | w in [w0] + ws
          ensures exists q, m :: (p <= q < |hulls| && canOpen(PerHullName(base, q, ext)) && Recolored(m, mat)
            && w == FileWrite(PerHullName(base, q, ext), VrmlDocument(lib, hulls, q, m)))
        {
          if w == w0 {
            assert p <= p < |hulls| && canOpen(PerHullName(base, p, ext)) && Recolored(c.mat, mat)
              && w == FileWrite(PerHullName(base, p, ext), VrmlDocument(lib, hulls, p, c.mat));
          } else {
            var q, m :| p + 1 <= q < |hulls| && canOpen(PerHullName(base, q, ext)) && Recolored(m, c.mat)
              && w == FileWrite(PerHullName(base, q, ext), VrmlDocument(lib, hulls, q, m));
            RecoloredTrans(m, c.mat, mat);
          }
        }
        assert w0 in [w0] + ws && w0.name == name;
      }
    }
  }

  lemma VrmlPerHullEnd(lib: FloatLib, hulls: seq<ConvexHull>, base: string, ext: string,
                       canOpen: string -> bool, mat: Material, draws: seq<nat>)
    ensures VrmlPerHullFrom(lib, hulls, base, ext, canOpen, |hulls|, mat, draws) == Some([])
  {
  }

  // ---------------------------------------------------------------------------
  // Dispatch
  // ---------------------------------------------------------------------------

  /** The whole `write_output` block. The combined mode writes one file at the output
      path when it opens (an empty one when there are no hulls); the per-hull mode
      names each file after the path without its last four characters, the hull index
      and the lower-cased extension. An output path with another extension writes
      nothing. `None` when the colour draws run out. */
  function WriteOutput(lib: FloatLib, canOpen: string -> bool, out: string, separate: bool,
                       hulls: seq<ConvexHull>, draws: seq<nat>): (r: Option<seq<FileWrite>>)
    ensures OutputFormatOf(out) == NoOutput ==> r == Some([])
    ensures OutputFormatOf(out) == ObjOutput ==> r.Some?
    ensures !separate && r.Some? ==> |r.value| <= 1
    ensures !separate && r.Some? && |r.value| == 1 ==> r.value[0].name == out && canOpen(out)
    ensures !separate && OutputFormatOf(out) != NoOutput && canOpen(out) ==> r.Some? ==> |r.value| == 1
  {
    var (base, ext) := SplitOutputPath(out);
    match OutputFormatOf(out)
    case VrmlOutput =>
      if !separate then
        if canOpen(out) then
          match VrmlCombinedFrom(lib, hulls, 0, DefaultMaterial, draws)
          case None => None
          case Some(ls) => Some([FileWrite(out, ls)])
        else Some([])
      else VrmlPerHullFrom(lib, hulls, base, ext, canOpen, 0, DefaultMaterial, draws)
    case ObjOutput =>
      if !separate then
        if canOpen(out) then Some([FileWrite(out, ObjCombined(lib, hulls))]) else Some([])
      else Some(ObjPerHullFrom(lib, hulls, base, ext, canOpen, 0))
    case NoOutput => Some([])
  }
}
