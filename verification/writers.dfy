/** The three mesh writers, `SaveOFF`, `SaveOBJ` and `SaveVRML2`, as the lines each
    writes (without the newline `std::endl` adds), and the file text those lines make.
    Floats go through the `FloatLib` conversions: `SaveOFF` prints with the stream
    defaults, the other two switch the stream to fixed notation with six decimals. */
module Writers {

  import opened Text
  import opened Meshes
  import Seqs

  /** An RGB triple of the material record. */
  datatype Rgb = Rgb(r: real, g: real, b: real)

  /** The `Material` record a VRML shape is written with. */
  datatype Material = Material(
    diffuse: Rgb,
    ambient: real,
    specular: Rgb,
    emissive: Rgb,
    shininess: real,
    transparency: real)

  /** What the `Material` constructor sets. */
  const DefaultMaterial: Material :=
    Material(Rgb(0.5, 0.5, 0.5), 0.4, Rgb(0.5, 0.5, 0.5), Rgb(0.0, 0.0, 0.0), 0.4, 0.5)

  /** `n` spaces of indentation. */
  function Pad(n: nat): (s: string)
    ensures |s| == n && forall i :: 0 <= i < n ==> s[i] == ' '
  {
    seq(n, i => ' ')
  }

  /** Text without a line break. */
  predicate OneLine(s: string)
  {
    forall i :: 0 <= i < |s| ==> s[i] != '\n'
  }

  /** The text of a file written line by line, each line ended by `std::endl`. */
  function FileText(ls: seq<string>): string
  {
    if |ls| == 0 then [] else ls[0] + "\n" + FileText(ls[1..])
  }

  /** Each line with its newline, as `fgets` hands it back. */
  function Terminated(ls: seq<string>): (r: seq<string>)
    ensures |r| == |ls|
    ensures forall i :: 0 <= i < |ls| ==> r[i] == ls[i] + "\n"
  {
    seq(|ls|, i requires 0 <= i < |ls| => ls[i] + "\n")
  }

  /** No line holds a line break. */
  predicate AllOneLine(ls: seq<string>)
  {
    forall k :: 0 <= k < |ls| ==> OneLine(ls[k])
  }

  lemma AllOneLineAppend(a: seq<string>, b: seq<string>)
    requires AllOneLine(a) && AllOneLine(b)
    ensures AllOneLine(a + b)
  {
    assert forall k :: |a| <= k < |a + b| ==> (a + b)[k] == b[k - |a|];
  }

  lemma TerminatedAppend(a: seq<string>, b: seq<string>)
    ensures Terminated(a + b) == Terminated(a) + Terminated(b)
  {
  }

  /** Reading a written file back line by line gives the written lines, each with its
      newline. */
  lemma {:induction false} LinesOfFileText(ls: seq<string>)
    requires AllOneLine(ls)
    ensures Lines(FileText(ls)) == Terminated(ls)
    decreases |ls|
  {
    if |ls| > 0 {
      LinesOfFileText(ls[1..]);
      LinesCons(ls[0], FileText(ls[1..]));
      assert Terminated(ls) == [ls[0] + "\n"] + Terminated(ls[1..]);
    }
  }

  /** The step of every "one line per triple" writer: a line for the first triple
      followed by the lines of the remaining triples is the line list of the whole
      buffer. */
  lemma TriplesCons<T>(ts: seq<T>, f: (T, T, T) -> string, rest: seq<string>, ls: seq<string>)
    requires |ts| >= 3
    requires |rest| == |ts[3..]| / 3
    requires forall i :: 0 <= i < |rest| ==> rest[i] == f(ts[3..][3 * i], ts[3..][3 * i + 1], ts[3..][3 * i + 2])
    requires ls == [f(ts[0], ts[1], ts[2])] + rest
    ensures |ls| == |ts| / 3
    ensures forall i :: 0 <= i < |ls| ==> ls[i] == f(ts[3 * i], ts[3 * i + 1], ts[3 * i + 2])
  {
    forall i | 0 <= i < |ls| ensures ls[i] == f(ts[3 * i], ts[3 * i + 1], ts[3 * i + 2]) {
      if i > 0 {
        assert ls[i] == rest[i - 1];
        assert ts[3..][3 * (i - 1)] == ts[3 * i];
        assert ts[3..][3 * (i - 1) + 1] == ts[3 * i + 1];
        assert ts[3..][3 * (i - 1) + 2] == ts[3 * i + 2];
      }
    }
  }

  // ---------------------------------------------------------------------------
  // SaveOBJ
  // ---------------------------------------------------------------------------

  /** Three coordinates in fixed notation, separated by single spaces. */
  function Fixed3(lib: FloatLib, x: real, y: real, z: real): string
  {
    lib.fixed6(x) + " " + lib.fixed6(y) + " " + lib.fixed6(z)
  }

  function ObjVertexLine(lib: FloatLib, x: real, y: real, z: real): string
  {
    "v " + Fixed3(lib, x, y, z)
  }

  /** A face line: the three indices shifted by the vertex offset, each followed by a
      space (so the line ends in a space). */
  function ObjFaceLine(a: int, b: int, c: int, offset: int): string
  {
    "f " + IntToString(a + offset) + " " + IntToString(b + offset) + " " + IntToString(c + offset) + " "
  }

  /** One vertex line per whole coordinate triple, in buffer order. */
  function ObjVertexLines(lib: FloatLib, pts: seq<real>): (ls: seq<string>)
    ensures |ls| == |pts| / 3
    ensures forall i :: 0 <= i < |ls| ==> ls[i] == ObjVertexLine(lib, pts[3 * i], pts[3 * i + 1], pts[3 * i + 2])
    decreases |pts|
  {
    if |pts| < 3 then []
    else
      var rest := ObjVertexLines(lib, pts[3..]);
      var ls := [ObjVertexLine(lib, pts[0], pts[1], pts[2])] + rest;
      TriplesCons(pts, (a, b, c) => ObjVertexLine(lib, a, b, c), rest, ls);
      ls
  }

  /** One face line per whole index triple, in buffer order. */
  function ObjFaceLines(ts: seq<int>, offset: int): (ls: seq<string>)
    ensures |ls| == |ts| / 3
    ensures forall i :: 0 <= i < |ls| ==> ls[i] == ObjFaceLine(ts[3 * i], ts[3 * i + 1], ts[3 * i + 2], offset)
    decreases |ts|
  {
    if |ts| < 3 then []
    else
      var rest := ObjFaceLines(ts[3..], offset);
      var ls := [ObjFaceLine(ts[0], ts[1], ts[2], offset)] + rest;
      TriplesCons(ts, (a, b, c) => ObjFaceLine(a, b, c, offset), rest, ls);
      ls
  }

  /** `SaveOBJ` on an open stream: an object line naming the part, the hull's vertices,
      then its triangles with every index shifted by `offset`. */
  function SaveObj(lib: FloatLib, h: ConvexHull, part: nat, offset: int): (ls: seq<string>)
    ensures |ls| == 1 + NPoints(h) + NTriangles(h)
    ensures ls[0] == "o convex_" + NatToString(part)
    ensures forall i :: 0 <= i < NPoints(h) ==>
      ls[1 + i] == ObjVertexLine(lib, h.points[3 * i], h.points[3 * i + 1], h.points[3 * i + 2])
    ensures forall i :: 0 <= i < NTriangles(h) ==>
      ls[1 + NPoints(h) + i] == ObjFaceLine(h.triangles[3 * i], h.triangles[3 * i + 1], h.triangles[3 * i + 2], offset)
  {
    var ls := ["o convex_" + NatToString(part)] + ObjVertexLines(lib, h.points) + ObjFaceLines(h.triangles, offset);
    ObjLayout(lib, h, part, offset, ls);
    ls
  }

  lemma ObjLayout(lib: FloatLib, h: ConvexHull, part: nat, offset: int, ls: seq<string>)
    requires ls == ["o convex_" + NatToString(part)] + ObjVertexLines(lib, h.points) + ObjFaceLines(h.triangles, offset)
    ensures |ls| == 1 + NPoints(h) + NTriangles(h)
    ensures ls[0] == "o convex_" + NatToString(part)
    ensures forall i :: 0 <= i < NPoints(h) ==>
      ls[1 + i] == ObjVertexLine(lib, h.points[3 * i], h.points[3 * i + 1], h.points[3 * i + 2])
    ensures forall i :: 0 <= i < NTriangles(h) ==>
      ls[1 + NPoints(h) + i] == ObjFaceLine(h.triangles[3 * i], h.triangles[3 * i + 1], h.triangles[3 * i + 2], offset)
  {
    hide ObjVertexLine, ObjFaceLine, OffPointLine, OffFaceLine, VrmlPointLine, VrmlIndexLine, ColorLine, ValueLine, Fixed3, Pad, NatToString, IntToString, CoordOpen, IndexOpen;
    var vl := ObjVertexLines(lib, h.points);
    var fl := ObjFaceLines(h.triangles, offset);
    Seqs.Concat3(["o convex_" + NatToString(part)], vl, fl, ls);
  }

  // ---------------------------------------------------------------------------
  // SaveOFF
  // ---------------------------------------------------------------------------

  function OffPointLine(lib: FloatLib, x: real, y: real, z: real): string
  {
    lib.general6(x) + " " + lib.general6(y) + " " + lib.general6(z)
  }

  /** Every face is written as a triangle: its size 3, then the indices unshifted. */
  function OffFaceLine(a: int, b: int, c: int): string
  {
    "3 " + IntToString(a) + " " + IntToString(b) + " " + IntToString(c)
  }

  function OffPointLines(lib: FloatLib, pts: seq<real>): (ls: seq<string>)
    ensures |ls| == |pts| / 3
    ensures forall i :: 0 <= i < |ls| ==> ls[i] == OffPointLine(lib, pts[3 * i], pts[3 * i + 1], pts[3 * i + 2])
    decreases |pts|
  {
    if |pts| < 3 then []
    else
      var rest := OffPointLines(lib, pts[3..]);
      var ls := [OffPointLine(lib, pts[0], pts[1], pts[2])] + rest;
      TriplesCons(pts, (a, b, c) => OffPointLine(lib, a, b, c), rest, ls);
      ls
  }

  function OffFaceLines(ts: seq<int>): (ls: seq<string>)
    ensures |ls| == |ts| / 3
    ensures forall i :: 0 <= i < |ls| ==> ls[i] == OffFaceLine(ts[3 * i], ts[3 * i + 1], ts[3 * i + 2])
    decreases |ts|
  {
    if |ts| < 3 then []
    else
      var rest := OffFaceLines(ts[3..]);
      var ls := [OffFaceLine(ts[0], ts[1], ts[2])] + rest;
      TriplesCons(ts, (a, b, c) => OffFaceLine(a, b, c), rest, ls);
      ls
  }

  /** `SaveOFF` on a file that opened: the magic word, the counts line with zero edges,
      the vertices, then the triangles. */
  function SaveOff(lib: FloatLib, m: Mesh): (ls: seq<string>)
    ensures |ls| == 2 + NPoints(m) + NTriangles(m)
    ensures ls[0] == "OFF"
    ensures ls[1] == NatToString(NPoints(m)) + " " + NatToString(NTriangles(m)) + " 0"
    ensures forall i :: 0 <= i < NPoints(m) ==>
      ls[2 + i] == OffPointLine(lib, m.points[3 * i], m.points[3 * i + 1], m.points[3 * i + 2])
    ensures forall i :: 0 <= i < NTriangles(m) ==>
      ls[2 + NPoints(m) + i] == OffFaceLine(m.triangles[3 * i], m.triangles[3 * i + 1], m.triangles[3 * i + 2])
  {
    var ls := ["OFF", NatToString(NPoints(m)) + " " + NatToString(NTriangles(m)) + " 0"] + OffPointLines(lib, m.points) + OffFaceLines(m.triangles);
    OffLayout(lib, m, ls);
    ls
  }

  lemma OffLayout(lib: FloatLib, m: Mesh, ls: seq<string>)
    requires ls == ["OFF", NatToString(NPoints(m)) + " " + NatToString(NTriangles(m)) + " 0"] + OffPointLines(lib, m.points) + OffFaceLines(m.triangles)
    ensures |ls| == 2 + NPoints(m) + NTriangles(m)
    ensures ls[0] == "OFF"
    ensures ls[1] == NatToString(NPoints(m)) + " " + NatToString(NTriangles(m)) + " 0"
    ensures forall i :: 0 <= i < NPoints(m) ==>
      ls[2 + i] == OffPointLine(lib, m.points[3 * i], m.points[3 * i + 1], m.points[3 * i + 2])
    ensures forall i :: 0 <= i < NTriangles(m) ==>
      ls[2 + NPoints(m) + i] == OffFaceLine(m.triangles[3 * i], m.triangles[3 * i + 1], m.triangles[3 * i + 2])
  {
    hide ObjVertexLine, ObjFaceLine, OffPointLine, OffFaceLine, VrmlPointLine, VrmlIndexLine, ColorLine, ValueLine, Fixed3, Pad, NatToString, IntToString, CoordOpen, IndexOpen;
    var pl := OffPointLines(lib, m.points);
    var fl := OffFaceLines(m.triangles);
    Seqs.Concat3(["OFF", NatToString(NPoints(m)) + " " + NatToString(NTriangles(m)) + " 0"], pl, fl, ls);
  }

  // ---------------------------------------------------------------------------
  // SaveVRML2
  // ---------------------------------------------------------------------------

  function ColorLine(lib: FloatLib, name: string, c: Rgb): string
  {
    Pad(20) + name + " " + Fixed3(lib, c.r, c.g, c.b)
  }

  function ValueLine(lib: FloatLib, name: string, x: real): string
  {
    Pad(20) + name + " " + lib.fixed6(x)
  }

  /** Everything before the geometry's coordinates: the file header with the counts, the
      shape's material, and the opening of the face set. */
  function VrmlHeader(lib: FloatLib, nPoints: nat, nTriangles: nat, mat: Material): (ls: seq<string>)
    ensures |ls| == 22
    ensures ls[0] == "#VRML V2.0 utf8"
    ensures ls[2] == "# Vertices: " + NatToString(nPoints) && ls[3] == "# Triangles: " + NatToString(nTriangles)
    ensures ls[10] == ColorLine(lib, "diffuseColor", mat.diffuse)
  {
    hide ObjVertexLine, ObjFaceLine, OffPointLine, OffFaceLine, VrmlPointLine, VrmlIndexLine, ColorLine, ValueLine, Fixed3, Pad, NatToString, IntToString, CoordOpen, IndexOpen;
    [ "#VRML V2.0 utf8",
      "",
      "# Vertices: " + NatToString(nPoints),
      "# Triangles: " + NatToString(nTriangles),
      "",
      "Group {",
      Pad(4) + "children [",
      Pad(8) + "Shape {",
      Pad(12) + "appearance Appearance {",
      Pad(16) + "material Material {",
      ColorLine(lib, "diffuseColor", mat.diffuse),
      ValueLine(lib, "ambientIntensity", mat.ambient),
      ColorLine(lib, "specularColor", mat.specular),
      ColorLine(lib, "emissiveColor", mat.emissive),
      ValueLine(lib, "shininess", mat.shininess),
      ValueLine(lib, "transparency", mat.transparency),
      Pad(16) + "}",
      Pad(12) + "}",
      Pad(12) + "geometry IndexedFaceSet {",
      Pad(16) + "ccw TRUE",
      Pad(16) + "solid TRUE",
      Pad(16) + "convex TRUE" ]
  }

  /** The line that opens the coordinate block. */
  function CoordOpen(): string
  {
    Pad(16) + "coord DEF co Coordinate {"
  }

  /** The line that opens the index block (it ends in a space). */
  function IndexOpen(): string
  {
    Pad(16) + "coordIndex [ "
  }

  /** The closing of the face set, the shape, the children list and the group. */
  function VrmlFooter(): (ls: seq<string>)
    ensures |ls| == 4
  {
    [Pad(12) + "}", Pad(8) + "}", Pad(4) + "]", "}"]
  }

  function VrmlPointLine(lib: FloatLib, x: real, y: real, z: real): string
  {
    Pad(24) + Fixed3(lib, x, y, z) + ","
  }

  /** A triangle of the index block: the three indices as stored, then the `-1` that
      ends a face in VRML. */
  function VrmlIndexLine(a: int, b: int, c: int): string
  {
    Pad(24) + IntToString(a) + ", " + IntToString(b) + ", " + IntToString(c) + ", -1,"
  }

  function VrmlPointLines(lib: FloatLib, pts: seq<real>): (ls: seq<string>)
    ensures |ls| == |pts| / 3
    ensures forall i :: 0 <= i < |ls| ==> ls[i] == VrmlPointLine(lib, pts[3 * i], pts[3 * i + 1], pts[3 * i + 2])
    decreases |pts|
  {
    if |pts| < 3 then []
    else
      var rest := VrmlPointLines(lib, pts[3..]);
      var ls := [VrmlPointLine(lib, pts[0], pts[1], pts[2])] + rest;
      TriplesCons(pts, (a, b, c) => VrmlPointLine(lib, a, b, c), rest, ls);
      ls
  }

  function VrmlIndexLines(ts: seq<int>): (ls: seq<string>)
    ensures |ls| == |ts| / 3
    ensures forall i :: 0 <= i < |ls| ==> ls[i] == VrmlIndexLine(ts[3 * i], ts[3 * i + 1], ts[3 * i + 2])
    decreases |ts|
  {
    if |ts| < 3 then []
    else
      var rest := VrmlIndexLines(ts[3..]);
      var ls := [VrmlIndexLine(ts[0], ts[1], ts[2])] + rest;
      TriplesCons(ts, (a, b, c) => VrmlIndexLine(a, b, c), rest, ls);
      ls
  }

  /** The coordinate block, written only when the hull has a vertex. */
  function CoordBlock(lib: FloatLib, h: ConvexHull): (ls: seq<string>)
    ensures |ls| == if NPoints(h) > 0 then NPoints(h) + 4 else 0
    ensures NPoints(h) > 0 ==> ls[0] == CoordOpen()
    ensures forall i :: 0 <= i < NPoints(h) ==>
      ls[2 + i] == VrmlPointLine(lib, h.points[3 * i], h.points[3 * i + 1], h.points[3 * i + 2])
  {
    hide ObjVertexLine, ObjFaceLine, OffPointLine, OffFaceLine, VrmlPointLine, VrmlIndexLine, ColorLine, ValueLine, Fixed3, Pad, NatToString, IntToString, CoordOpen, IndexOpen;
    if NPoints(h) > 0 then
      var pl := VrmlPointLines(lib, h.points);
      var ls := [CoordOpen(), Pad(20) + "point ["] + pl + [Pad(20) + "]", Pad(16) + "}"];
      assert forall i :: 0 <= i < |pl| ==> ls[2 + i] == pl[i];
      ls
    else []
  }

  /** The index block, written only when the hull has a triangle. */
  function IndexBlock(h: ConvexHull): (ls: seq<string>)
    ensures |ls| == if NTriangles(h) > 0 then NTriangles(h) + 2 else 0
    ensures NTriangles(h) > 0 ==> ls[0] == IndexOpen()
    ensures forall i :: 0 <= i < NTriangles(h) ==>
      ls[1 + i] == VrmlIndexLine(h.triangles[3 * i], h.triangles[3 * i + 1], h.triangles[3 * i + 2])
  {
    hide ObjVertexLine, ObjFaceLine, OffPointLine, OffFaceLine, VrmlPointLine, VrmlIndexLine, ColorLine, ValueLine, Fixed3, Pad, NatToString, IntToString, CoordOpen, IndexOpen;
    if NTriangles(h) > 0 then
      var il := VrmlIndexLines(h.triangles);
      var ls := [IndexOpen()] + il + [Pad(16) + "]"];
      assert forall i :: 0 <= i < |il| ==> ls[1 + i] == il[i];
      ls
    else []
  }

  /** Where the index block starts in a VRML file. */
  function IndexStart(h: ConvexHull): nat
  {
    22 + if NPoints(h) > 0 then NPoints(h) + 4 else 0
  }

  /** `SaveVRML2` on an open stream: one complete VRML file holding one shape. */
  function SaveVrml2(lib: FloatLib, h: ConvexHull, mat: Material): (ls: seq<string>)
    ensures |ls| == IndexStart(h) + (if NTriangles(h) > 0 then NTriangles(h) + 2 else 0) + 4
    ensures ls[..22] == VrmlHeader(lib, NPoints(h), NTriangles(h), mat)
    ensures NPoints(h) > 0 ==> ls[22] == CoordOpen()
    ensures forall i :: 0 <= i < NPoints(h) ==>
      ls[24 + i] == VrmlPointLine(lib, h.points[3 * i], h.points[3 * i + 1], h.points[3 * i + 2])
    ensures NTriangles(h) > 0 ==> ls[IndexStart(h)] == IndexOpen()
    ensures forall i :: 0 <= i < NTriangles(h) ==>
      ls[IndexStart(h) + 1 + i] == VrmlIndexLine(h.triangles[3 * i], h.triangles[3 * i + 1], h.triangles[3 * i + 2])
    ensures ls[|ls| - 4..] == VrmlFooter()
  {
    var ls := VrmlHeader(lib, NPoints(h), NTriangles(h), mat) + CoordBlock(lib, h) + IndexBlock(h) + VrmlFooter();
    VrmlLayout(lib, h, mat, ls);
    ls
  }

  /** Where the header, the two blocks and the footer sit in a VRML file. */
  lemma VrmlLayout(lib: FloatLib, h: ConvexHull, mat: Material, ls: seq<string>)
    requires ls == VrmlHeader(lib, NPoints(h), NTriangles(h), mat) + CoordBlock(lib, h) + IndexBlock(h) + VrmlFooter()
    ensures |ls| == IndexStart(h) + (if NTriangles(h) > 0 then NTriangles(h) + 2 else 0) + 4
    ensures ls[..22] == VrmlHeader(lib, NPoints(h), NTriangles(h), mat)
    ensures NPoints(h) > 0 ==> ls[22] == CoordOpen()
    ensures forall i :: 0 <= i < NPoints(h) ==>
      ls[24 + i] == VrmlPointLine(lib, h.points[3 * i], h.points[3 * i + 1], h.points[3 * i + 2])
    ensures NTriangles(h) > 0 ==> ls[IndexStart(h)] == IndexOpen()
    ensures forall i :: 0 <= i < NTriangles(h) ==>
      ls[IndexStart(h) + 1 + i] == VrmlIndexLine(h.triangles[3 * i], h.triangles[3 * i + 1], h.triangles[3 * i + 2])
    ensures ls[|ls| - 4..] == VrmlFooter()
  {
    hide ObjVertexLine, ObjFaceLine, OffPointLine, OffFaceLine, VrmlPointLine, VrmlIndexLine, ColorLine, ValueLine, Fixed3, Pad, NatToString, IntToString, CoordOpen, IndexOpen, VrmlHeader, CoordBlock, IndexBlock, VrmlFooter;
    var hd := VrmlHeader(lib, NPoints(h), NTriangles(h), mat);
    var cb := CoordBlock(lib, h);
    var ib := IndexBlock(h);
    Seqs.Concat4(hd, cb, ib, VrmlFooter(), ls);
  }
}
