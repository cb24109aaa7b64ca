/** What `LoadOBJ` reads back from a file `SaveOBJ` wrote: the hull's coordinates as
    fixed notation prints them, and its triangles with the vertex offset applied and
    the OBJ numbering from 1 undone. */
module ObjReadBack {

  import opened Options
  import opened Text
  import opened Meshes
  import opened ObjReader
  import opened Writers

  /** A coordinate printed in fixed notation and converted back. */
  function Refixed(lib: FloatLib, x: real): real
  {
    WordValue(lib, lib.fixed6(x))
  }

  /** The whole coordinate triples of a buffer, each printed and read back. */
  function RefixedTriples(lib: FloatLib, pts: seq<real>): (r: seq<real>)
    ensures |r| == 3 * (|pts| / 3)
    ensures forall i :: 0 <= i < |r| ==> r[i] == Refixed(lib, pts[i])
    decreases |pts|
  {
    if |pts| < 3 then []
    else
      var rest := RefixedTriples(lib, pts[3..]);
      var r := [Refixed(lib, pts[0]), Refixed(lib, pts[1]), Refixed(lib, pts[2])] + rest;
      assert forall i :: 3 <= i < |r| ==> r[i] == rest[i - 3];
      r
  }

  /** The whole index triples of a buffer, each index moved by `d`. */
  function ShiftTriples(ts: seq<int>, d: int): (r: seq<int>)
    ensures |r| == 3 * (|ts| / 3)
    ensures forall i :: 0 <= i < |r| ==> r[i] == ts[i] + d
    decreases |ts|
  {
    if |ts| < 3 then []
    else
      var rest := ShiftTriples(ts[3..], d);
      var r := [ts[0] + d, ts[1] + d, ts[2] + d] + rest;
      assert forall i :: 3 <= i < |r| ==> r[i] == rest[i - 3];
      r
  }

  // ---------------------------------------------------------------------------
  // One line at a time
  // ---------------------------------------------------------------------------

  /** `atof` on a printed number followed by white space or nothing reads the number. */
  lemma AtofOfWord(lib: FloatLib, w: string, tail: string)
    requires IsWord(w)
    requires |tail| == 0 || IsSpace(tail[0])
    ensures Atof(lib, w + tail) == WordValue(lib, w)
  {
    var s := w + tail;
    assert DropSpaces(s) == s;
    if |tail| == 0 {
      assert s == w;
      RunLengthOfRun(w, IsSpace);
    } else {
      RunLengthPrefix(w, tail, IsSpace);
    }
    assert s[..|w|] == w;
  }

  /** A word has no `strtok` delimiter in it. */
  lemma WordHasNoBlank(w: string)
    requires forall i :: 0 <= i < |w| ==> !IsSpace(w[i])
    ensures forall i :: 0 <= i < |w| ==> !IsBlank(w[i])
  {
  }

  /** Three words separated by single spaces, the last followed by blank-free text,
      are three `strtok` tokens. */
  lemma StrtokThree(w1: string, w2: string, w3: string, tail: string)
    requires |w1| > 0 && |w2| > 0 && |w3| > 0
    requires forall i :: 0 <= i < |w1| ==> !IsSpace(w1[i])
    requires forall i :: 0 <= i < |w2| ==> !IsSpace(w2[i])
    requires forall i :: 0 <= i < |w3| ==> !IsSpace(w3[i])
    requires forall i :: 0 <= i < |tail| ==> !IsBlank(tail[i])
    ensures Strtok(w1 + " " + w2 + " " + w3 + tail) == [w1, w2, w3 + tail]
  {
    hide Split;
    var last := w3 + tail;
    assert w1 + " " + w2 + " " + w3 + tail == w1 + [' '] + (w2 + [' '] + last);
    SplitCons(w1, ' ', w2 + [' '] + last, IsBlank);
    SplitCons(w2, ' ', last, IsBlank);
    SplitOfRun(last, IsBlank);
  }

  /** A vertex line of three printed numbers reads as a vertex of their values. */
  lemma ParseVertexWords(lib: FloatLib, wx: string, wy: string, wz: string)
    requires IsWord(wx) && IsWord(wy) && IsWord(wz)
    ensures ParseLine("v " + wx + " " + wy + " " + wz + "\n", lib)
      == Vertex(WordValue(lib, wx), WordValue(lib, wy), WordValue(lib, wz))
  {
    var t := wx + " " + wy + " " + wz + "\n";
    var line := "v " + wx + " " + wy + " " + wz + "\n";
    assert line == "v " + t;
    assert line[2..] == t;
    StrtokThree(wx, wy, wz, "\n");
    AtofOfWord(lib, wx, "");
    AtofOfWord(lib, wy, "");
    AtofOfWord(lib, wz, "\n");
    assert wx + "" == wx && wy + "" == wy;
  }

  /** A vertex line reads back as a vertex whose coordinates are the printed ones. */
  lemma ParseObjVertexLine(lib: FloatLib, x: real, y: real, z: real)
    requires Coherent(lib)
    ensures ParseLine(ObjVertexLine(lib, x, y, z) + "\n", lib) == Vertex(Refixed(lib, x), Refixed(lib, y), Refixed(lib, z))
  {
    var wx, wy, wz := lib.fixed6(x), lib.fixed6(y), lib.fixed6(z);
    assert IsWord(wx) && IsWord(wy) && IsWord(wz);
    hide Coherent, IsWord, ParseLine;
    assert ObjVertexLine(lib, x, y, z) + "\n" == "v " + wx + " " + wy + " " + wz + "\n";
    ParseVertexWords(lib, wx, wy, wz);
  }

  /** The tokens of a face line: the three numbers, then the newline. */
  lemma StrtokFace(wa: string, wb: string, wc: string)
    requires |wa| > 0 && |wb| > 0 && |wc| > 0
    requires forall i :: 0 <= i < |wa| ==> !IsSpace(wa[i])
    requires forall i :: 0 <= i < |wb| ==> !IsSpace(wb[i])
    requires forall i :: 0 <= i < |wc| ==> !IsSpace(wc[i])
    ensures Strtok(wa + " " + wb + " " + wc + " \n") == [wa, wb, wc, "\n"]
  {
    hide Split;
    var last := wc + [' '] + "\n";
    assert wa + " " + wb + " " + wc + " \n" == wa + [' '] + (wb + [' '] + last);
    SplitCons(wa, ' ', wb + [' '] + last, IsBlank);
    SplitCons(wb, ' ', last, IsBlank);
    SplitCons(wc, ' ', "\n", IsBlank);
    SplitOfRun("\n", IsBlank);
  }

  /** The face loop stops at the newline token. */
  lemma FaceTokensOfLine(wa: string, wb: string, wc: string)
    requires !StartsNewline(wa) && !StartsNewline(wb) && !StartsNewline(wc)
    ensures FaceTokens([wa, wb, wc, "\n"]) == [wa, wb, wc]
  {
    var toks := [wa, wb, wc, "\n"];
    assert FaceTokens(toks[3..]) == [];
    assert FaceTokens(toks[2..]) == [wc] + FaceTokens(toks[3..]);
    assert FaceTokens(toks[1..]) == [wb] + FaceTokens(toks[2..]);
  }

  /** A face line of three integer words reads as the face of their values less one. */
  lemma ParseFaceWords(lib: FloatLib, wa: string, wb: string, wc: string)
    requires |wa| > 0 && |wb| > 0 && |wc| > 0
    requires forall i :: 0 <= i < |wa| ==> !IsSpace(wa[i])
    requires forall i :: 0 <= i < |wb| ==> !IsSpace(wb[i])
    requires forall i :: 0 <= i < |wc| ==> !IsSpace(wc[i])
    ensures ParseLine("f " + wa + " " + wb + " " + wc + " \n", lib) == Face([Atoi(wa) - 1, Atoi(wb) - 1, Atoi(wc) - 1])
  {
    hide ParseLine, Strtok, FaceTokens, Atoi, Split, Indices;
    var t := wa + " " + wb + " " + wc + " \n";
    var line := "f " + wa + " " + wb + " " + wc + " \n";
    assert line == "f " + t;
    assert IsFaceLine(line) && AfterTag(line) == t;
    StrtokFace(wa, wb, wc);
    FaceTokensOfLine(wa, wb, wc);
    assert Indices([wa, wb, wc]) == [Atoi(wa) - 1, Atoi(wb) - 1, Atoi(wc) - 1];
  }

  /** A face line reads back as a triangle whose indices are the written ones less one. */
  lemma ParseObjFaceLine(lib: FloatLib, a: int, b: int, c: int, offset: int)
    ensures ParseLine(ObjFaceLine(a, b, c, offset) + "\n", lib) == Face([a + (offset - 1), b + (offset - 1), c + (offset - 1)])
  {
    hide *;
    var wa, wb, wc := IntToString(a + offset), IntToString(b + offset), IntToString(c + offset);
    ObjFaceLineText(a, b, c, offset);
    ParseFaceWords(lib, wa, wb, wc);
    AtoiOfIntToString(a + offset);
    AtoiOfIntToString(b + offset);
    AtoiOfIntToString(c + offset);
  }

  lemma ObjFaceLineText(a: int, b: int, c: int, offset: int)
    ensures ObjFaceLine(a, b, c, offset) + "\n"
      == "f " + IntToString(a + offset) + " " + IntToString(b + offset) + " " + IntToString(c + offset) + " \n"
  {
    hide IntToString;
  }

  /** The object line is ignored by the reader. */
  lemma ParseObjNameLine(lib: FloatLib, part: nat)
    ensures ParseLine("o convex_" + NatToString(part) + "\n", lib) == Ignored
  {
  }

  /** The object line alone loads as an empty mesh. */
  lemma LoadNameLine(lib: FloatLib, part: nat)
    ensures LoadObj(Terminated(["o convex_" + NatToString(part)]), lib) == Success(Mesh([], []))
  {
    var th := Terminated(["o convex_" + NatToString(part)]);
    ParseObjNameLine(lib, part);
    assert th[1..] == [];
  }

  lemma VertexLineIsOneLine(lib: FloatLib, x: real, y: real, z: real)
    requires Coherent(lib)
    ensures OneLine(ObjVertexLine(lib, x, y, z))
  {
    assert IsWord(lib.fixed6(x)) && IsWord(lib.fixed6(y)) && IsWord(lib.fixed6(z));
  }

  lemma FaceLineIsOneLine(a: int, b: int, c: int, offset: int)
    ensures OneLine(ObjFaceLine(a, b, c, offset))
  {
  }

  // ---------------------------------------------------------------------------
  // Whole files
  // ---------------------------------------------------------------------------

  /** A line that is not a short vertex line adds its contribution in front of what
      the rest of the file loads as. */
  lemma LoadObjCons(l: string, rest: seq<string>, lib: FloatLib, m: Mesh)
    requires !ParseLine(l, lib).ShortVertex?
    requires LoadObj(rest, lib) == Success(m)
    ensures LoadObj([l] + rest, lib) == Success(Concat(Contribution(ParseLine(l, lib)), m))
  {
    assert ([l] + rest)[0] == l && ([l] + rest)[1..] == rest;
  }

  lemma VertexLinesCons(lib: FloatLib, pts: seq<real>)
    requires |pts| >= 3
    ensures Terminated(ObjVertexLines(lib, pts))
      == [ObjVertexLine(lib, pts[0], pts[1], pts[2]) + "\n"] + Terminated(ObjVertexLines(lib, pts[3..]))
  {
    hide ObjVertexLine;
  }

  lemma FaceLinesCons(ts: seq<int>, offset: int)
    requires |ts| >= 3
    ensures Terminated(ObjFaceLines(ts, offset))
      == [ObjFaceLine(ts[0], ts[1], ts[2], offset) + "\n"] + Terminated(ObjFaceLines(ts[3..], offset))
  {
    hide ObjFaceLine;
  }

  lemma RefixedTriplesCons(lib: FloatLib, pts: seq<real>)
    requires |pts| >= 3
    ensures RefixedTriples(lib, pts) == [Refixed(lib, pts[0]), Refixed(lib, pts[1]), Refixed(lib, pts[2])] + RefixedTriples(lib, pts[3..])
  {
  }

  lemma ShiftTriplesCons(ts: seq<int>, d: int)
    requires |ts| >= 3
    ensures ShiftTriples(ts, d) == [ts[0] + d, ts[1] + d, ts[2] + d] + ShiftTriples(ts[3..], d)
  {
  }

  /** Buffers too short for a triple write no line and read back as nothing. */
  lemma LinesNil(lib: FloatLib, pts: seq<real>, ts: seq<int>, offset: int)
    requires |pts| < 3 && |ts| < 3
    ensures LoadObj(Terminated(ObjVertexLines(lib, pts)), lib) == Success(Mesh([], []))
    ensures LoadObj(Terminated(ObjFaceLines(ts, offset)), lib) == Success(Mesh([], []))
    ensures RefixedTriples(lib, pts) == [] && ShiftTriples(ts, offset - 1) == []
  {
    assert Terminated(ObjVertexLines(lib, pts)) == [];
    assert Terminated(ObjFaceLines(ts, offset)) == [];
  }

  lemma FaceContribution(a: int, b: int, c: int, xs: seq<int>)
    ensures Concat(Contribution(Face([a, b, c])), Mesh([], xs)) == Mesh([], [a, b, c] + xs)
  {
  }

  /** The vertex lines of a buffer load as the buffer's whole triples, reprinted. */
  lemma {:induction false} LoadVertexLines(lib: FloatLib, pts: seq<real>)
    requires Coherent(lib)
    ensures LoadObj(Terminated(ObjVertexLines(lib, pts)), lib) == Success(Mesh(RefixedTriples(lib, pts), []))
    decreases |pts|
  {
    hide ParseLine, ObjVertexLine, ObjVertexLines, Terminated, RefixedTriples, LoadObj;
    if |pts| >= 3 {
      var l0 := ObjVertexLine(lib, pts[0], pts[1], pts[2]) + "\n";
      VertexLinesCons(lib, pts);
      ParseObjVertexLine(lib, pts[0], pts[1], pts[2]);
      LoadVertexLines(lib, pts[3..]);
      var m := Mesh(RefixedTriples(lib, pts[3..]), []);
      LoadObjCons(l0, Terminated(ObjVertexLines(lib, pts[3..])), lib, m);
      RefixedTriplesCons(lib, pts);
    } else {
      LinesNil(lib, pts, [], 0);
    }
  }

  /** The face lines of a buffer load as its whole triples, moved by `offset - 1`. */
  lemma {:induction false} LoadFaceLines(lib: FloatLib, ts: seq<int>, offset: int)
    ensures LoadObj(Terminated(ObjFaceLines(ts, offset)), lib) == Success(Mesh([], ShiftTriples(ts, offset - 1)))
    decreases |ts|
  {
    hide *;
    if |ts| >= 3 {
      var l0 := ObjFaceLine(ts[0], ts[1], ts[2], offset) + "\n";
      FaceLinesCons(ts, offset);
      ParseObjFaceLine(lib, ts[0], ts[1], ts[2], offset);
      LoadFaceLines(lib, ts[3..], offset);
      var m := Mesh([], ShiftTriples(ts[3..], offset - 1));
      LoadObjCons(l0, Terminated(ObjFaceLines(ts[3..], offset)), lib, m);
      ShiftTriplesCons(ts, offset - 1);
      FaceContribution(ts[0] + (offset - 1), ts[1] + (offset - 1), ts[2] + (offset - 1), ShiftTriples(ts[3..], offset - 1));
    } else {
      LinesNil(lib, [], ts, offset);
    }
  }

  lemma VertexLinesOneLine(lib: FloatLib, pts: seq<real>)
    requires Coherent(lib)
    ensures AllOneLine(ObjVertexLines(lib, pts))
  {
    var ls := ObjVertexLines(lib, pts);
    forall k | 0 <= k < |ls|
      ensures OneLine(ls[k])
    {
      VertexLineIsOneLine(lib, pts[3 * k], pts[3 * k + 1], pts[3 * k + 2]);
    }
  }

  lemma FaceLinesOneLine(ts: seq<int>, offset: int)
    ensures AllOneLine(ObjFaceLines(ts, offset))
  {
    var ls := ObjFaceLines(ts, offset);
    forall k | 0 <= k < |ls|
      ensures OneLine(ls[k])
    {
      FaceLineIsOneLine(ts[3 * k], ts[3 * k + 1], ts[3 * k + 2], offset);
    }
  }

  /** The three parts `SaveOBJ` writes, one after the other. */
  lemma SaveObjParts(lib: FloatLib, h: ConvexHull, part: nat, offset: int)
    requires Coherent(lib)
    ensures SaveObj(lib, h, part, offset)
      == ["o convex_" + NatToString(part)] + ObjVertexLines(lib, h.points) + ObjFaceLines(h.triangles, offset)
    ensures AllOneLine(SaveObj(lib, h, part, offset))
  {
    var head := ["o convex_" + NatToString(part)];
    var vl := ObjVertexLines(lib, h.points);
    var fl := ObjFaceLines(h.triangles, offset);
    assert AllOneLine(head);
    VertexLinesOneLine(lib, h.points);
    FaceLinesOneLine(h.triangles, offset);
    AllOneLineAppend(head, vl);
    AllOneLineAppend(head + vl, fl);
  }

  /** The OBJ round trip: a file holding one hull written with vertex offset `offset`
      loads as the hull's whole coordinate triples, reprinted, and its whole index
      triples moved by `offset - 1`. With the offset 1 of per-hull files, the indices
      come back unchanged. */
  lemma SaveObjReadBack(lib: FloatLib, h: ConvexHull, part: nat, offset: int)
    requires Coherent(lib)
    ensures LoadObj(Lines(FileText(SaveObj(lib, h, part, offset))), lib)
      == Success(Mesh(RefixedTriples(lib, h.points), ShiftTriples(h.triangles, offset - 1)))
  {
    hide ParseLine, LoadObj, SaveObj, ObjVertexLines, ObjFaceLines, Terminated, RefixedTriples, ShiftTriples;
    var head := ["o convex_" + NatToString(part)];
    var vl := ObjVertexLines(lib, h.points);
    var fl := ObjFaceLines(h.triangles, offset);
    var ls := SaveObj(lib, h, part, offset);
    SaveObjParts(lib, h, part, offset);
    LinesOfFileText(ls);
    var th, tv, tf := Terminated(head), Terminated(vl), Terminated(fl);
    TerminatedAppend(head + vl, fl);
    TerminatedAppend(head, vl);
    LoadObjAppend(th + tv, tf, lib);
    LoadObjAppend(th, tv, lib);
    LoadNameLine(lib, part);
    LoadVertexLines(lib, h.points);
    LoadFaceLines(lib, h.triangles, offset);
    var pts, tris := RefixedTriples(lib, h.points), ShiftTriples(h.triangles, offset - 1);
    assert [] + pts == pts && pts + [] == pts;
    assert [] + tris == tris;
  }
}
