/** What `LoadOFF` reads back from a file `SaveOFF` wrote: the coordinates as the
    stream's default notation prints them, and the triangles unchanged. */
module OffReadBack {

  import opened Options
  import opened Text
  import opened Meshes
  import opened OffReader
  import opened Writers
  import Seqs

  /** A coordinate printed in the default notation and converted back. */
  function Regeneral(lib: FloatLib, x: real): real
  {
    WordValue(lib, lib.general6(x))
  }

  /** The words `SaveOFF` prints for the whole coordinate triples of a buffer. */
  function PointWords(lib: FloatLib, pts: seq<real>): (ws: seq<string>)
    ensures |ws| == 3 * (|pts| / 3)
    ensures forall i :: 0 <= i < |ws| ==> ws[i] == lib.general6(pts[i])
    decreases |pts|
  {
    if |pts| < 3 then []
    else
      var rest := PointWords(lib, pts[3..]);
      var ws := [lib.general6(pts[0]), lib.general6(pts[1]), lib.general6(pts[2])] + rest;
      assert forall i :: 3 <= i < |ws| ==> ws[i] == rest[i - 3];
      ws
  }

  /** The words `SaveOFF` prints for the whole index triples of a buffer. */
  function IndexWords(ts: seq<int>): (ws: seq<string>)
    ensures |ws| == 3 * (|ts| / 3)
    ensures forall i :: 0 <= i < |ws| ==> ws[i] == IntToString(ts[i])
    decreases |ts|
  {
    if |ts| < 3 then []
    else
      var rest := IndexWords(ts[3..]);
      var ws := [IntToString(ts[0]), IntToString(ts[1]), IntToString(ts[2])] + rest;
      Seqs.MapTriplesCons(ts, IntToString, rest, ws);
      ws
  }

  // ---------------------------------------------------------------------------
  // Words of the written text
  // ---------------------------------------------------------------------------

  /** Writing two groups of lines writes the text of one, then of the other. */
  lemma {:induction false} FileTextAppend(a: seq<string>, b: seq<string>)
    ensures FileText(a + b) == FileText(a) + FileText(b)
    decreases |a|
  {
    if |a| == 0 {
      assert a + b == b;
    } else {
      assert (a + b)[0] == a[0] && (a + b)[1..] == a[1..] + b;
      FileTextAppend(a[1..], b);
    }
  }

  /** A finished line's words come before the words of what follows it. */
  lemma WordsOfLineThen(l: string, rest: string)
    ensures Words(l + "\n" + rest) == Words(l + "\n") + Words(rest)
  {
    SplitAppend(l + "\n", rest, IsSpace);
  }

  /** A line of three words separated by single spaces. */
  lemma WordsOfLine3(w1: string, w2: string, w3: string)
    requires |w1| > 0 && |w2| > 0 && |w3| > 0
    requires forall i :: 0 <= i < |w1| ==> !IsSpace(w1[i])
    requires forall i :: 0 <= i < |w2| ==> !IsSpace(w2[i])
    requires forall i :: 0 <= i < |w3| ==> !IsSpace(w3[i])
    ensures Words(w1 + " " + w2 + " " + w3 + "\n") == [w1, w2, w3]
  {
    hide Split;
    var last := w3 + ['\n'];
    assert w1 + " " + w2 + " " + w3 + "\n" == w1 + [' '] + (w2 + [' '] + last);
    SplitCons(w1, ' ', w2 + [' '] + last, IsSpace);
    SplitCons(w2, ' ', last, IsSpace);
    SplitOfRunThenDelim(w3, '\n', IsSpace);
  }

  /** A face line: the size word, then the three index words. */
  lemma WordsOfFaceLine(a: int, b: int, c: int)
    ensures Words(OffFaceLine(a, b, c) + "\n") == ["3", IntToString(a), IntToString(b), IntToString(c)]
  {
    hide Split;
    var wa, wb, wc := IntToString(a), IntToString(b), IntToString(c);
    var tail := wa + " " + wb + " " + wc + "\n";
    assert OffFaceLine(a, b, c) + "\n" == "3" + [' '] + tail;
    SplitCons("3", ' ', tail, IsSpace);
    WordsOfLine3(wa, wb, wc);
  }

  lemma WordsOfPointLine(lib: FloatLib, x: real, y: real, z: real)
    requires Coherent(lib)
    ensures Words(OffPointLine(lib, x, y, z) + "\n") == [lib.general6(x), lib.general6(y), lib.general6(z)]
  {
    var wx, wy, wz := lib.general6(x), lib.general6(y), lib.general6(z);
    assert IsWord(wx) && IsWord(wy) && IsWord(wz);
    hide Coherent, IsWord;
    WordsOfLine3(wx, wy, wz);
  }

  lemma PointWordsCons(lib: FloatLib, pts: seq<real>)
    requires |pts| >= 3
    ensures PointWords(lib, pts) == [lib.general6(pts[0]), lib.general6(pts[1]), lib.general6(pts[2])] + PointWords(lib, pts[3..])
  {
  }

  lemma FaceWordsCons(ts: seq<int>)
    requires |ts| >= 3
    ensures FaceWords("3", IndexWords(ts))
      == ["3", IntToString(ts[0]), IntToString(ts[1]), IntToString(ts[2])] + FaceWords("3", IndexWords(ts[3..]))
  {
    var iw := IndexWords(ts);
    assert iw == [IntToString(ts[0]), IntToString(ts[1]), IntToString(ts[2])] + IndexWords(ts[3..]);
    assert iw[3..] == IndexWords(ts[3..]);
  }

  /** The file text of one line followed by more lines. */
  lemma FileTextCons(l: string, rest: seq<string>)
    ensures FileText([l] + rest) == l + "\n" + FileText(rest)
  {
    assert ([l] + rest)[0] == l && ([l] + rest)[1..] == rest;
  }

  /** A buffer too short for a triple prints no vertex line. */
  lemma PointsNil(lib: FloatLib, pts: seq<real>)
    requires |pts| < 3
    ensures Words(FileText(OffPointLines(lib, pts))) == [] && PointWords(lib, pts) == []
  {
  }

  /** A buffer too short for a triple prints no face line. */
  lemma FacesNil(ts: seq<int>)
    requires |ts| < 3
    ensures Words(FileText(OffFaceLines(ts))) == [] && FaceWords("3", IndexWords(ts)) == []
  {
  }

  /** The vertex lines print the coordinate words, three to a line. */
  lemma {:induction false} WordsOfPointLines(lib: FloatLib, pts: seq<real>)
    requires Coherent(lib)
    ensures Words(FileText(OffPointLines(lib, pts))) == PointWords(lib, pts)
    decreases |pts|
  {
    hide OffPointLine, PointWords, Words, FileText;
    if |pts| >= 3 {
      var l0 := OffPointLine(lib, pts[0], pts[1], pts[2]);
      var rest := OffPointLines(lib, pts[3..]);
      assert OffPointLines(lib, pts) == [l0] + rest;
      FileTextCons(l0, rest);
      WordsOfLineThen(l0, FileText(rest));
      WordsOfPointLine(lib, pts[0], pts[1], pts[2]);
      WordsOfPointLines(lib, pts[3..]);
      PointWordsCons(lib, pts);
    } else {
      PointsNil(lib, pts);
    }
  }

  /** The face lines print each triangle as the size word and its three index words. */
  lemma {:induction false} WordsOfFaceLines(ts: seq<int>)
    ensures Words(FileText(OffFaceLines(ts))) == FaceWords("3", IndexWords(ts))
    decreases |ts|
  {
    hide OffFaceLine, IndexWords, FaceWords, Words, FileText, IntToString;
    if |ts| >= 3 {
      var l0 := OffFaceLine(ts[0], ts[1], ts[2]);
      var rest := OffFaceLines(ts[3..]);
      assert OffFaceLines(ts) == [l0] + rest;
      FileTextCons(l0, rest);
      WordsOfLineThen(l0, FileText(rest));
      WordsOfFaceLine(ts[0], ts[1], ts[2]);
      WordsOfFaceLines(ts[3..]);
      FaceWordsCons(ts);
    } else {
      FacesNil(ts);
    }
  }

  /** Written text is empty or ends with a newline. */
  lemma FileTextEnds(ls: seq<string>)
    ensures |FileText(ls)| == 0 || FileText(ls)[|FileText(ls)| - 1] == '\n'
    decreases |ls|
  {
    if |ls| > 0 {
      FileTextEnds(ls[1..]);
    }
  }

  /** The words of two written groups of lines are the words of one, then of the other. */
  lemma WordsOfFileTextAppend(a: seq<string>, b: seq<string>)
    ensures Words(FileText(a + b)) == Words(FileText(a)) + Words(FileText(b))
  {
    FileTextAppend(a, b);
    FileTextEnds(a);
    SplitAppend(FileText(a), FileText(b), IsSpace);
  }

  /** The first two lines: the magic word, and the counts with zero edges. */
  lemma WordsOfOffHeader(np: nat, nt: nat, body: seq<string>)
    ensures Words(FileText(["OFF", NatToString(np) + " " + NatToString(nt) + " 0"] + body))
      == ["OFF", NatToString(np), NatToString(nt), "0"] + Words(FileText(body))
  {
    hide Split, NatToString, IntToString;
    var counts := NatToString(np) + " " + NatToString(nt) + " 0";
    WordsOfFileTextAppend(["OFF", counts], body);
    assert ["OFF", counts] == ["OFF"] + [counts];
    FileTextCons("OFF", [counts]);
    FileTextCons(counts, []);
    WordsOfLineThen("OFF", counts + "\n" + FileText([]));
    SplitOfRunThenDelim("OFF", '\n', IsSpace);
    assert counts + "\n" == NatToString(np) + " " + NatToString(nt) + " " + "0" + "\n";
    WordsOfLine3(NatToString(np), NatToString(nt), "0");
    assert counts + "\n" + FileText([]) == counts + "\n";
  }

  /** The words of a written OFF file: magic word, counts, coordinates, faces. */
  lemma WordsOfSaveOff(lib: FloatLib, m: Mesh)
    requires Coherent(lib)
    ensures Words(FileText(SaveOff(lib, m)))
      == ["OFF"] + [NatToString(NPoints(m)), NatToString(NTriangles(m)), "0"]
        + PointWords(lib, m.points) + FaceWords("3", IndexWords(m.triangles))
  {
    hide Words, FileText, PointWords, IndexWords, FaceWords, OffPointLines, OffFaceLines;
    var pl := OffPointLines(lib, m.points);
    var fl := OffFaceLines(m.triangles);
    var counts := NatToString(NPoints(m)) + " " + NatToString(NTriangles(m)) + " 0";
    assert SaveOff(lib, m) == ["OFF", counts] + (pl + fl);
    WordsOfOffHeader(NPoints(m), NTriangles(m), pl + fl);
    WordsOfFileTextAppend(pl, fl);
    WordsOfPointLines(lib, m.points);
    WordsOfFaceLines(m.triangles);
  }

  /** A number printed in the default notation converts back. */
  lemma PrintedConverts(lib: FloatLib, x: real)
    requires Coherent(lib)
    ensures ConvertsWhole(lib, lib.general6(x))
  {
  }

  /** `%i` reads a printed natural as itself. */
  lemma ReadsAsNat(n: nat)
    ensures ReadsAs(NatToString(n), n)
  {
    ReadsAsIntToString(n);
  }

  /** A written OFF file loads as the words it printed for the coordinates, and the
      whole index triples. */
  lemma SaveOffLoads(lib: FloatLib, m: Mesh)
    requires Coherent(lib)
    ensures LoadOff(Words(FileText(SaveOff(lib, m))), lib)
      == Success(Mesh(WordValues(lib, PointWords(lib, m.points)), m.triangles[..3 * NTriangles(m)]))
  {
    var np, nt := NPoints(m), NTriangles(m);
    var hw := [NatToString(np), NatToString(nt), "0"];
    var cw := PointWords(lib, m.points);
    var iw := IndexWords(m.triangles);
    var ts := m.triangles[..3 * nt];
    WordsOfSaveOff(lib, m);
    SmallWordsRead(np, nt);
    PointWordsConvert(lib, m.points);
    IndexWordsRead(m.triangles);
    hide *;
    LoadOffOfWords(hw, cw, "3", iw, ts, np, nt, lib);
  }

  /** The count words and the size word read as their numbers. */
  lemma SmallWordsRead(np: nat, nt: nat)
    ensures ReadsAs(NatToString(np), np) && ReadsAs(NatToString(nt), nt)
    ensures IsWholeInt("0") && ReadsAs("3", 3)
  {
    ReadsAsNat(np);
    ReadsAsNat(nt);
    ReadsAsNat(0);
    ReadsAsNat(3);
  }

  /** Every printed coordinate word converts back. */
  lemma PointWordsConvert(lib: FloatLib, pts: seq<real>)
    requires Coherent(lib)
    ensures forall i :: 0 <= i < |PointWords(lib, pts)| ==> ConvertsWhole(lib, PointWords(lib, pts)[i])
  {
    var cw := PointWords(lib, pts);
    forall i | 0 <= i < |cw|
      ensures ConvertsWhole(lib, cw[i])
    {
      PrintedConverts(lib, pts[i]);
    }
  }

  /** Every printed index word reads as its index. */
  lemma IndexWordsRead(ts: seq<int>)
    ensures forall i {:trigger ReadsAs(IndexWords(ts)[i], ts[..3 * (|ts| / 3)][i])} :: 0 <= i < |IndexWords(ts)| ==>
      ReadsAs(IndexWords(ts)[i], ts[..3 * (|ts| / 3)][i])
  {
    var iw := IndexWords(ts);
    forall i | 0 <= i < |iw|
      ensures ReadsAs(iw[i], ts[..3 * (|ts| / 3)][i])
    {
      ReadsAsIntToString(ts[i]);
    }
  }

  /** The OFF round trip: a file `SaveOFF` wrote loads back with the mesh's whole
      coordinate triples, reprinted, and exactly its whole index triples. */
  lemma SaveOffReadBack(lib: FloatLib, m: Mesh)
    requires Coherent(lib)
    ensures LoadOff(Words(FileText(SaveOff(lib, m))), lib).Success?
    ensures var r := LoadOff(Words(FileText(SaveOff(lib, m))), lib).value;
      && |r.points| == 3 * NPoints(m)
      && (forall i :: 0 <= i < |r.points| ==> r.points[i] == Regeneral(lib, m.points[i]))
      && r.triangles == m.triangles[..3 * NTriangles(m)]
  {
    SaveOffLoads(lib, m);
    hide LoadOff, Words, FileText, SaveOff, Coherent;
  }
}
