/** What the index block of a VRML file says: each triangle line holds the hull's own
    three indices, each followed by a comma, and the `-1` that closes a VRML face. No
    offset is added, unlike the OBJ writer, because each hull has its own coordinate
    block. */
module VrmlReadBack {

  import opened Text
  import opened Meshes
  import opened Writers

  /** A run of separators holds no piece. */
  lemma {:induction false} SplitOfDelims(s: string, delim: char -> bool)
    requires forall i :: 0 <= i < |s| ==> delim(s[i])
    ensures Split(s, delim) == []
    decreases |s|
  {
    if |s| > 0 {
      SplitOfDelims(s[1..], delim);
    }
  }

  /** The decimal text of an integer with a comma after it is one word. */
  lemma CommaWord(i: int)
    ensures |IntToString(i) + ","| > 0
    ensures forall k :: 0 <= k < |IntToString(i) + ","| ==> !IsSpace((IntToString(i) + ",")[k])
  {
  }

  /** The white-space separated words of an index line: the three indices with their
      commas, then `-1,`. */
  lemma WordsOfVrmlIndexLine(a: int, b: int, c: int)
    ensures Words(VrmlIndexLine(a, b, c))
      == [IntToString(a) + ",", IntToString(b) + ",", IntToString(c) + ",", "-1,"]
  {
    hide Split;
    var wa, wb, wc := IntToString(a) + ",", IntToString(b) + ",", IntToString(c) + ",";
    CommaWord(a);
    CommaWord(b);
    CommaWord(c);
    var r3 := "-1,";
    var r2 := wc + [' '] + r3;
    var r1 := wb + [' '] + r2;
    var r0 := wa + [' '] + r1;
    assert VrmlIndexLine(a, b, c) == Pad(24) + r0;
    SplitAppend(Pad(24), r0, IsSpace);
    SplitOfDelims(Pad(24), IsSpace);
    SplitCons(wa, ' ', r1, IsSpace);
    SplitCons(wb, ' ', r2, IsSpace);
    SplitCons(wc, ' ', r3, IsSpace);
    SplitOfRun(r3, IsSpace);
  }

  /** The values a VRML reader takes from the words of an index line: each word's
      leading integer, the comma ending it. */
  function IndexValues(ws: seq<string>): (xs: seq<int>)
    ensures |xs| == |ws|
    ensures forall i :: 0 <= i < |ws| ==> xs[i] == Atoi(ws[i])
  {
    seq(|ws|, i requires 0 <= i < |ws| => Atoi(ws[i]))
  }

  /** An index line reads as the triangle it was written from, closed by `-1`. */
  lemma VrmlIndexLineReads(a: int, b: int, c: int)
    ensures IndexValues(Words(VrmlIndexLine(a, b, c))) == [a, b, c, -1]
  {
    WordsOfVrmlIndexLine(a, b, c);
    CommaWordsRead(a, b, c);
  }

  lemma CommaWordsRead(a: int, b: int, c: int)
    ensures IndexValues([IntToString(a) + ",", IntToString(b) + ",", IntToString(c) + ",", "-1,"]) == [a, b, c, -1]
  {
    hide Atoi, IntToString, NatToString, DropSpaces, DigitsValue, DigitPrefix;
    AtoiOfIntToStringThen(a, ",");
    AtoiOfIntToStringThen(b, ",");
    AtoiOfIntToStringThen(c, ",");
    FaceEndReads();
  }

  /** The closing word reads as `-1`. */
  lemma FaceEndReads()
    ensures Atoi("-1,") == -1
  {
    assert NatToString(1) == "1";
    assert IntToString(-1) == "-1";
    AtoiOfIntToStringThen(-1, ",");
  }

  /** The index block of a written hull lists the hull's triangles in order, each as its
      three stored indices and `-1`, one line per triangle after the block's opening
      line. */
  lemma SaveVrml2Indices(lib: FloatLib, h: ConvexHull, mat: Material)
    ensures forall i :: 0 <= i < NTriangles(h) ==>
      IndexValues(Words(SaveVrml2(lib, h, mat)[IndexStart(h) + 1 + i]))
        == [h.triangles[3 * i], h.triangles[3 * i + 1], h.triangles[3 * i + 2], -1]
  {
    hide Words, IndexValues, SaveVrml2, VrmlIndexLine;
    forall i | 0 <= i < NTriangles(h)
      ensures IndexValues(Words(SaveVrml2(lib, h, mat)[IndexStart(h) + 1 + i]))
        == [h.triangles[3 * i], h.triangles[3 * i + 1], h.triangles[3 * i + 2], -1]
    {
      VrmlIndexLineReads(h.triangles[3 * i], h.triangles[3 * i + 1], h.triangles[3 * i + 2]);
    }
  }
}
