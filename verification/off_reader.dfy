/** `LoadOFF`: reads an OFF file as the sequence of its white-space separated words.

    Each `fscanf` conversion reads from the front of the first unread word. `%i` takes an
    optional sign and the decimal digits after it, reading them as `atoi` does; `%f`
    takes what `strtod` converts. Whatever the conversion leaves of the word (the `.5`
    of `0.5`, the `abc` of `1.5abc`) stays in front of the stream for the next
    conversion. A conversion that fails (end of input, or a word that does not start
    with a number of its kind) leaves its target unchanged and consumes nothing, so
    every later conversion of the same kind fails on the same word. */
module OffReader {

  import opened Options
  import opened Text
  import opened Meshes

  /** A word `%i` starts converting: a decimal digit, or a sign and a digit. */
  predicate IsIntWord(w: string)
  {
    |w| > 0 && (IsDigit(w[0]) || ((w[0] == '-' || w[0] == '+') && |w| > 1 && IsDigit(w[1])))
  }

  /** How many characters of `w` `%i` converts: the sign, if any, and the digits after it. */
  function IntLength(w: string): (n: nat)
    ensures n <= |w|
    ensures IsIntWord(w) ==> n > 0
  {
    if |w| > 0 && (w[0] == '-' || w[0] == '+') then 1 + |DigitPrefix(w[1..])| else |DigitPrefix(w)|
  }

  /** A word `%i` converts to its end. */
  predicate IsWholeInt(w: string)
  {
    IsIntWord(w) && IntLength(w) == |w|
  }

  /** `ws` is strictly less input than `vs`: fewer words, or as many with a shorter first one. */
  predicate LessInput(ws: seq<string>, vs: seq<string>)
  {
    |ws| < |vs| || (|ws| == |vs| > 0 && |ws[0]| < |vs[0]|)
  }

  /** The stream after a conversion used the first `n` characters of the first word:
      the rest of that word, if any, stays in front. */
  function Unread(ws: seq<string>, n: nat): (r: seq<string>)
    requires |ws| > 0 && n > 0
    ensures LessInput(r, ws)
    ensures n >= |ws[0]| ==> r == ws[1..]
    ensures n < |ws[0]| ==> |r| == |ws| && r[0] == ws[0][n..] && r[1..] == ws[1..]
  {
    if n < |ws[0]| then [ws[0][n..]] + ws[1..] else ws[1..]
  }

  /** `fscanf(fid, "%i", &x)` on the unread words `ws`: the new value of `x` and the
      stream after it. */
  function ScanInt(ws: seq<string>, x: int): (r: (int, seq<string>))
    ensures r == (x, ws) <==> |ws| == 0 || !IsIntWord(ws[0])
    ensures |ws| > 0 && IsIntWord(ws[0]) ==> r.0 == Atoi(ws[0]) && LessInput(r.1, ws)
    ensures |ws| > 0 && IsWholeInt(ws[0]) ==> r.1 == ws[1..]
    ensures |ws| > 0 && IsIntWord(ws[0]) && !IsWholeInt(ws[0]) ==>
      |r.1| == |ws| && r.1[0] == ws[0][IntLength(ws[0])..] && r.1[1..] == ws[1..]
  {
    if |ws| > 0 && IsIntWord(ws[0]) then (Atoi(ws[0]), Unread(ws, IntLength(ws[0]))) else (x, ws)
  }

  /** `fscanf(fid, "%f", &x)` on the unread words. */
  function ScanFloat(ws: seq<string>, lib: FloatLib, x: real): (r: (real, seq<string>))
    ensures r == (x, ws) <==> |ws| == 0 || !Converts(lib, ws[0])
    ensures |ws| > 0 && ConvertsWhole(lib, ws[0]) ==> r == (WordValue(lib, ws[0]), ws[1..])
    ensures |ws| > 0 && Converts(lib, ws[0]) && !ConvertsWhole(lib, ws[0]) ==>
      var n := lib.strtod(ws[0]).value.length;
      r.0 == WordValue(lib, ws[0]) && (n < |ws[0]| ==> |r.1| == |ws| && r.1[0] == ws[0][n..] && r.1[1..] == ws[1..])
  {
    if |ws| > 0 && Converts(lib, ws[0]) then
      (WordValue(lib, ws[0]), Unread(ws, lib.strtod(ws[0]).value.length))
    else (x, ws)
  }

  /** The loop `for (p = 0; p < np; p++) fscanf(fid, "%f", &(points[p]))` from position `p`. */
  function ReadPoints(ws: seq<string>, pts: seq<real>, p: nat, lib: FloatLib): (r: (seq<real>, seq<string>))
    requires p <= |pts|
    ensures |r.0| == |pts|
    decreases |pts| - p
  {
    if p == |pts| then (pts, ws)
    else
      var (x, ws') := ScanFloat(ws, lib, pts[p]);
      ReadPoints(ws', pts[p := x], p + 1, lib)
  }

  /** The inner loop `for (h = 0; h < s; ++h) fscanf(fid, "%i", &s)` that skips a face
      that is not a triangle, from iteration `h`. It scans into its own bound `s`, so how
      much input it consumes depends on the values it reads. Returns the unread words and
      the final `s`. */
  function SkipIndices(ws: seq<string>, h: int, s: int): (r: (seq<string>, int))
    decreases |ws|, if |ws| == 0 then 0 else |ws[0]|, s - h
  {
    if h < s then
      var (s', ws') := ScanInt(ws, s);
      SkipIndices(ws', h + 1, s')
    else (ws, s)
  }

  /** What the skip loop leaves unread from iteration `h` on, whatever `s` is: it goes
      on scanning as long as an integer is in front, and stops after the first one whose
      value does not exceed its own iteration count (the integer read in iteration `h`
      ends the loop when its value is at most `h + 1`). Input that is not an integer is
      never consumed. */
  function SkipRest(ws: seq<string>, h: int): (rest: seq<string>)
    ensures rest == ws || LessInput(rest, ws)
    decreases |ws|, if |ws| == 0 then 0 else |ws[0]|
  {
    if |ws| == 0 || !IsIntWord(ws[0]) then ws
    else
      var ws' := Unread(ws, IntLength(ws[0]));
      if Atoi(ws[0]) <= h + 1 then ws'
      else
        var rest := SkipRest(ws', h + 1);
        LessInputTrans(rest, ws', ws);
        rest
  }

  lemma LessInputTrans(a: seq<string>, b: seq<string>, c: seq<string>)
    requires a == b || LessInput(a, b)
    requires LessInput(b, c)
    ensures LessInput(a, c)
  {
  }

  /** The skip loop leaves exactly what `SkipRest` says: once entered, the face size it
      started from plays no part, because each scan overwrites the bound. */
  lemma {:induction false} SkipIndicesConsumes(ws: seq<string>, h: int, s: int)
    requires h < s
    ensures SkipIndices(ws, h, s).0 == SkipRest(ws, h)
    decreases |ws|, if |ws| == 0 then 0 else |ws[0]|
  {
    if |ws| == 0 || !IsIntWord(ws[0]) {
      SkipIndicesStuck(ws, h + 1, s);
    } else {
      var s' := Atoi(ws[0]);
      var ws' := Unread(ws, IntLength(ws[0]));
      assert ScanInt(ws, s) == (s', ws');
      if s' > h + 1 {
        SkipIndicesConsumes(ws', h + 1, s');
      }
    }
  }

  /** With no integer in front the remaining iterations read nothing. */
  lemma {:induction false} SkipIndicesStuck(ws: seq<string>, h: int, s: int)
    requires |ws| == 0 || !IsIntWord(ws[0])
    ensures SkipIndices(ws, h, s) == (ws, s)
    decreases s - h
  {
    if h < s {
      SkipIndicesStuck(ws, h + 1, s);
    }
  }

  /** The state of the face loop: unread words, the variable `s`, the write cursor `r`,
      the `triangles` buffer, and the face sizes scanned so far (one per face). */
  datatype FaceState = FaceState(ws: seq<string>, s: int, r: nat, tris: seq<int>, sizes: seq<int>)

  /** The three index scans of a triangle face, into `triangles[r .. r+3)`. */
  function ReadTriangle(ws: seq<string>, r: nat, tris: seq<int>): (res: (seq<string>, seq<int>))
    requires r + 3 <= |tris|
    ensures SameOutside(res.1, tris, r, r + 3)
  {
    var (a, ws1) := ScanInt(ws, tris[r]);
    var (b, ws2) := ScanInt(ws1, tris[r + 1]);
    var (c, ws3) := ScanInt(ws2, tris[r + 2]);
    (ws3, tris[r := a][r + 1 := b][r + 2 := c])
  }

  /** One iteration of the face loop. A face of size 3 has its three indices scanned
      into `triangles[r]`, `triangles[r+1]`, `triangles[r+2]` and moves `r` on by 3;
      any other size leaves `r` and the buffer alone. */
  function ReadFace(st: FaceState): (st': FaceState)
    requires st.r + 3 <= |st.tris|
    ensures |st'.tris| == |st.tris|
    ensures st'.sizes == st.sizes + [ScanInt(st.ws, st.s).0]
    ensures ScanInt(st.ws, st.s).0 == 3 ==> st'.r == st.r + 3
    ensures SameOutside(st'.tris, st.tris, st.r, st.r + 3)
    ensures ScanInt(st.ws, st.s).0 != 3 ==> st'.r == st.r && st'.tris == st.tris
  {
    var (s, ws) := ScanInt(st.ws, st.s);
    if s == 3 then
      var (ws', tris') := ReadTriangle(ws, st.r, st.tris);
      FaceState(ws', s, st.r + 3, tris', st.sizes + [s])
    else
      var (ws', s') := SkipIndices(ws, 0, s);
      FaceState(ws', s', st.r, st.tris, st.sizes + [s])
  }

  /** `n` iterations of the face loop. */
  function ReadFaces(st: FaceState, n: nat): (st': FaceState)
    requires st.r + 3 * n <= |st.tris|
    ensures |st'.tris| == |st.tris|
    ensures |st'.sizes| == |st.sizes| + n && st'.sizes[..|st.sizes|] == st.sizes
    ensures st.r <= st'.r <= st.r + 3 * n
    decreases n
  {
    if n == 0 then st
    else
      var st1 := ReadFace(st);
      var st' := ReadFaces(st1, n - 1);
      assert st'.sizes[..|st.sizes|] == st'.sizes[..|st1.sizes|][..|st.sizes|];
      st'
  }

  /** The number of faces whose size reads as 3: the only ones `LoadOFF` keeps. */
  function TriangleCount(sizes: seq<int>): nat
  {
    if |sizes| == 0 then 0 else (if sizes[0] == 3 then 1 else 0) + TriangleCount(sizes[1..])
  }

  /** Over the whole face loop the cursor moves by 3 for every face whose size read
      as 3 and by nothing otherwise. */
  lemma {:induction false} ReadFacesCursor(st: FaceState, n: nat)
    requires st.r + 3 * n <= |st.tris|
    ensures ReadFaces(st, n).r == st.r + 3 * TriangleCount(ReadFaces(st, n).sizes[|st.sizes|..])
    decreases n
  {
    var st' := ReadFaces(st, n);
    if n == 0 {
      assert st'.sizes[|st.sizes|..] == [];
    } else {
      var st1 := ReadFace(st);
      assert st' == ReadFaces(st1, n - 1);
      ReadFacesCursor(st1, n - 1);
      var i := |st.sizes|;
      var added := st'.sizes[i..];
      assert added[0] == st1.sizes[i];
      assert added[1..] == st'.sizes[|st1.sizes|..];
    }
  }

  /** `a` and `b` agree outside the index range `[lo, hi)`. */
  predicate SameOutside(a: seq<int>, b: seq<int>, lo: int, hi: int)
  {
    |a| == |b| && forall k :: 0 <= k < |a| && (k < lo || hi <= k) ==> a[k] == b[k]
  }

  lemma SameOutsideTrans(a: seq<int>, b: seq<int>, c: seq<int>, lo: int, mid: int, hi: int)
    requires lo <= mid <= hi
    requires SameOutside(a, b, mid, hi) && SameOutside(b, c, lo, mid)
    ensures SameOutside(a, c, lo, hi)
  {
  }

  /** Slots outside the range the face loop wrote keep their values; in particular
      slots from the final cursor on keep the zeros `resize` put there. */
  lemma {:induction false} ReadFacesKeeps(st: FaceState, n: nat)
    requires st.r + 3 * n <= |st.tris|
    ensures SameOutside(ReadFaces(st, n).tris, st.tris, st.r, ReadFaces(st, n).r)
    decreases n
  {
    if n == 0 {
      assert ReadFaces(st, n) == st;
    } else {
      var st1 := ReadFace(st);
      var st' := ReadFaces(st1, n - 1);
      assert ReadFaces(st, n) == st';
      ReadFacesKeeps(st1, n - 1);
      assert SameOutside(st1.tris, st.tris, st.r, st1.r);
      assert st.r <= st1.r <= st'.r;
      SameOutsideTrans(st'.tris, st1.tris, st.tris, st.r, st1.r, st'.r);
    }
  }

  /** The three counts after the magic word: vertices, faces, edges (edges unused). */
  datatype OffHeader = OffHeader(nv: int, nf: int, ne: int, rest: seq<string>)

  function ReadHeader(ws: seq<string>): OffHeader
  {
    var (nv, ws1) := ScanInt(ws, 0);
    var (nf, ws2) := ScanInt(ws1, 0);
    var (ne, ws3) := ScanInt(ws2, 0);
    OffHeader(nv, nf, ne, ws3)
  }

  /** `n` zeros: what `vector::resize` puts in a fresh buffer. */
  function Zeros<T>(n: nat, zero: T): (z: seq<T>)
    ensures |z| == n && forall k :: 0 <= k < n ==> z[k] == zero
  {
    seq(n, k => zero)
  }

  /** Everything `LoadOFF` computes on a file that starts with the magic word: the
      header, the coordinate buffer and the final face-loop state. The face-size
      variable `s` starts at 0 (the source leaves it uninitialised). */
  function ScanOff(ws: seq<string>, lib: FloatLib): (r: Result<(OffHeader, seq<real>, FaceState), LoadError>)
    ensures r.Success? ==> |r.value.1| == 3 * r.value.0.nv && |r.value.2.tris| == 3 * r.value.0.nf
    ensures r.Success? ==> |r.value.2.sizes| == r.value.0.nf
    ensures r.Success? ==> r.value.2.r == 3 * TriangleCount(r.value.2.sizes)
    ensures r.Success? ==> forall k :: r.value.2.r <= k < |r.value.2.tris| ==> r.value.2.tris[k] == 0
  {
    if |ws| == 0 || ws[0] != "OFF" then Failure(FormatNotRecognized)
    else
      var hd := ReadHeader(ws[1..]);
      if hd.nv < 0 || hd.nf < 0 then Failure(NegativeSize)
      else
        var (pts, ws') := ReadPoints(hd.rest, Zeros(3 * hd.nv, 0.0), 0, lib);
        var st := FaceState(ws', 0, 0, Zeros(3 * hd.nf, 0), []);
        var fs := ReadFaces(st, hd.nf);
        ReadFacesCursor(st, hd.nf);
        ReadFacesKeeps(st, hd.nf);
        assert fs.sizes[0..] == fs.sizes;
        Success((hd, pts, fs))
  }

  /** `LoadOFF` on the words of a file that could be opened. */
  function LoadOff(ws: seq<string>, lib: FloatLib): (r: Result<Mesh, LoadError>)
    ensures r == Failure(FormatNotRecognized) <==> |ws| == 0 || ws[0] != "OFF"
    ensures r == Failure(NegativeSize) <==>
      |ws| > 0 && ws[0] == "OFF" && (ReadHeader(ws[1..]).nv < 0 || ReadHeader(ws[1..]).nf < 0)
    ensures r.Failure? ==> r.error == FormatNotRecognized || r.error == NegativeSize
    ensures r.Success? ==>
      |r.value.points| == 3 * ReadHeader(ws[1..]).nv && |r.value.triangles| == 3 * ReadHeader(ws[1..]).nf
  {
    match ScanOff(ws, lib)
    case Failure(e) => Failure(e)
    case Success((hd, pts, fs)) => Success(Mesh(pts, fs.tris))
  }

  /** A face whose size is not 3 loses the input its size scan took and then what the
      skip loop consumes, nothing else. */
  lemma ReadFaceNonTriangle(st: FaceState)
    requires st.r + 3 <= |st.tris|
    requires |st.ws| > 0 && IsIntWord(st.ws[0]) && Atoi(st.ws[0]) != 3
    ensures var after := Unread(st.ws, IntLength(st.ws[0]));
      ReadFace(st).ws == (if Atoi(st.ws[0]) > 0 then SkipRest(after, 0) else after)
    ensures ReadFace(st).r == st.r && ReadFace(st).tris == st.tris
  {
    var n := Atoi(st.ws[0]);
    var after := Unread(st.ws, IntLength(st.ws[0]));
    assert ScanInt(st.ws, st.s) == (n, after);
    if n > 0 {
      SkipIndicesConsumes(after, 0, n);
    }
  }

  /** A face that is not a triangle and whose first index is 0 or 1 (so the quad
      `4 0 1 2 3`, say) loses only its size word and that first index: its remaining
      indices are left for the next face to read as its size and indices, where
      skipping all of them was meant. */
  lemma SmallFirstIndexEndsSkip(st: FaceState)
    requires st.r + 3 <= |st.tris|
    requires |st.ws| > 1 && IsWholeInt(st.ws[0]) && IsWholeInt(st.ws[1])
    requires Atoi(st.ws[0]) > 0 && Atoi(st.ws[0]) != 3 && Atoi(st.ws[1]) <= 1
    ensures ReadFace(st).ws == st.ws[2..]
    ensures ReadFace(st).r == st.r && ReadFace(st).tris == st.tris
  {
    var after := st.ws[1..];
    assert Unread(st.ws, IntLength(st.ws[0])) == after;
    assert after[0] == st.ws[1] && after[1..] == st.ws[2..];
    assert SkipRest(after, 0) == st.ws[2..];
    ReadFaceNonTriangle(st);
  }

  /** A run of digits followed by text that does not start with a digit: `%i` converts
      exactly the digits. */
  lemma IntLengthOfDigitsThen(digits: string, tail: string)
    requires |digits| > 0 && forall i :: 0 <= i < |digits| ==> IsDigit(digits[i])
    requires |tail| == 0 || !IsDigit(tail[0])
    ensures IsIntWord(digits + tail) && IntLength(digits + tail) == |digits|
  {
    var w := digits + tail;
    assert w[0] == digits[0];
    DigitPrefixOfDigitsThen(digits, tail);
  }

  /** `%i` reads a printed integer, to its end, as itself. */
  lemma ReadsAsIntToString(i: int)
    ensures ReadsAs(IntToString(i), i)
  {
    var w := IntToString(i);
    AtoiOfIntToString(i);
    if i < 0 {
      var digits := NatToString(-i);
      assert w[1..] == digits + "";
      DigitPrefixOfDigitsThen(digits, "");
    } else {
      IntLengthOfDigitsThen(w, "");
      assert w + "" == w;
    }
  }

  /** `%i` on a number with a fractional part, such as `0.5` or `3.0`, reads the
      integer part and leaves the fraction in front of the stream, where the next `%i`
      fails without consuming anything. */
  lemma FractionStaysUnread(d: nat, frac: string, ws: seq<string>, x: int, y: int)
    ensures ScanInt([NatToString(d) + "." + frac] + ws, x) == (d, ["." + frac] + ws)
    ensures ScanInt(["." + frac] + ws, y) == (y, ["." + frac] + ws)
  {
    var digits := NatToString(d);
    var tail := "." + frac;
    var w := digits + tail;
    assert NatToString(d) + "." + frac == w;
    IntLengthOfDigitsThen(digits, tail);
    AtoiOfIntToStringThen(d, tail);
    assert w[|digits|..] == tail;
    var in1 := [w] + ws;
    assert in1[0] == w && in1[1..] == ws;
    hide Atoi, IntLength, IntToString, NatToString;
    assert Unread(in1, |digits|) == [tail] + ws;
    assert ScanInt(in1, x) == (d, [tail] + ws);
    var in2 := [tail] + ws;
    assert in2[0] == tail && !IsIntWord(tail);
  }

  /** Once the stream is stuck on input that is not an integer, the remaining faces
      store nothing: the stream and the buffer stay as they are (the faces after a word
      like `0.5` keep the zeros of `resize`). The cursor still moves by 3 per face when
      the face size left from before is 3, as after a size written `3.0`. */
  lemma {:induction false} StuckFacesStoreNothing(st: FaceState, n: nat)
    requires st.r + 3 * n <= |st.tris|
    requires |st.ws| > 0 && !IsIntWord(st.ws[0])
    ensures ReadFaces(st, n).ws == st.ws && ReadFaces(st, n).tris == st.tris
    ensures ReadFaces(st, n).r == st.r + (if st.s == 3 then 3 * n else 0)
    decreases n
  {
    if n > 0 {
      var st1 := ReadFace(st);
      if st.s == 3 {
        var t := st.tris;
        assert ScanInt(st.ws, t[st.r]) == (t[st.r], st.ws);
        assert ScanInt(st.ws, t[st.r + 1]) == (t[st.r + 1], st.ws);
        assert ScanInt(st.ws, t[st.r + 2]) == (t[st.r + 2], st.ws);
        assert t[st.r := t[st.r]][st.r + 1 := t[st.r + 1]][st.r + 2 := t[st.r + 2]] == t;
        assert ReadTriangle(st.ws, st.r, t) == (st.ws, t);
      } else {
        SkipIndicesStuck(st.ws, 0, st.s);
      }
      assert st1.ws == st.ws && st1.s == st.s && st1.tris == st.tris;
      StuckFacesStoreNothing(st1, n - 1);
    }
  }

  // ---------------------------------------------------------------------------
  // Reading well-formed files
  // ---------------------------------------------------------------------------

  /** `w` is a word `%i` reads, to its end, as `i`. */
  predicate ReadsAs(w: string, i: int)
  {
    IsWholeInt(w) && Atoi(w) == i
  }

  /** Index words grouped into triangle faces `3 a b c`, as `SaveOFF` writes them;
      `tag` is the word the size 3 is printed as. */
  function FaceWords(tag: string, iw: seq<string>): seq<string>
  {
    if |iw| < 3 then [] else [tag, iw[0], iw[1], iw[2]] + FaceWords(tag, iw[3..])
  }

  /** The coordinates a run of numeric words reads as. */
  function WordValues(lib: FloatLib, cw: seq<string>): (xs: seq<real>)
    ensures |xs| == |cw|
    ensures forall i :: 0 <= i < |cw| ==> xs[i] == WordValue(lib, cw[i])
  {
    seq(|cw|, i requires 0 <= i < |cw| => WordValue(lib, cw[i]))
  }

  /** Numeric words fill the coordinate buffer in order and are all consumed. */
  lemma {:induction false} ReadPointsOfWords(cw: seq<string>, rest: seq<string>, pts: seq<real>, p: nat, lib: FloatLib)
    requires p <= |pts| == |cw|
    requires forall i :: 0 <= i < |cw| ==> ConvertsWhole(lib, cw[i])
    ensures ReadPoints(cw[p..] + rest, pts, p, lib) == (pts[..p] + WordValues(lib, cw)[p..], rest)
    decreases |pts| - p
  {
    var xs := WordValues(lib, cw);
    if p == |pts| {
      assert cw[p..] + rest == rest;
      assert ReadPoints(rest, pts, p, lib) == (pts, rest);
      assert pts[..p] + xs[p..] == pts;
    } else {
      var ws := cw[p..] + rest;
      assert ws[0] == cw[p] && ws[1..] == cw[p + 1..] + rest;
      var pts' := pts[p := xs[p]];
      ReadPointsOfWords(cw, rest, pts', p + 1, lib);
      assert pts'[..p + 1] + xs[p + 1..] == pts[..p] + xs[p..];
    }
  }

  /** Three scans reading `a b c` fill the three slots at the cursor. */
  lemma ReadTriangleOfScans(ws1: seq<string>, r: nat, tris: seq<int>, ws2: seq<string>, ws3: seq<string>, ws4: seq<string>, a: int, b: int, c: int)
    requires r + 3 <= |tris|
    requires ScanInt(ws1, tris[r]) == (a, ws2)
    requires ScanInt(ws2, tris[r + 1]) == (b, ws3)
    requires ScanInt(ws3, tris[r + 2]) == (c, ws4)
    ensures ReadTriangle(ws1, r, tris) == (ws4, tris[r := a][r + 1 := b][r + 2 := c])
  {
  }

  /** A face whose four scans read `3 a b c` fills the three slots at the cursor. */
  lemma ReadFaceOfScans(st: FaceState, ws1: seq<string>, ws2: seq<string>, ws3: seq<string>, ws4: seq<string>, a: int, b: int, c: int)
    requires st.r + 3 <= |st.tris|
    requires ScanInt(st.ws, st.s) == (3, ws1)
    requires ScanInt(ws1, st.tris[st.r]) == (a, ws2)
    requires ScanInt(ws2, st.tris[st.r + 1]) == (b, ws3)
    requires ScanInt(ws3, st.tris[st.r + 2]) == (c, ws4)
    ensures ReadFace(st).ws == ws4 && ReadFace(st).r == st.r + 3
    ensures ReadFace(st).tris[st.r] == a && ReadFace(st).tris[st.r + 1] == b && ReadFace(st).tris[st.r + 2] == c
  {
    ReadTriangleOfScans(ws1, st.r, st.tris, ws2, ws3, ws4, a, b, c);
  }

  /** One face written as `3 a b c` fills the three slots at the cursor. */
  lemma ReadFaceOfWords(st: FaceState, tag: string, wa: string, wb: string, wc: string, a: int, b: int, c: int, rest: seq<string>)
    requires st.r + 3 <= |st.tris|
    requires ReadsAs(tag, 3) && ReadsAs(wa, a) && ReadsAs(wb, b) && ReadsAs(wc, c)
    requires st.ws == [tag, wa, wb, wc] + rest
    ensures ReadFace(st).ws == rest && ReadFace(st).r == st.r + 3
    ensures ReadFace(st).tris[st.r] == a && ReadFace(st).tris[st.r + 1] == b && ReadFace(st).tris[st.r + 2] == c
  {
    var ws1 := st.ws[1..];
    var ws2 := ws1[1..];
    var ws3 := ws2[1..];
    hide ReadFace, ScanInt;
    assert ws1[0] == wa && ws2[0] == wb && ws3[0] == wc && ws3[1..] == rest;
    ScanIntOfReads(st.ws, st.s, tag, 3);
    ScanIntOfReads(ws1, st.tris[st.r], wa, a);
    ScanIntOfReads(ws2, st.tris[st.r + 1], wb, b);
    ScanIntOfReads(ws3, st.tris[st.r + 2], wc, c);
    ReadFaceOfScans(st, ws1, ws2, ws3, rest, a, b, c);
  }

  lemma ScanIntOfReads(ws: seq<string>, x: int, w: string, i: int)
    requires |ws| > 0 && ws[0] == w && ReadsAs(w, i)
    ensures ScanInt(ws, x) == (i, ws[1..])
  {
  }

  /** The next `n` faces each read as the next triangle of `ts`, and `rest` follows them. */
  predicate FacesAhead(st: FaceState, n: nat, ts: seq<int>, rest: seq<string>)
    requires |ts| == 3 * n && st.r + 3 * n <= |st.tris|
    decreases n
  {
    if n == 0 then st.ws == rest
    else
      var st1 := ReadFace(st);
      st1.r == st.r + 3 && st1.tris[st.r] == ts[0] && st1.tris[st.r + 1] == ts[1] && st1.tris[st.r + 2] == ts[2]
      && FacesAhead(st1, n - 1, ts[3..], rest)
  }

  /** Faces that each read as the next triangle are read back index for index. */
  lemma {:induction false} ReadFacesAhead(st: FaceState, n: nat, ts: seq<int>, rest: seq<string>)
    requires |ts| == 3 * n && st.r + 3 * n <= |st.tris|
    requires FacesAhead(st, n, ts, rest)
    ensures ReadFaces(st, n).ws == rest
    ensures ReadFaces(st, n).r == st.r + 3 * n
    ensures forall k :: 0 <= k < 3 * n ==> ReadFaces(st, n).tris[st.r + k] == ts[k]
    decreases n
  {
    hide ReadFace;
    if n > 0 {
      var st1 := ReadFace(st);
      ReadFacesAhead(st1, n - 1, ts[3..], rest);
      var st' := ReadFaces(st1, n - 1);
      assert ReadFaces(st, n) == st';
      ReadFacesKeeps(st1, n - 1);
      forall k | 0 <= k < 3 * n
        ensures st'.tris[st.r + k] == ts[k]
      {
        if k >= 3 {
          assert st'.tris[st1.r + (k - 3)] == ts[3..][k - 3];
        }
      }
    }
  }

  /** The first face of a run of triangle faces, and what the rest of them read as. */
  lemma FaceWordsSplit(tag: string, iw: seq<string>, ts: seq<int>, rest: seq<string>)
    requires |ts| == |iw| >= 3
    requires forall i {:trigger ReadsAs(iw[i], ts[i])} :: 0 <= i < |iw| ==> ReadsAs(iw[i], ts[i])
    ensures FaceWords(tag, iw) + rest == [tag, iw[0], iw[1], iw[2]] + (FaceWords(tag, iw[3..]) + rest)
    ensures ReadsAs(iw[0], ts[0]) && ReadsAs(iw[1], ts[1]) && ReadsAs(iw[2], ts[2])
    ensures forall i {:trigger ReadsAs(iw[3..][i], ts[3..][i])} :: 0 <= i < |iw[3..]| ==> ReadsAs(iw[3..][i], ts[3..][i])
  {
  }

  /** Triangle faces written as `3 a b c` each read as the next triangle. */
  lemma {:induction false} FacesAheadOfWords(st: FaceState, n: nat, tag: string, iw: seq<string>, ts: seq<int>, rest: seq<string>)
    requires |ts| == |iw| == 3 * n && st.r + 3 * n <= |st.tris|
    requires ReadsAs(tag, 3) && forall i {:trigger ReadsAs(iw[i], ts[i])} :: 0 <= i < |iw| ==> ReadsAs(iw[i], ts[i])
    requires st.ws == FaceWords(tag, iw) + rest
    ensures FacesAhead(st, n, ts, rest)
    decreases n
  {
    hide ReadFace, ReadsAs;
    if n == 0 {
      assert st.ws == rest;
    } else {
      FirstFaceOfWords(st, tag, iw, ts, rest);
      FacesAheadOfWords(ReadFace(st), n - 1, tag, iw[3..], ts[3..], rest);
      FacesAheadCons(st, n, ts, rest);
    }
  }

  /** The first of a run of triangle faces written as `3 a b c` fills the slots at the
      cursor and leaves the words of the others. */
  lemma FirstFaceOfWords(st: FaceState, tag: string, iw: seq<string>, ts: seq<int>, rest: seq<string>)
    requires |ts| == |iw| >= 3 && st.r + 3 <= |st.tris|
    requires ReadsAs(tag, 3) && forall i {:trigger ReadsAs(iw[i], ts[i])} :: 0 <= i < |iw| ==> ReadsAs(iw[i], ts[i])
    requires st.ws == FaceWords(tag, iw) + rest
    ensures ReadFace(st).ws == FaceWords(tag, iw[3..]) + rest && ReadFace(st).r == st.r + 3
    ensures ReadFace(st).tris[st.r] == ts[0] && ReadFace(st).tris[st.r + 1] == ts[1] && ReadFace(st).tris[st.r + 2] == ts[2]
  {
    FaceWordsSplit(tag, iw, ts, rest);
    ReadFaceOfWords(st, tag, iw[0], iw[1], iw[2], ts[0], ts[1], ts[2], FaceWords(tag, iw[3..]) + rest);
  }

  lemma FacesAheadCons(st: FaceState, n: nat, ts: seq<int>, rest: seq<string>)
    requires n > 0 && |ts| == 3 * n && st.r + 3 * n <= |st.tris|
    requires ReadFace(st).r == st.r + 3
    requires ReadFace(st).tris[st.r] == ts[0] && ReadFace(st).tris[st.r + 1] == ts[1] && ReadFace(st).tris[st.r + 2] == ts[2]
    requires FacesAhead(ReadFace(st), n - 1, ts[3..], rest)
    ensures FacesAhead(st, n, ts, rest)
  {
  }

  /** Triangle faces written as `3 a b c` are read back index for index, from the
      cursor on, and all their words are consumed. */
  lemma ReadFacesOfWords(st: FaceState, n: nat, tag: string, iw: seq<string>, ts: seq<int>, rest: seq<string>)
    requires |ts| == |iw| == 3 * n && st.r + 3 * n <= |st.tris|
    requires ReadsAs(tag, 3) && forall i {:trigger ReadsAs(iw[i], ts[i])} :: 0 <= i < |iw| ==> ReadsAs(iw[i], ts[i])
    requires st.ws == FaceWords(tag, iw) + rest
    ensures ReadFaces(st, n).ws == rest
    ensures ReadFaces(st, n).r == st.r + 3 * n
    ensures forall k :: 0 <= k < 3 * n ==> ReadFaces(st, n).tris[st.r + k] == ts[k]
  {
    FacesAheadOfWords(st, n, tag, iw, ts, rest);
    ReadFacesAhead(st, n, ts, rest);
  }

  /** Header words reading as the counts leave the words after them unread. */
  lemma ReadHeaderOfWords(hw: seq<string>, body: seq<string>, nv: int, nf: int)
    requires |hw| == 3 && ReadsAs(hw[0], nv) && ReadsAs(hw[1], nf) && IsWholeInt(hw[2])
    ensures ReadHeader(hw + body) == OffHeader(nv, nf, Atoi(hw[2]), body)
  {
    var ws := hw + body;
    assert ws[0] == hw[0] && ws[1..][0] == hw[1] && ws[1..][1..][0] == hw[2] && ws[1..][1..][1..] == body;
    ScanIntOfReads(ws, 0, hw[0], nv);
    ScanIntOfReads(ws[1..], 0, hw[1], nf);
    ScanIntOfReads(ws[1..][1..], 0, hw[2], Atoi(hw[2]));
  }

  /** `LoadOFF` succeeds with the buffers its three stages leave. */
  lemma LoadOffOfStages(ws: seq<string>, lib: FloatLib, hd: OffHeader, fw: seq<string>, pts: seq<real>, ts: seq<int>)
    requires |ws| > 0 && ws[0] == "OFF" && ReadHeader(ws[1..]) == hd && hd.nv >= 0 && hd.nf >= 0
    requires ReadPoints(hd.rest, Zeros(3 * hd.nv, 0.0), 0, lib) == (pts, fw)
    requires ReadFaces(FaceState(fw, 0, 0, Zeros(3 * hd.nf, 0), []), hd.nf).tris == ts
    ensures LoadOff(ws, lib) == Success(Mesh(pts, ts))
  {
  }

  /** How the words of an OFF file split into magic word, header and body. */
  lemma OffFileWords(hw: seq<string>, cw: seq<string>, faces: seq<string>)
    ensures (["OFF"] + hw + cw + faces)[0] == "OFF"
    ensures (["OFF"] + hw + cw + faces)[1..] == hw + (cw + faces)
    ensures cw[0..] + faces == cw + faces && faces + [] == faces
  {
  }

  /** An OFF file of triangles with numeric coordinates reads back as exactly those
      coordinates and indices: the magic word, header words reading as the vertex and
      face counts, the coordinate words, and the faces. */
  lemma LoadOffOfWords(hw: seq<string>, cw: seq<string>, tag: string, iw: seq<string>, ts: seq<int>, nv: nat, nf: nat, lib: FloatLib)
    requires |hw| == 3 && |cw| == 3 * nv && |ts| == |iw| == 3 * nf
    requires ReadsAs(hw[0], nv) && ReadsAs(hw[1], nf) && IsWholeInt(hw[2])
    requires forall i :: 0 <= i < |cw| ==> ConvertsWhole(lib, cw[i])
    requires ReadsAs(tag, 3) && forall i {:trigger ReadsAs(iw[i], ts[i])} :: 0 <= i < |iw| ==> ReadsAs(iw[i], ts[i])
    ensures LoadOff(["OFF"] + hw + cw + FaceWords(tag, iw), lib) == Success(Mesh(WordValues(lib, cw), ts))
  {
    hide LoadOff, ScanOff, ReadFaces, ReadFace, ReadPoints, ReadHeader;
    var faces := FaceWords(tag, iw);
    var body := cw + faces;
    var ws := ["OFF"] + hw + cw + faces;
    OffFileWords(hw, cw, faces);
    ReadHeaderOfWords(hw, body, nv, nf);
    var hd := OffHeader(nv, nf, Atoi(hw[2]), body);
    var zs := Zeros(|cw|, 0.0);
    ReadPointsOfWords(cw, faces, zs, 0, lib);
    assert zs[..0] + WordValues(lib, cw)[0..] == WordValues(lib, cw);
    var st := FaceState(faces, 0, 0, Zeros(|ts|, 0), []);
    ReadFacesOfWords(st, nf, tag, iw, ts, []);
    assert ReadFaces(st, nf).tris == ts;
    LoadOffOfStages(ws, lib, hd, faces, WordValues(lib, cw), ts);
  }
}
