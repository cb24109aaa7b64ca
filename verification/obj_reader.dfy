/** `LoadOBJ`: reads a Wavefront OBJ file line by line (as `fgets` returns the lines,
    each with its newline) and keeps only vertex lines `v x y z` and face lines
    `f i j k [l]`. Tokens are what `strtok(.., " ")` returns: only the space character
    separates them, so the last token of a line carries the newline. */
module ObjReader {

  import opened Options
  import opened Text
  import opened Meshes
  import Seqs

  /** What one line of the file contributes. */
  datatype ObjLine =
    | Vertex(x: real, y: real, z: real)
    | Face(indices: seq<int>)
    | Ignored
    | ShortVertex  // a `v ` line with fewer than three tokens: the whole load fails

  /** A token that starts with the newline: the face loop stops at it. */
  predicate StartsNewline(t: string)
  {
    |t| > 0 && t[0] == '\n'
  }

  /** The face loop's tokens: all of them up to the first one that starts with a newline. */
  function FaceTokens(toks: seq<string>): (r: seq<string>)
    ensures |r| <= |toks| && r == toks[..|r|]
    ensures forall i :: 0 <= i < |r| ==> !StartsNewline(r[i])
    ensures |r| == |toks| || StartsNewline(toks[|r|])
  {
    if |toks| == 0 || StartsNewline(toks[0]) then [] else [toks[0]] + FaceTokens(toks[1..])
  }

  /** `ip[k] = atoi(pch) - 1`: OBJ indices count from 1, the buffer's from 0. */
  function Indices(toks: seq<string>): (ix: seq<int>)
    ensures |ix| == |toks|
    ensures forall i :: 0 <= i < |toks| ==> ix[i] == Atoi(toks[i]) - 1
  {
    seq(|toks|, i requires 0 <= i < |toks| => Atoi(toks[i]) - 1)
  }

  /** The text after the two-character line tag (`buffer + 2`). */
  function AfterTag(line: string): string
  {
    if |line| >= 2 then line[2..] else []
  }

  predicate IsVertexLine(line: string)
  {
    |line| >= 2 && line[0] == 'v' && line[1] == ' '
  }

  predicate IsFaceLine(line: string)
  {
    |line| > 0 && line[0] == 'f'
  }

  /** One pass of the read loop. A line is a vertex line when it starts with `v` and a
      space (`vn`, `vt` and the like are ignored); it is a face line when it starts with
      `f`, whatever follows. */
  function ParseLine(line: string, lib: FloatLib): (r: ObjLine)
    ensures r.Vertex? || r.ShortVertex? <==> IsVertexLine(line)
    ensures r.ShortVertex? <==> IsVertexLine(line) && |Strtok(line[2..])| < 3
    ensures r.Face? <==> IsFaceLine(line)
    ensures r.Vertex? ==>
      var toks := Strtok(line[2..]);
      r.x == Atof(lib, toks[0]) && r.y == Atof(lib, toks[1]) && r.z == Atof(lib, toks[2])
    ensures r.Face? ==> r.indices == Indices(FaceTokens(Strtok(AfterTag(line))))
  {
    if |line| > 0 && line[0] == 'v' then
      if |line| > 1 && line[1] == ' ' then
        var toks := Strtok(line[2..]);
        if |toks| < 3 then ShortVertex
        else Vertex(Atof(lib, toks[0]), Atof(lib, toks[1]), Atof(lib, toks[2]))
      else Ignored
    else if |line| > 0 && line[0] == 'f' then
      Face(Indices(FaceTokens(Strtok(AfterTag(line)))))
    else Ignored
  }

  /** The triangles a face adds: a triangle as it is, a quad as the fan `(0,1,2)`,
      `(0,2,3)`, anything else nothing. */
  function FaceTriangles(ix: seq<int>): (t: seq<int>)
    ensures |t| == (if |ix| == 3 then 3 else if |ix| == 4 then 6 else 0)
    ensures |ix| == 3 || |ix| == 4 ==> t[..3] == ix[..3]
    ensures |ix| == 4 ==> t[3..] == [ix[0], ix[2], ix[3]]
  {
    if |ix| == 3 then ix
    else if |ix| == 4 then [ix[0], ix[1], ix[2], ix[0], ix[2], ix[3]]
    else []
  }

  /** The coordinates and indices one parsed line appends. */
  function Contribution(p: ObjLine): Mesh
  {
    match p
    case Vertex(x, y, z) => Mesh([x, y, z], [])
    case Face(ix) => Mesh([], FaceTriangles(ix))
    case _ => Mesh([], [])
  }

  /** Appending one mesh's buffers to another's. */
  function Concat(a: Mesh, b: Mesh): (c: Mesh)
    ensures |c.points| == |a.points| + |b.points| && |c.triangles| == |a.triangles| + |b.triangles|
  {
    Mesh(a.points + b.points, a.triangles + b.triangles)
  }

  lemma ConcatAssoc(a: Mesh, b: Mesh, c: Mesh)
    ensures Concat(a, Concat(b, c)) == Concat(Concat(a, b), c)
  {
    assert a.points + (b.points + c.points) == (a.points + b.points) + c.points;
    assert a.triangles + (b.triangles + c.triangles) == (a.triangles + b.triangles) + c.triangles;
  }

  /** Number of vertex lines with all three coordinates. */
  function VertexCount(lines: seq<string>, lib: FloatLib): nat
  {
    if |lines| == 0 then 0
    else (if ParseLine(lines[0], lib).Vertex? then 1 else 0) + VertexCount(lines[1..], lib)
  }

  /** Number of face lines whose face loop collected exactly `k` tokens. */
  function FaceCount(lines: seq<string>, lib: FloatLib, k: nat): nat
  {
    if |lines| == 0 then 0
    else
      var p := ParseLine(lines[0], lib);
      (if p.Face? && |p.indices| == k then 1 else 0) + FaceCount(lines[1..], lib, k)
  }

  /** `LoadOBJ` on the lines of a file that could be opened. The load fails exactly when
      some vertex line lacks a coordinate; otherwise every vertex line adds three
      coordinates and every face adds one triangle, two for a quad. */
  function LoadObj(lines: seq<string>, lib: FloatLib): (r: Result<Mesh, LoadError>)
    ensures r.Failure? <==> exists i :: 0 <= i < |lines| && ParseLine(lines[i], lib).ShortVertex?
    ensures r.Failure? ==> r.error == MissingCoordinate
    ensures r.Success? ==> |r.value.points| == 3 * VertexCount(lines, lib)
    ensures r.Success? ==> |r.value.triangles| == 3 * (FaceCount(lines, lib, 3) + 2 * FaceCount(lines, lib, 4))
    decreases |lines|
  {
    hide ParseLine;
    if |lines| == 0 then Success(Mesh([], []))
    else
      var p := ParseLine(lines[0], lib);
      if p.ShortVertex? then Failure(MissingCoordinate)
      else
        match LoadObj(lines[1..], lib)
        case Failure(e) =>
          assert forall i :: 0 < i < |lines| ==> lines[i] == lines[1..][i - 1];
          Failure(e)
        case Success(m) =>
          assert forall i :: 0 < i < |lines| ==> lines[i] == lines[1..][i - 1];
          Success(Concat(Contribution(p), m))
  }

  /** Loads of two pieces of a file combine: the first failure wins, otherwise the
      buffers of the second piece follow those of the first. */
  function Join(a: Result<Mesh, LoadError>, b: Result<Mesh, LoadError>): Result<Mesh, LoadError>
  {
    match a
    case Failure(e) => Failure(e)
    case Success(m) =>
      match b
      case Failure(e) => Failure(e)
      case Success(n) => Success(Concat(m, n))
  }

  /** Reading a file is reading its lines one after the other: a file made of two
      pieces of lines loads as the two pieces joined. */
  lemma {:induction false} LoadObjAppend(a: seq<string>, b: seq<string>, lib: FloatLib)
    ensures LoadObj(a + b, lib) == Join(LoadObj(a, lib), LoadObj(b, lib))
    decreases |a|
  {
    hide ParseLine, VertexCount, FaceCount;
    if |a| == 0 {
      assert a + b == b;
      match LoadObj(b, lib)
      case Failure(_) =>
      case Success(n) =>
        assert Concat(Mesh([], []), n) == n;
    } else {
      assert (a + b)[0] == a[0];
      assert (a + b)[1..] == a[1..] + b;
      LoadObjAppend(a[1..], b, lib);
      var p := ParseLine(a[0], lib);
      if !p.ShortVertex? {
        match LoadObj(a[1..], lib)
        case Failure(_) =>
        case Success(m) =>
          match LoadObj(b, lib)
          case Failure(_) =>
          case Success(n) =>
            ConcatAssoc(Contribution(p), m, n);
      }
    }
  }

  /** The vertices a successful load keeps are the coordinates of the vertex lines in
      file order, three per line. */
  function VertexCoords(lines: seq<string>, lib: FloatLib): seq<real>
  {
    if |lines| == 0 then []
    else
      var p := ParseLine(lines[0], lib);
      (if p.Vertex? then [p.x, p.y, p.z] else []) + VertexCoords(lines[1..], lib)
  }

  /** The triangles of the faces in file order. */
  function FaceIndices(lines: seq<string>, lib: FloatLib): seq<int>
  {
    if |lines| == 0 then []
    else
      var p := ParseLine(lines[0], lib);
      (if p.Face? then FaceTriangles(p.indices) else []) + FaceIndices(lines[1..], lib)
  }

  /** A successful load holds the vertex-line coordinates and the face triangles, each
      in file order, independently of how the two kinds of lines interleave. */
  lemma {:induction false} LoadObjContents(lines: seq<string>, lib: FloatLib)
    requires LoadObj(lines, lib).Success?
    ensures LoadObj(lines, lib).value == Mesh(VertexCoords(lines, lib), FaceIndices(lines, lib))
    decreases |lines|
  {
    hide ParseLine;
    if |lines| > 0 {
      LoadObjContents(lines[1..], lib);
    }
  }
}
