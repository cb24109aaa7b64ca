# py_vhacd mesh interchange, in Dafny

A model of the Python binding of V-HACD (`src/bindings/py_vhacd/py_vhacd.cpp`), the
part that sits around the convex-decomposition engine: `compute_convex_decomp` clamps
three parameters and calls `ComputeHACD`. `ComputeHACD` then:

- picks a reader from the input file's extension (`GetFileExtension`);
- loads the mesh with `LoadOFF` or `LoadOBJ`;
- runs the engine, which is a parameter of the model;
- repacks every convex hull into the nested vertex and face lists handed back to
  Python;
- writes the hulls as one combined file or as one file per hull. OBJ files go through
  `SaveOBJ` with a running vertex offset. VRML files go through `SaveVRML2`, with a
  random diffuse colour from `ComputeRandomColor`.

`SaveOFF` is modelled as well, although no live code path calls it.

Modules, one file each:

| file | module | what it holds |
|---|---|---|
| `seqs.dfy` | `Seqs` | `Flatten` and its algebra |
| `options.dfy` | `Options` | `Option`, `Result` |
| `text.dfy` | `Text` | characters, `atoi`, decimal printing, `strtok`/white-space splitting, `fgets` lines |
| `mesh.dfy` | `Meshes` | `Mesh` (flat point and index buffers), load errors, the float conversions as a parameter record |
| `params.dfy` | `Params` | the parameter record and its clamps |
| `paths.dfy` | `Paths` | input extension, output path split, per-hull file names |
| `off_reader.dfy` | `OffReader` | `LoadOFF` as `fscanf` over words |
| `obj_reader.dfy` | `ObjReader` | `LoadOBJ` line by line |
| `aggregate.dfy` | `Aggregate` | the hull repacking loop |
| `writers.dfy` | `Writers` | `SaveOBJ`, `SaveOFF`, `SaveVRML2` as lists of lines |
| `color.dfy` | `Colors` | `ComputeRandomColor` over a finite draw sequence |
| `output.dfy` | `Outputs` | the `write_output` block: combined and per-hull, OBJ and VRML |
| `obj_read_back.dfy`, `off_read_back.dfy`, `vrml_read_back.dfy` | `ObjReadBack`, `OffReadBack`, `VrmlReadBack` | what the readers make of the writers' output |
| `obj_files.dfy` | `ObjFiles` | reading back whole combined and per-hull OBJ output |
| `pipeline.dfy` | `Pipeline` | `ComputeHACD` and `compute_convex_decomp` end to end |

Conventions:

- Coordinates are mathematical reals.
- `strtod` and the two float formats (fixed with six decimals, and the stream default)
  are the fields of a `FloatLib` parameter. The read-back lemmas only assume that
  every printed float is one word that `strtod` converts to its end (`Coherent`).
- Files are lists of lines. `FileText` joins them, each ended by a newline.
- The OBJ reader sees those lines as `fgets` returns them. The OFF reader sees the
  white-space separated words `fscanf` consumes.

Some behaviours of the binding are easy to misread. The model keeps them as the code
has them:

- `ComputeHACD` returns 0, not an error code, when the engine fails. The caller gets
  no hulls and nothing is written.
- The combined VRML output is one whole VRML document per hull, header included, one
  after the other in the same file. It is not one group of shapes.
- The combined output with zero hulls is an empty file.
- The OFF reader skips a non-triangle face with a loop that scans into its own bound.
  How many words it skips therefore depends on the values it reads.
  `OffReader.SmallFirstIndexEndsSkip` shows the effect: a quad such as `4 0 1 2 3`
  loses only its size word and its first index, and the next face is read from the
  quad's remaining indices. The model keeps this as written, so it reads such files
  the way the binding does.

## Model

| member | source | states |
|---|---|---|
| Params.Normalize | src/bindings/py_vhacd/py_vhacd.cpp:190-192 | a resolution below 64 becomes 0 and one of at least 64 is kept; the two down-sampling factors are raised to 1 when below 1 and kept otherwise; every other parameter is unchanged; the result is normal |
| Params.NormalizeFixesExactlyNormal | src/bindings/py_vhacd/py_vhacd.cpp:190-192 | the clamps leave a parameter record unchanged if and only if it already satisfies the three bounds |
| Params.NormalizeIdempotent | src/bindings/py_vhacd/py_vhacd.cpp:190-192 | clamping twice is clamping once |
| Paths.FileExtension | src/bindings/py_vhacd/py_vhacd.cpp:478-488 | the extension is empty exactly when the name has no dot; otherwise it starts with a dot, holds no other dot, and is the upper-cased tail of the name |
| Paths.InputOffIff | src/bindings/py_vhacd/py_vhacd.cpp:264-270 | the OFF reader is selected exactly for names ending in `.off` in any letter case |
| Paths.InputObjIff | src/bindings/py_vhacd/py_vhacd.cpp:271-281 | the OBJ reader is selected exactly for names ending in `.obj` in any letter case; anything else is refused |
| Paths.SplitOutputPath | src/bindings/py_vhacd/py_vhacd.cpp:349-355 | a path longer than four characters splits into its stem and its lower-cased last four characters, which put back together give the path; a shorter path gives two empty strings |
| Paths.OutputFormatIff | src/bindings/py_vhacd/py_vhacd.cpp:351-400 | OBJ (resp. VRML) output is chosen exactly when the path is longer than four characters and its last four, lower-cased, are `.obj` (resp. `.wrl`) |
| Paths.PerHullName | src/bindings/py_vhacd/py_vhacd.cpp:386 | a per-hull name is the stem, an underscore, the decimal hull index and the extension |
| Paths.PerHullNamesDistinct | src/bindings/py_vhacd/py_vhacd.cpp:421 | different hulls get different file names, so no per-hull file overwrites another |
| OffReader.LoadOff | src/bindings/py_vhacd/py_vhacd.cpp:500-549 | the load fails with "format not recognized" exactly when the first word is not `OFF`; it fails with a negative size exactly when a declared vertex or face count is negative; otherwise the buffers have 3·nv coordinates and 3·nf index slots |
| OffReader.ReadFacesCursor | src/bindings/py_vhacd/py_vhacd.cpp:527-539 | over the face loop the write cursor advances by three for each face whose size reads as 3 and by nothing for any other face |
| OffReader.ReadFacesKeeps | src/bindings/py_vhacd/py_vhacd.cpp:527-539 | the face loop writes no index slot outside the range it advanced over, so slots past the last triangle keep their zeros |
| OffReader.ScanInt | src/bindings/py_vhacd/py_vhacd.cpp:517-519 | `%i` changes its target and consumes input exactly when an integer starts the stream; it then reads the integer's value, and a word it converts only in part (such as `0.5`) stays in front with its unconverted rest |
| OffReader.ScanFloat | src/bindings/py_vhacd/py_vhacd.cpp:523-525 | `%f` changes its target and consumes input exactly when `strtod` converts a number at the front; a word converted to its end is consumed whole, otherwise its unconverted rest stays in front |
| OffReader.FractionStaysUnread | src/bindings/py_vhacd/py_vhacd.cpp:528-537 | `%i` reads a number with a fractional part as its integer part and leaves the fraction, on which the next `%i` fails and consumes nothing |
| OffReader.StuckFacesStoreNothing | src/bindings/py_vhacd/py_vhacd.cpp:527-539 | once non-integer input is in front, the remaining faces leave the stream and the index buffer unchanged; the cursor moves only if the face size left from before is 3 |
| OffReader.SkipIndicesConsumes | src/bindings/py_vhacd/py_vhacd.cpp:534-538 | the skip loop scans integers until one whose value is at most its own iteration count plus one, whatever the face size it started from |
| OffReader.SmallFirstIndexEndsSkip | src/bindings/py_vhacd/py_vhacd.cpp:527-539 | a non-triangle face whose first index is 0 or 1 loses only its size word and that index; no triangle is stored |
| OffReader.LoadOffOfWords | src/bindings/py_vhacd/py_vhacd.cpp:500-549 | an OFF file of triangles whose counts and indices are whole integer words and whose coordinates are whole number words loads as exactly those coordinates and indices |
| ObjReader.ParseLine | src/bindings/py_vhacd/py_vhacd.cpp:562-596 | a line is a vertex exactly when it starts with `v` and a space, and fails exactly when fewer than three tokens follow; it is a face exactly when it starts with `f`; a face's indices are its tokens up to the first starting with a newline, each minus one |
| ObjReader.FaceTriangles | src/bindings/py_vhacd/py_vhacd.cpp:597-610 | a triangle is kept as is, a quad becomes the two triangles (0,1,2) and (0,2,3), any other face adds nothing |
| ObjReader.LoadObj | src/bindings/py_vhacd/py_vhacd.cpp:551-621 | the load fails exactly when some vertex line has fewer than three tokens; otherwise there are three coordinates per vertex line and 3·(#triangles + 2·#quads) indices |
| ObjReader.LoadObjAppend | src/bindings/py_vhacd/py_vhacd.cpp:562-612 | loading a file made of two pieces is loading each piece and concatenating, the first failure winning |
| ObjReader.LoadObjContents | src/bindings/py_vhacd/py_vhacd.cpp:562-612 | a successful load holds the vertex coordinates and the face triangles, each in file order |
| Aggregate.AggregateHulls | src/bindings/py_vhacd/py_vhacd.cpp:298-345 | one entry per hull in engine order; hull p has NPoints vertex triples and NTriangles face triples, which flatten back to its buffers |
| Writers.SaveObj | src/bindings/py_vhacd/py_vhacd.cpp:725-758 | an object line naming the part, one `v` line per vertex, then one `f` line per triangle with every index shifted by the offset |
| Writers.SaveOff | src/bindings/py_vhacd/py_vhacd.cpp:624-651 | `OFF`, the counts with zero edges, one line per vertex, one `3 a b c` line per triangle |
| Writers.SaveVrml2 | src/bindings/py_vhacd/py_vhacd.cpp:654-722 | the 22 header lines with the material, the coordinate block only when there are points, the index block only when there are triangles, and the four closing lines |
| ObjReadBack.SaveObjReadBack | src/bindings/py_vhacd/py_vhacd.cpp:725-758 | a written OBJ file loads as the reprinted coordinates and the triangles with every index moved by offset − 1 |
| OffReadBack.SaveOffReadBack | src/bindings/py_vhacd/py_vhacd.cpp:624-651 | a written OFF file loads, with the reprinted coordinates and exactly the original whole triangles |
| VrmlReadBack.SaveVrml2Indices | src/bindings/py_vhacd/py_vhacd.cpp:702-710 | line i of the index block reads as triangle i's three stored indices, with no offset, then −1 |
| Colors.Channel | src/bindings/py_vhacd/py_vhacd.cpp:494-496 | a channel is a hundredth between 0 and 0.99, namely the draw modulo 100 divided by 100 |
| Colors.DrawUntilDistinctFirst | src/bindings/py_vhacd/py_vhacd.cpp:493-497 | from a colour with two equal channels, the loop succeeds exactly when some drawn triple is distinct, and stops at the first one, leaving the draws after it |
| Colors.ComputeRandomColor | src/bindings/py_vhacd/py_vhacd.cpp:490-498 | only the diffuse colour changes; it becomes the first drawn triple with pairwise different channels, and the draws after it are left; it fails exactly when there is no such triple |
| Colors.ComputeRandomColorIgnoresMaterial | src/bindings/py_vhacd/py_vhacd.cpp:492 | the colour chosen and the draws consumed do not depend on the previous diffuse colour |
| Outputs.ObjCombinedOffsets | src/bindings/py_vhacd/py_vhacd.cpp:400-417 | the combined OBJ file is the hulls' sections in order, hull p written with offset 1 + the number of vertices of the hulls before it |
| Outputs.ObjPerHullSound | src/bindings/py_vhacd/py_vhacd.cpp:418-432 | each per-hull OBJ file is written only if it opens, is named after its hull, and holds that hull alone with offset 1 |
| Outputs.ObjPerHullComplete | src/bindings/py_vhacd/py_vhacd.cpp:418-432 | every hull whose file opens gets its OBJ file |
| Outputs.ColorsFor | src/bindings/py_vhacd/py_vhacd.cpp:373-376 | n successive colour draws give n materials, each a recoloured copy of the default material |
| Outputs.VrmlCombinedDocuments | src/bindings/py_vhacd/py_vhacd.cpp:367-382 | the combined VRML file is one complete VRML document per hull in order, hull i with the i-th drawn material; drawing runs out exactly when the sequence of colours does |
| Outputs.VrmlPerHullFiles | src/bindings/py_vhacd/py_vhacd.cpp:383-397 | every per-hull VRML file belongs to a hull whose file opens, is named after it and holds that hull alone with a recoloured material; every such hull gets a file |
| Outputs.WriteOutput | src/bindings/py_vhacd/py_vhacd.cpp:347-433 | another extension writes nothing; OBJ output never runs out of draws; combined mode writes at most one file, at the output path and only if it opens |
| ObjFiles.ObjCombinedReadBack | src/bindings/py_vhacd/py_vhacd.cpp:400-417 | the combined OBJ file loads as all hulls merged into one mesh with one vertex numbering |
| ObjFiles.CombinedIndexAddressesOwnHull | src/bindings/py_vhacd/py_vhacd.cpp:406-410 | in the loaded combined file, an index of hull p that named its vertex t names the reprinted vertex t of hull p, never a vertex of another hull |
| ObjFiles.ObjPerHullReadBack | src/bindings/py_vhacd/py_vhacd.cpp:418-432 | every per-hull OBJ file loads as its own hull, with indices unchanged |
| Pipeline.LoadInput | src/bindings/py_vhacd/py_vhacd.cpp:264-281 | an unsupported extension is refused exactly when it is neither `.off` nor `.obj`; a missing file fails exactly when the extension is supported; negative sizes come only from OFF, missing coordinates only from OBJ |
| Pipeline.ComputeHacd | src/bindings/py_vhacd/py_vhacd.cpp:217-476 | the call throws exactly on a negative OFF count; the code is 0 or −1, and −1 exactly when the input could not be routed or loaded, with nothing returned or written; an engine failure returns 0 with no hulls and no files |
| Pipeline.ComputeHacdSucceeds | src/bindings/py_vhacd/py_vhacd.cpp:283-458 | after a successful engine run the code is 0, the caller gets the aggregated hulls, and the files written are those of the output stage, or none when no output was asked for |
| Pipeline.ComputeConvexDecomp | src/bindings/py_vhacd/py_vhacd.cpp:158-201 | the code is 0 or −1, and −1 exactly when loading failed; an empty output path writes no file |
| Pipeline.ComputeConvexDecompEngineInput | src/bindings/py_vhacd/py_vhacd.cpp:190-197 | the engine runs on the clamped parameters, and its hulls come back aggregated |
| Pipeline.ComputeConvexDecompClamped | src/bindings/py_vhacd/py_vhacd.cpp:190-197 | passing parameters that are already clamped gives the same outcome |

## Left out

- The pybind11 glue, the loggers, the callback and the verbose console output do not
  change any result, so they are not modelled.
- The decomposition engine (`CreateVHACD`, `Compute`, `GetConvexHull`, `Clean`,
  `Release`) is a function parameter. It either fails or returns the hulls in order.
- Float parsing and printing are the `FloatLib` parameter. Single- versus
  double-precision rounding (`vector<float>`, the `(float)` casts, `100.0f`) is not
  modelled.
- `rand()` is a finite sequence of draws. The model can run out of draws, which the C
  stream never does; that outcome is `DrawsExhausted`.
- The commented-out `.off` output branch is dead code, so it is not modelled.
- Writers.SaveOff: only the file-opened branch is modelled, because no live code calls
  `SaveOFF`.
- `LoadOBJ` reads lines with a 1024-byte `fgets` buffer. The model reads whole lines,
  so longer lines are not split.
- `LoadOBJ` writes into a four-slot `ip` array. Faces with more than four indices
  overflow it; the model only counts those indices and drops the face.
- `LoadOFF` reads the magic word into a 1024-byte buffer without a width limit. A file
  with no words leaves it uninitialised; the model reads either case as "format not
  recognized".
- OffReader.ScanInt: `%i` also accepts octal and hexadecimal prefixes. The model reads
  every integer as decimal, the way `atoi` does.
- OffReader.ScanInt: a sign with no digit after it (`-` alone) is consumed by `fscanf`
  before the conversion fails. The model leaves it unread, so every later `%i` fails
  on it.
- OffReader.ScanFloat: `fscanf` can push back only one character, so on text such as
  `1e` or `1e+` it consumes more than `strtod` converts and fails. The model takes the
  converted length and the value from `strtod` alone.
- ObjReader.AfterTag: a last line that is just `f` with no newline makes the source
  split `buffer + 2`, past the end of the line's text. It then reads the bytes the
  previous line left in the buffer, or uninitialised memory on a one-line file. The
  model reads no indices from such a line, because those bytes are not part of the
  line.
- ObjReader.Indices: `atoi` overflow on an index with more digits than an `int` holds
  is undefined in C. The model reads such an index as its unbounded value.
- Outputs.ObjCombinedFrom: the running `vertexOffset` (lines 406-410) and
  `triangles[f] + vertexOffset` in `SaveOBJ` (lines 746-748) are 32-bit `int` sums
  that can overflow for huge meshes. The model uses unbounded integers.
- OffReader.ScanInt: C leaves `%i` undefined when the number does not fit in an `int`
  (glibc usually cuts it to 32 bits, so `OFF 4294967295 0 0` gives a count of -1). This
  applies to the counts, face sizes and indices alike. The model keeps the unbounded value.
- OffReader.ScanOff: the face-size variable `s` is uninitialised in the source. The
  model starts it at 0; it only matters for a file whose first face size cannot be
  read.
- OffReader.LoadOff: `nv * 3` and `nf * 3` are 32-bit `int` products and can overflow
  for huge counts. The model uses unbounded integers.
- Params.Normalize: the clamps are modelled on signed integers. The engine's own
  parameter types are not part of this model, so an unsigned wrap of a negative input
  is not represented.
- The test script under `src/bindings/test/scripts` exercises the binding from Python
  and holds no logic of its own.
