/** `compute_convex_decomp` and `ComputeHACD`: clamp the parameters, route the input file
    to a reader by its extension, run the engine, aggregate the hulls and write the
    output files. The engine, the file system and the random stream are parameters. */
module Pipeline {

  import opened Options
  import opened Text
  import opened Meshes
  import opened Params
  import opened Paths
  import opened OffReader
  import opened ObjReader
  import opened Aggregate
  import opened Outputs

  /** The decomposition engine, whose internals are not modelled: `Compute` either fails
      (`None`) or yields the convex hulls that `GetConvexHull` then returns in order. */
  datatype Engine = Engine(compute: (Mesh, Parameters) -> Option<seq<ConvexHull>>)

  /** Everything outside the binding's own logic: the readable files and their text,
      which output files can be opened, the engine, the float conversions, and the
      values `rand()` returns from now on. */
  datatype Env = Env(
    files: map<string, string>,
    canOpen: string -> bool,
    engine: Engine,
    lib: FloatLib,
    draws: seq<nat>)

  /** How a call ends. `Returned` carries `ComputeHACD`'s return code, the aggregated
      hulls handed back to the caller and the files written; `Raised` is the
      `std::length_error` a negative OFF count throws out of `vector::resize`;
      `DrawsExhausted` means the modelled random stream was too short, which the real
      one never is. */
  datatype Outcome =
    | Returned(code: int, result: Aggregated, writes: seq<FileWrite>)
    | Raised
    | DrawsExhausted

  const NoHulls: Aggregated := Aggregated([], [])

  /** The input dispatch and the reader it selects. An unsupported extension is refused
      before any file is touched; a supported one fails when the file cannot be read,
      and otherwise the reader decides. */
  function LoadInput(env: Env, name: string): (r: Result<Mesh, LoadError>)
    ensures r == Failure(NotSupported) <==> InputFormatOf(name) == UnsupportedInput
    ensures r == Failure(FileNotFound) <==> InputFormatOf(name) != UnsupportedInput && name !in env.files
    ensures r == Failure(NegativeSize) ==> InputFormatOf(name) == OffInput
    ensures r == Failure(MissingCoordinate) ==> InputFormatOf(name) == ObjInput
  {
    var r := Dispatch(env, name);
    DispatchErrors(env, name, r);
    r
  }

  function Dispatch(env: Env, name: string): Result<Mesh, LoadError>
  {
    match InputFormatOf(name)
    case UnsupportedInput => Failure(NotSupported)
    case OffInput => if name in env.files then LoadOff(Words(env.files[name]), env.lib) else Failure(FileNotFound)
    case ObjInput => if name in env.files then LoadObj(Lines(env.files[name]), env.lib) else Failure(FileNotFound)
  }

  /** Where each load error of the dispatch comes from. */
  lemma DispatchErrors(env: Env, name: string, r: Result<Mesh, LoadError>)
    requires r == Dispatch(env, name)
    ensures r == Failure(NotSupported) <==> InputFormatOf(name) == UnsupportedInput
    ensures r == Failure(FileNotFound) <==> InputFormatOf(name) != UnsupportedInput && name !in env.files
    ensures r == Failure(NegativeSize) ==> InputFormatOf(name) == OffInput
    ensures r == Failure(MissingCoordinate) ==> InputFormatOf(name) == ObjInput
  {
    if InputFormatOf(name) != UnsupportedInput && name in env.files {
      var text := env.files[name];
      if InputFormatOf(name) == OffInput {
        var lr := LoadOff(Words(text), env.lib);
        assert lr.Failure? ==> lr.error == FormatNotRecognized || lr.error == NegativeSize;
      } else {
        var lr := LoadObj(Lines(text), env.lib);
        assert lr.Failure? ==> lr.error == MissingCoordinate;
      }
    }
  }

  /** `ComputeHACD`. It returns -1 exactly when the input could not be routed or loaded,
      and 0 otherwise, including when the engine fails: then nothing is returned to the
      caller and nothing is written. When the engine succeeds, the caller gets the
      aggregated hulls and, if output was asked for, the files of `WriteOutput`. */
  function ComputeHacd(env: Env, params: Parameters, input: string, output: string,
                       writeOutput: bool, separate: bool): (o: Outcome)
    ensures o.Raised? <==> LoadInput(env, input) == Failure(NegativeSize)
    ensures o.Returned? ==> o.code == 0 || o.code == -1
    ensures o.Returned? && o.code == -1 <==> LoadInput(env, input).Failure? && LoadInput(env, input).error != NegativeSize
    ensures o.Returned? && o.code == -1 ==> o.result == NoHulls && o.writes == []
    ensures o.DrawsExhausted? ==> writeOutput && OutputFormatOf(output) == VrmlOutput
    ensures LoadInput(env, input).Success? && env.engine.compute(LoadInput(env, input).value, params).None? ==>
      o == Returned(0, NoHulls, [])
  {
    match LoadInput(env, input)
    case Failure(NegativeSize) => Raised
    case Failure(_) => Returned(-1, NoHulls, [])
    case Success(m) =>
      match env.engine.compute(m, params)
      case None => Returned(0, NoHulls, [])
      case Some(hulls) =>
        var result := AggregateHulls(hulls);
        if !writeOutput then Returned(0, result, [])
        else
          match WriteOutput(env.lib, env.canOpen, output, separate, hulls, env.draws)
          case None => DrawsExhausted
          case Some(ws) => Returned(0, result, ws)
  }

  /** When the engine succeeds, the caller gets the aggregated hulls and the files of
      `WriteOutput`, or none when no output was asked for. */
  lemma ComputeHacdSucceeds(env: Env, params: Parameters, input: string, output: string,
                            writeOutput: bool, separate: bool, m: Mesh, hulls: seq<ConvexHull>)
    requires LoadInput(env, input) == Success(m) && env.engine.compute(m, params) == Some(hulls)
    ensures var o := ComputeHacd(env, params, input, output, writeOutput, separate);
      var planned := if writeOutput then WriteOutput(env.lib, env.canOpen, output, separate, hulls, env.draws) else Some([]);
      && (o.DrawsExhausted? <==> planned.None?)
      && (o.Returned? ==> o.code == 0 && o.result == AggregateHulls(hulls) && Some(o.writes) == planned)
  {
    hide AggregateHulls, WriteOutput, LoadInput;
  }

  /** `compute_convex_decomp`: an empty output path means no output is written; the
      parameters are clamped before `ComputeHACD` sees them. The return code tells the
      caller exactly whether the input was routed and loaded. */
  function ComputeConvexDecomp(env: Env, input: string, output: string, p: Parameters, separate: bool): (o: Outcome)
    ensures o.Returned? ==> o.code == 0 || o.code == -1
    ensures o.Returned? ==> (o.code == -1 <==> LoadInput(env, input).Failure?)
    ensures o.Raised? <==> LoadInput(env, input) == Failure(NegativeSize)
    ensures output == [] && o.Returned? ==> o.writes == []
  {
    ComputeHacd(env, Normalize(p), input, output, output != [], separate)
  }

  /** The engine runs on the clamped parameters: when it succeeds on them, the caller
      gets its hulls, aggregated. */
  lemma ComputeConvexDecompEngineInput(env: Env, input: string, output: string, p: Parameters, separate: bool,
                                       m: Mesh, hulls: seq<ConvexHull>)
    requires LoadInput(env, input) == Success(m) && env.engine.compute(m, Normalize(p)) == Some(hulls)
    ensures var o := ComputeConvexDecomp(env, input, output, p, separate);
      o.Returned? ==> o.code == 0 && o.result == AggregateHulls(hulls)
  {
    ComputeHacdSucceeds(env, Normalize(p), input, output, output != [], separate, m, hulls);
  }

  /** Only the clamped parameters matter: passing parameters that are already clamped
      changes nothing. */
  lemma ComputeConvexDecompClamped(env: Env, input: string, output: string, p: Parameters, separate: bool)
    ensures ComputeConvexDecomp(env, input, output, p, separate)
      == ComputeConvexDecomp(env, input, output, Normalize(p), separate)
  {
    NormalizeIdempotent(p);
  }
}
