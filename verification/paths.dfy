/** File-name handling: the input extension that selects a reader, and the output
    path that selects a writer and names the per-hull files. */
module Paths {

  import opened Options
  import opened Text

  /** `find_last_of(".")`: the position of the last dot, or nothing when there is none. */
  function LastDot(s: string): (r: Option<nat>)
    ensures r.None? <==> forall i :: 0 <= i < |s| ==> s[i] != '.'
    ensures r.Some? ==> r.value < |s| && s[r.value] == '.'
    ensures r.Some? ==> forall i :: r.value < i < |s| ==> s[i] != '.'
  {
    if |s| == 0 then None
    else if s[|s| - 1] == '.' then Some(|s| - 1)
    else LastDot(s[..|s| - 1])
  }

  /** `GetFileExtension`: the text from the last dot to the end, upper-cased, or the
      empty string when the name has no dot. */
  function FileExtension(name: string): (ext: string)
    ensures |ext| <= |name|
    ensures ext == [] <==> forall i :: 0 <= i < |name| ==> name[i] != '.'
    ensures ext != [] ==> ext[0] == '.' && forall i :: 0 < i < |ext| ==> ext[i] != '.'
    ensures ext != [] ==> ext == UpperString(name[|name| - |ext|..])
  {
    match LastDot(name)
    case None => []
    case Some(i) => UpperString(name[i..])
  }

  /** The readers the binding can route an input file to. */
  datatype InputFormat = OffInput | ObjInput | UnsupportedInput

  /** Input dispatch: only the upper-cased extensions `.OFF` and `.OBJ` have a reader. */
  function InputFormatOf(name: string): InputFormat
  {
    var ext := FileExtension(name);
    if ext == ".OFF" then OffInput
    else if ext == ".OBJ" then ObjInput
    else UnsupportedInput
  }

  /** The last `|suffix|` characters of `name`, upper-cased, are `suffix`. */
  predicate EndsWithUpper(name: string, suffix: string)
  {
    |name| >= |suffix| && UpperString(name[|name| - |suffix|..]) == suffix
  }

  /** A dot followed by three characters none of which is a dot. */
  lemma ExtensionOfDotted(name: string, suffix: string)
    requires |suffix| == 4 && suffix[0] == '.'
    requires forall i :: 1 <= i < 4 ==> suffix[i] != '.'
    requires EndsWithUpper(name, suffix)
    ensures FileExtension(name) == suffix
  {
    var n := |name|;
    var tail := name[n - 4..];
    assert UpperString(tail)[0] == '.';
    assert name[n - 4] == '.';
    forall i | n - 4 < i < n
      ensures name[i] != '.'
    {
      assert UpperString(tail)[i - (n - 4)] != '.';
    }
    assert LastDot(name) == Some(n - 4);
  }

  /** The OFF reader is chosen exactly for names ending in ".off" in any letter case. */
  lemma InputOffIff(name: string)
    ensures InputFormatOf(name) == OffInput <==> EndsWithUpper(name, ".OFF")
  {
    if EndsWithUpper(name, ".OFF") {
      ExtensionOfDotted(name, ".OFF");
    }
  }

  /** The OBJ reader is chosen exactly for names ending in ".obj" in any letter case. */
  lemma InputObjIff(name: string)
    ensures InputFormatOf(name) == ObjInput <==> EndsWithUpper(name, ".OBJ")
  {
    if EndsWithUpper(name, ".OBJ") {
      ExtensionOfDotted(name, ".OBJ");
    }
  }

  /** The writers the output path can select. */
  datatype OutputFormat = VrmlOutput | ObjOutput | NoOutput

  /** How the orchestrator splits the output path: the path without its last four
      characters, and those four characters lower-cased. A path of four characters or
      fewer leaves both empty. */
  function SplitOutputPath(out: string): (r: (string, string))
    ensures |out| > 4 ==> |r.0| == |out| - 4 && r.0 + out[|out| - 4..] == out
    ensures |out| > 4 ==> |r.1| == 4 && forall i :: 0 <= i < 4 ==> r.1[i] == Lower(out[|out| - 4 + i])
    ensures |out| <= 4 ==> r == ([], [])
  {
    if |out| > 4 then (out[..|out| - 4], LowerString(out[|out| - 4..])) else ([], [])
  }

  /** Output dispatch on the lower-cased last four characters. */
  function OutputFormatOf(out: string): OutputFormat
  {
    var ext := SplitOutputPath(out).1;
    if ext == ".wrl" then VrmlOutput
    else if ext == ".obj" then ObjOutput
    else NoOutput
  }

  /** The last four characters of `name`, lower-cased, are `suffix`. */
  predicate EndsWithLower(name: string, suffix: string)
  {
    |name| >= 4 && |suffix| == 4 && LowerString(name[|name| - 4..]) == suffix
  }

  /** A writer is chosen only for paths longer than four characters whose last four,
      lower-cased, are ".obj" or ".wrl"; in particular ".obj" alone writes nothing. */
  lemma OutputFormatIff(out: string)
    ensures OutputFormatOf(out) == ObjOutput <==> |out| > 4 && EndsWithLower(out, ".obj")
    ensures OutputFormatOf(out) == VrmlOutput <==> |out| > 4 && EndsWithLower(out, ".wrl")
  {
  }

  /** The name of the file holding hull `p` in per-hull mode: base, underscore, the
      decimal hull index, then the lower-cased extension. */
  function PerHullName(base: string, p: nat, ext: string): (name: string)
    ensures |name| == |base| + 1 + |NatToString(p)| + |ext|
    ensures name[..|base|] == base && name[|base|] == '_'
    ensures name[|base| + 1 .. |base| + 1 + |NatToString(p)|] == NatToString(p)
    ensures name[|name| - |ext|..] == ext
  {
    base + "_" + NatToString(p) + ext
  }

  /** Different hulls get different file names, so per-hull mode never overwrites. */
  lemma PerHullNamesDistinct(base: string, ext: string, p: nat, q: nat)
    requires p != q
    ensures PerHullName(base, p, ext) != PerHullName(base, q, ext)
  {
    if PerHullName(base, p, ext) == PerHullName(base, q, ext) {
      var a := PerHullName(base, p, ext);
      var sp := NatToString(p);
      var sq := NatToString(q);
      assert |sp| == |sq|;
      assert a[|base| + 1..|base| + 1 + |sp|] == sp;
      assert PerHullName(base, q, ext)[|base| + 1..|base| + 1 + |sq|] == sq;
      NatToStringInjective(p, q);
    }
  }
}
