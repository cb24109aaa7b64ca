/** Characters and strings with the C library's meaning: white space as `isspace`
    sees it, ASCII case mapping, `atoi`, decimal printing of integers, and the three
    ways the source cuts text into pieces (`fscanf("%s")` words, `strtok(.., " ")`
    tokens and `fgets` lines). */
module Text {

  import Seqs

  /** `isspace` in the C locale: space, tab, newline, vertical tab, form feed, carriage return. */
  predicate IsSpace(c: char)
  {
    c == ' ' || c == '\t' || c == '\n' || c == '\r' || c as int == 11 || c as int == 12
  }

  /** The only delimiter the OBJ reader hands to `strtok`. */
  predicate IsBlank(c: char)
  {
    c == ' '
  }

  predicate IsDigit(c: char)
  {
    '0' <= c <= '9'
  }

  /** `toupper` in the C locale. */
  function Upper(c: char): (u: char)
    ensures u == '.' <==> c == '.'
    ensures 'A' <= u <= 'Z' <==> 'A' <= c <= 'Z' || 'a' <= c <= 'z'
  {
    if 'a' <= c <= 'z' then (c as int - 32) as char else c
  }

  /** `tolower` in the C locale. */
  function Lower(c: char): (l: char)
    ensures l == '.' <==> c == '.'
    ensures 'a' <= l <= 'z' <==> 'A' <= c <= 'Z' || 'a' <= c <= 'z'
  {
    if 'A' <= c <= 'Z' then (c as int + 32) as char else c
  }

  /** `std::transform(.., ::toupper)` over a whole string. */
  function UpperString(s: string): (u: string)
    ensures |u| == |s|
    ensures forall i :: 0 <= i < |s| ==> u[i] == Upper(s[i])
  {
    seq(|s|, i requires 0 <= i < |s| => Upper(s[i]))
  }

  /** `std::transform(.., ::tolower)` over a whole string. */
  function LowerString(s: string): (l: string)
    ensures |l| == |s|
    ensures forall i :: 0 <= i < |s| ==> l[i] == Lower(s[i])
  {
    seq(|s|, i requires 0 <= i < |s| => Lower(s[i]))
  }

  // ---------------------------------------------------------------------------
  // Integers as text
  // ---------------------------------------------------------------------------

  function DigitValue(c: char): nat
  {
    if IsDigit(c) then c as int - '0' as int else 0
  }

  function DigitChar(d: nat): (c: char)
    requires d < 10
    ensures IsDigit(c) && DigitValue(c) == d
  {
    ('0' as int + d) as char
  }

  /** The value of a string of decimal digits, most significant first. */
  function DigitsValue(ds: string): nat
  {
    if |ds| == 0 then 0 else DigitsValue(ds[..|ds| - 1]) * 10 + DigitValue(ds[|ds| - 1])
  }

  /** The longest run of decimal digits at the start of `s`. */
  function DigitPrefix(s: string): (p: string)
    ensures |p| <= |s| && p == s[..|p|]
    ensures forall i :: 0 <= i < |p| ==> IsDigit(p[i])
    ensures |p| == |s| || !IsDigit(s[|p|])
  {
    if |s| > 0 && IsDigit(s[0]) then [s[0]] + DigitPrefix(s[1..]) else []
  }

  /** `s` without its leading white space. */
  function DropSpaces(s: string): (t: string)
    ensures |t| <= |s| && t == s[|s| - |t|..]
    ensures |t| == 0 || !IsSpace(t[0])
    ensures forall i :: 0 <= i < |s| - |t| ==> IsSpace(s[i])
  {
    if |s| > 0 && IsSpace(s[0]) then DropSpaces(s[1..]) else s
  }

  /** C `atoi`: leading white space, an optional sign, then the longest run of decimal
      digits; a string without such digits reads as 0. Overflow (undefined in C) does
      not arise on unbounded integers. */
  function Atoi(s: string): int
  {
    var t := DropSpaces(s);
    if |t| > 0 && t[0] == '-' then -(DigitsValue(DigitPrefix(t[1..])) as int)
    else if |t| > 0 && t[0] == '+' then DigitsValue(DigitPrefix(t[1..]))
    else DigitsValue(DigitPrefix(t))
  }

  /** Decimal text of a natural, as `operator<<` and `std::to_string` print it. */
  function NatToString(n: nat): (s: string)
    ensures |s| > 0
    ensures forall i :: 0 <= i < |s| ==> IsDigit(s[i])
  {
    if n < 10 then [DigitChar(n)] else NatToString(n / 10) + [DigitChar(n % 10)]
  }

  /** Decimal text of an integer: a minus sign for negatives, no sign otherwise. */
  function IntToString(i: int): (s: string)
    ensures |s| > 0
    ensures forall k :: 0 <= k < |s| ==> !IsSpace(s[k])
    ensures IsDigit(s[0]) || (s[0] == '-' && |s| > 1 && IsDigit(s[1]))
  {
    if i < 0 then "-" + NatToString(-i) else NatToString(i)
  }

  lemma {:induction false} DigitsValueOfNatToString(n: nat)
    ensures DigitsValue(NatToString(n)) == n
    decreases n
  {
    if n >= 10 {
      var a := NatToString(n / 10);
      var s := a + [DigitChar(n % 10)];
      assert s[..|s| - 1] == a;
      DigitsValueOfNatToString(n / 10);
    }
  }

  /** The digit run of a string of digits followed by a non-digit is the digits. */
  lemma {:induction false} DigitPrefixOfDigitsThen(s: string, tail: string)
    requires forall i :: 0 <= i < |s| ==> IsDigit(s[i])
    requires |tail| == 0 || !IsDigit(tail[0])
    ensures DigitPrefix(s + tail) == s
    decreases |s|
  {
    if |s| > 0 {
      assert (s + tail)[1..] == s[1..] + tail;
      DigitPrefixOfDigitsThen(s[1..], tail);
    } else {
      assert s + tail == tail;
    }
  }

  /** Reading a printed integer back with `atoi` gives the integer, whatever
      non-digit text follows it (a comma in VRML, a newline in OBJ). */
  lemma AtoiOfIntToStringThen(i: int, tail: string)
    requires |tail| == 0 || !IsDigit(tail[0])
    ensures Atoi(IntToString(i) + tail) == i
  {
    var s := IntToString(i) + tail;
    assert DropSpaces(s) == s;
    if i < 0 {
      assert s[1..] == NatToString(-i) + tail;
      DigitPrefixOfDigitsThen(NatToString(-i), tail);
      DigitsValueOfNatToString(-i);
    } else {
      DigitPrefixOfDigitsThen(NatToString(i), tail);
      DigitsValueOfNatToString(i);
    }
  }

  /** Reading a printed integer back with `atoi` gives the integer. */
  lemma AtoiOfIntToString(i: int)
    ensures Atoi(IntToString(i)) == i
  {
    AtoiOfIntToStringThen(i, "");
    assert IntToString(i) + "" == IntToString(i);
  }

  /** A single digit reads as its value. */
  lemma AtoiOfDigit(c: char)
    requires IsDigit(c)
    ensures Atoi([c]) == DigitValue(c)
  {
    var d := DigitValue(c);
    assert DigitChar(d) == c;
    assert IntToString(d) == [c];
    AtoiOfIntToString(d);
  }

  /** Different naturals print differently (so per-hull file names never collide). */
  lemma NatToStringInjective(m: nat, n: nat)
    requires NatToString(m) == NatToString(n)
    ensures m == n
  {
    DigitsValueOfNatToString(m);
    DigitsValueOfNatToString(n);
  }

  // ---------------------------------------------------------------------------
  // Cutting text into pieces
  // ---------------------------------------------------------------------------

  /** Length of the run of non-delimiters at the start of `s`. */
  function RunLength(s: string, delim: char -> bool): (n: nat)
    ensures n <= |s|
    ensures forall i :: 0 <= i < n ==> !delim(s[i])
    ensures n == |s| || delim(s[n])
  {
    if |s| == 0 || delim(s[0]) then 0 else 1 + RunLength(s[1..], delim)
  }

  /** The maximal non-empty runs of non-delimiter characters of `s`, in order: what
      repeated `fscanf("%s")` returns when `delim` is `IsSpace`, and what repeated
      `strtok(.., " ")` returns when `delim` is `IsBlank`. */
  function Split(s: string, delim: char -> bool): (r: seq<string>)
    ensures forall k :: 0 <= k < |r| ==> |r[k]| > 0
    ensures forall k, i :: 0 <= k < |r| && 0 <= i < |r[k]| ==> !delim(r[k][i])
    decreases |s|
  {
    if |s| == 0 then []
    else if delim(s[0]) then Split(s[1..], delim)
    else
      var n := RunLength(s, delim);
      [s[..n]] + Split(s[n..], delim)
  }

  /** The white-space separated words of `s`, as `fscanf("%s")` reads them. */
  function Words(s: string): seq<string>
  {
    Split(s, IsSpace)
  }

  /** The tokens `strtok(s, " ")` and then `strtok(NULL, " ")` return, in order. */
  function Strtok(s: string): seq<string>
  {
    Split(s, IsBlank)
  }

  /** The first word of `s`: leading white space skipped, cut at the next white space. */
  function FirstWord(s: string): (w: string)
    ensures forall i :: 0 <= i < |w| ==> !IsSpace(w[i])
  {
    var t := DropSpaces(s);
    t[..RunLength(t, IsSpace)]
  }

  /** A non-empty string holding no delimiter is one piece. */
  lemma SplitOfRun(w: string, delim: char -> bool)
    requires |w| > 0
    requires forall i :: 0 <= i < |w| ==> !delim(w[i])
    ensures Split(w, delim) == [w]
  {
    RunLengthOfRun(w, delim);
    assert w[..|w|] == w;
    assert Split(w[|w|..], delim) == [];
  }

  lemma {:induction false} RunLengthOfRun(w: string, delim: char -> bool)
    requires forall i :: 0 <= i < |w| ==> !delim(w[i])
    ensures RunLength(w, delim) == |w|
    decreases |w|
  {
    if |w| > 0 {
      RunLengthOfRun(w[1..], delim);
    }
  }

  lemma {:induction false} RunLengthAppend(a: string, b: string, delim: char -> bool)
    requires exists i :: 0 <= i < |a| && delim(a[i])
    ensures RunLength(a + b, delim) == RunLength(a, delim)
    decreases |a|
  {
    if !delim(a[0]) {
      var i :| 0 <= i < |a| && delim(a[i]);
      assert delim(a[1..][i - 1]);
      assert (a + b)[1..] == a[1..] + b;
      RunLengthAppend(a[1..], b, delim);
    }
  }

  /** Text that ends in a delimiter splits independently of what follows it. */
  lemma {:induction false} SplitAppend(a: string, b: string, delim: char -> bool)
    requires |a| == 0 || delim(a[|a| - 1])
    ensures Split(a + b, delim) == Split(a, delim) + Split(b, delim)
    decreases |a|
  {
    if |a| == 0 {
      assert a + b == b;
    } else if delim(a[0]) {
      assert (a + b)[1..] == a[1..] + b;
      SplitAppend(a[1..], b, delim);
    } else {
      RunLengthAppend(a, b, delim);
      var n := RunLength(a, delim);
      assert n < |a|;
      assert (a + b)[..n] == a[..n];
      assert (a + b)[n..] == a[n..] + b;
      SplitAppend(a[n..], b, delim);
    }
  }

  /** A run followed by one delimiter is that run alone. */
  lemma SplitOfRunThenDelim(w: string, d: char, delim: char -> bool)
    requires |w| > 0
    requires forall i :: 0 <= i < |w| ==> !delim(w[i])
    requires delim(d)
    ensures Split(w + [d], delim) == [w]
  {
    var s := w + [d];
    RunLengthPrefix(w, [d], delim);
    assert s[..|w|] == w;
    assert s[|w|..] == [d];
    assert Split([d], delim) == Split([d][1..], delim);
    assert [d][1..] == [];
  }

  /** A run ended by a delimiter comes off the front of the pieces. */
  lemma SplitCons(w: string, d: char, rest: string, delim: char -> bool)
    requires |w| > 0
    requires forall i :: 0 <= i < |w| ==> !delim(w[i])
    requires delim(d)
    ensures Split(w + [d] + rest, delim) == [w] + Split(rest, delim)
  {
    SplitAppend(w + [d], rest, delim);
    SplitOfRunThenDelim(w, d, delim);
  }

  lemma {:induction false} RunLengthPrefix(w: string, rest: string, delim: char -> bool)
    requires forall i :: 0 <= i < |w| ==> !delim(w[i])
    requires |rest| > 0 && delim(rest[0])
    ensures RunLength(w + rest, delim) == |w|
    decreases |w|
  {
    if |w| > 0 {
      assert (w + rest)[1..] == w[1..] + rest;
      RunLengthPrefix(w[1..], rest, delim);
    }
  }

  /** Index just past the first newline of `s`, or `|s|` when there is none. */
  function LineLength(s: string): (n: nat)
    requires |s| > 0
    ensures 1 <= n <= |s|
    ensures forall i :: 0 <= i < n - 1 ==> s[i] != '\n'
    ensures s[n - 1] == '\n' || n == |s|
  {
    if s[0] == '\n' || |s| == 1 then 1 else 1 + LineLength(s[1..])
  }

  /** The pieces repeated `fgets` returns: each line keeps its newline, and a last
      line without one is returned as it is. (The source's 1024-byte buffer, which cuts
      longer lines in pieces, is not modelled.) */
  function Lines(s: string): (r: seq<string>)
    ensures forall k :: 0 <= k < |r| ==> |r[k]| > 0
    decreases |s|
  {
    if |s| == 0 then [] else var n := LineLength(s); [s[..n]] + Lines(s[n..])
  }

  /** Lines loses nothing: joining the lines gives the text back. */
  lemma {:induction false} LinesJoin(s: string)
    ensures Seqs.Flatten(Lines(s)) == s
    decreases |s|
  {
    if |s| > 0 {
      var n := LineLength(s);
      LinesJoin(s[n..]);
      Seqs.FlattenCons(s[..n], Lines(s[n..]));
      assert s[..n] + s[n..] == s;
    }
  }

  /** A newline-terminated line splits off the front of the text. */
  lemma LinesCons(l: string, rest: string)
    requires forall i :: 0 <= i < |l| ==> l[i] != '\n'
    ensures Lines(l + "\n" + rest) == [l + "\n"] + Lines(rest)
  {
    var s := l + "\n" + rest;
    assert s[|l|] == '\n';
    assert LineLength(s) == |l| + 1 by {
      LineLengthAt(s, |l|);
    }
    assert s[..|l| + 1] == l + "\n";
    assert s[|l| + 1..] == rest;
  }

  lemma {:induction false} LineLengthAt(s: string, j: nat)
    requires j < |s| && s[j] == '\n'
    requires forall i :: 0 <= i < j ==> s[i] != '\n'
    ensures LineLength(s) == j + 1
    decreases j
  {
    if j > 0 {
      LineLengthAt(s[1..], j - 1);
    }
  }
}
