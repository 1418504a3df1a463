/** The Python string operations the translators rely on: `strip`, `upper`,
    `lower`, `index`, `split`, `join`, `replace`, and `int`/`str` on integers.
    Characters are Unicode scalar values; case mapping covers the ASCII
    letters and the Greek letter pi, the only non-ASCII letter the
    translators meet (cirq prints angles in units of pi). */
module Text {
  import opened Wrappers

  // ---------------------------------------------------------------- strip

  /** Python's `str.isspace` restricted to the ASCII range. */
  predicate IsSpace(c: char)
  {
    c == ' ' || c == '\t' || c == '\n' || c == '\r' || c == '\U{0B}' || c == '\U{0C}'
    || ('\U{1C}' <= c <= '\U{1F}')
  }

  function TrimStart(s: string): (r: string)
    ensures |r| <= |s|
    ensures r == [] || !IsSpace(r[0])
  {
    if s != [] && IsSpace(s[0]) then TrimStart(s[1..]) else s
  }

  function TrimEnd(s: string): (r: string)
    ensures |r| <= |s|
    ensures r == [] || !IsSpace(r[|r| - 1])
    ensures r != [] ==> r[0] == s[0]
  {
    if s != [] && IsSpace(s[|s| - 1]) then TrimEnd(s[..|s| - 1]) else s
  }

  /** `s.strip()`: the result neither starts nor ends with white space. */
  function Strip(s: string): (r: string)
    ensures |r| <= |s|
    ensures r == [] || (!IsSpace(r[0]) && !IsSpace(r[|r| - 1]))
  {
    var t := TrimStart(s);
    var r := TrimEnd(t);
    assert r != [] ==> r[0] == t[0];
    r
  }

  /** Leading white space is all that `TrimStart` removes. */
  lemma {:induction false} TrimStartSuffix(s: string)
    ensures var r := TrimStart(s);
      r == s[|s| - |r|..] && forall k :: 0 <= k < |s| - |r| ==> IsSpace(s[k])
    decreases |s|
  {
    if s != [] && IsSpace(s[0]) {
      TrimStartSuffix(s[1..]);
    }
  }

  /** Trailing white space is all that `TrimEnd` removes. */
  lemma {:induction false} TrimEndPrefix(s: string)
    ensures var r := TrimEnd(s);
      r == s[..|r|] && forall k :: |r| <= k < |s| ==> IsSpace(s[k])
    decreases |s|
  {
    if s != [] && IsSpace(s[|s| - 1]) {
      TrimEndPrefix(s[..|s| - 1]);
    }
  }

  /** `strip()` keeps a piece of the text and removes only white space
      around it. */
  lemma StripPiece(s: string)
    ensures var r := Strip(s);
      exists i, j :: 0 <= i <= j <= |s| && r == s[i..j] &&
        (forall k :: 0 <= k < i ==> IsSpace(s[k])) && forall k :: j <= k < |s| ==> IsSpace(s[k])
  {
    var t := TrimStart(s);
    var r := TrimEnd(t);
    TrimStartSuffix(s);
    TrimEndPrefix(t);
    var i := |s| - |t|;
    forall k | i + |r| <= k < |s| ensures IsSpace(s[k]) {
      assert s[k] == t[k - i];
    }
    var j := i + |r|;
    assert Strip(s) == r && r == s[i..j] && i <= j <= |s|;
    assert (forall k :: 0 <= k < i ==> IsSpace(s[k])) && forall k :: j <= k < |s| ==> IsSpace(s[k]);
  }

  /** A string that neither starts nor ends with white space is stripped
      to itself. */
  lemma StripUnpadded(s: string)
    requires s == [] || (!IsSpace(s[0]) && !IsSpace(s[|s| - 1]))
    ensures Strip(s) == s
  {
  }

  /** Leading white space is stripped away. */
  lemma StripSkipsSpace(c: char, s: string)
    requires IsSpace(c)
    ensures Strip([c] + s) == Strip(s)
  {
    assert ([c] + s)[1..] == s;
  }

  // ---------------------------------------------------------------- case

  const SmallPi: char := '\U{03C0}'
  const CapitalPi: char := '\U{03A0}'

  function UpperChar(c: char): char
  {
    if 'a' <= c <= 'z' then (c as int - 32) as char
    else if c == SmallPi then CapitalPi
    else c
  }

  function LowerChar(c: char): char
  {
    if 'A' <= c <= 'Z' then (c as int + 32) as char
    else if c == CapitalPi then SmallPi
    else c
  }

  /** `s.upper()` */
  function Upper(s: string): string
  {
    seq(|s|, i requires 0 <= i < |s| => UpperChar(s[i]))
  }

  /** `s.lower()` */
  function Lower(s: string): string
  {
    seq(|s|, i requires 0 <= i < |s| => LowerChar(s[i]))
  }

  /** Every character of `s` is its own upper case. */
  ghost predicate IsUpper(s: string)
  {
    forall c :: c in s ==> UpperChar(c) == c
  }

  /** Upper-casing produces upper-case text, and upper-casing again changes
      nothing exactly when the text is already upper case. */
  lemma UpperIsUpper(s: string)
    ensures IsUpper(Upper(s))
    ensures Upper(s) == s <==> IsUpper(s)
  {
    var u := Upper(s);
    forall c | c in u ensures UpperChar(c) == c {
      var i :| 0 <= i < |u| && u[i] == c;
      assert c == UpperChar(s[i]);
    }
    if IsUpper(s) {
      forall i | 0 <= i < |s| ensures u[i] == s[i] {
        assert s[i] in s;
      }
    }
  }

  /** Upper-casing works character by character, so it distributes over
      concatenation. */
  lemma UpperAppend(a: string, b: string)
    ensures Upper(a + b) == Upper(a) + Upper(b)
  {
  }

  /** Each part upper-cased. */
  function UpperEach(parts: seq<string>): (r: seq<string>)
    ensures |r| == |parts| && forall i :: 0 <= i < |parts| ==> r[i] == Upper(parts[i])
  {
    seq(|parts|, i requires 0 <= i < |parts| => Upper(parts[i]))
  }

  /** Upper-casing joined text upper-cases each part, when the separator
      is its own upper case. */
  lemma {:induction false} UpperJoin(sep: string, parts: seq<string>)
    requires Upper(sep) == sep
    ensures Upper(Join(sep, parts)) == Join(sep, UpperEach(parts))
    decreases |parts|
  {
    var ups := UpperEach(parts);
    if |parts| >= 2 {
      var rest := parts[1..];
      UpperJoin(sep, rest);
      assert ups[1..] == UpperEach(rest);
      UpperAppend(parts[0] + sep, Join(sep, rest));
      UpperAppend(parts[0], sep);
    }
  }

  // ---------------------------------------------------------------- index

  /** `s.index(c)`, with `None` where Python raises `ValueError`. */
  function IndexOf(s: string, c: char): (r: Option<nat>)
    ensures r.None? <==> c !in s
    ensures r.Some? ==> r.value < |s| && s[r.value] == c && c !in s[..r.value]
  {
    if s == [] then None
    else if s[0] == c then Some(0)
    else
      match IndexOf(s[1..], c)
      case None => None
      case Some(i) =>
        assert s[..i + 1] == [s[0]] + s[1..][..i];
        Some(i + 1)
  }

  /** The first occurrence is the one `index` finds. */
  lemma IndexOfFirst(s: string, c: char, i: nat)
    requires i < |s| && s[i] == c && c !in s[..i]
    ensures IndexOf(s, c) == Some(i)
  {
    assert s[i] in s;
    var j := IndexOf(s, c).value;
    assert forall k :: 0 <= k < i ==> s[..i][k] == s[k];
    assert forall k :: 0 <= k < j ==> s[..j][k] == s[k];
    assert j == i;
  }

  // ---------------------------------------------------------------- split / join

  /** `sep.join(parts)` */
  function Join(sep: string, parts: seq<string>): string
  {
    if |parts| == 0 then ""
    else if |parts| == 1 then parts[0]
    else parts[0] + sep + Join(sep, parts[1..])
  }

  /** Every character of joined text comes from the separator or from one
      of the parts. */
  lemma {:induction false} JoinChars(sep: string, parts: seq<string>)
    ensures forall c :: c in Join(sep, parts) ==> c in sep || exists i :: 0 <= i < |parts| && c in parts[i]
    decreases |parts|
  {
    if |parts| >= 2 {
      var rest := parts[1..];
      JoinChars(sep, rest);
      forall c | c in Join(sep, rest) && c !in sep ensures exists i :: 0 <= i < |parts| && c in parts[i] {
        var i :| 0 <= i < |rest| && c in rest[i];
        assert c in parts[i + 1];
      }
    }
  }

  /** `s.split(c)`: never empty, and no piece holds the separator. */
  function Split(s: string, c: char): (r: seq<string>)
    ensures |r| >= 1
    ensures forall p :: p in r ==> c !in p
    decreases |s|
  {
    match IndexOf(s, c)
    case None => [s]
    case Some(i) =>
      [s[..i]] + Split(s[i + 1..], c)
  }

  /** Joining the pieces with the separator gives the text back:
      `c.join(s.split(c)) == s`. */
  lemma {:induction false} SplitThenJoin(s: string, c: char)
    ensures Join([c], Split(s, c)) == s
    decreases |s|
  {
    match IndexOf(s, c)
    case None =>
    case Some(i) =>
      var rest := Split(s[i + 1..], c);
      SplitThenJoin(s[i + 1..], c);
      assert ([s[..i]] + rest)[1..] == rest;
      assert s == s[..i] + [c] + s[i + 1..];
  }

  /** Each piece after the first, with `pad` in front of it. */
  function Padded(pad: string, parts: seq<string>): (r: seq<string>)
  {
    seq(|parts|, i requires 0 <= i < |parts| => pad + parts[i])
  }

  /** Text up to the first separator is the first piece; the rest is split
      on its own. */
  lemma SplitAtFirst(head: string, c: char, rest: string)
    requires c !in head
    ensures Split(head + [c] + rest, c) == [head] + Split(rest, c)
  {
    var s := head + [c] + rest;
    assert s[..|head|] == head;
    IndexOfFirst(s, c, |head|);
    assert s[|head| + 1..] == rest;
  }

  /** Splitting text joined with a separator that starts with `c` gives the
      pieces back, the later ones with the rest of the separator in front:
      `"a, b".split(",") == ["a", " b"]`. */
  lemma {:induction false} SplitJoin(pre: string, c: char, pad: string, parts: seq<string>)
    requires |parts| >= 1
    requires c !in pre && c !in pad
    requires forall i :: 0 <= i < |parts| ==> c !in parts[i]
    ensures Split(pre + Join([c] + pad, parts), c) == [pre + parts[0]] + Padded(pad, parts[1..])
    decreases |parts|
  {
    var sep := [c] + pad;
    var head := pre + parts[0];
    assert c !in head;
    if |parts| == 1 {
      assert pre + Join(sep, parts) == head;
      assert Split(head, c) == [head];
      assert Padded(pad, parts[1..]) == [];
    } else {
      var rest := parts[1..];
      var tail := Join(sep, rest);
      assert pre + Join(sep, parts) == head + [c] + (pad + tail) by {
        assert Join(sep, parts) == parts[0] + sep + tail;
      }
      assert Split(head + [c] + (pad + tail), c) == [head] + Split(pad + tail, c) by {
        SplitAtFirst(head, c, pad + tail);
      }
      assert Split(pad + tail, c) == [pad + rest[0]] + Padded(pad, rest[1..]) by {
        assert forall i :: 0 <= i < |rest| ==> rest[i] == parts[i + 1];
        SplitJoin(pad, c, pad, rest);
      }
      PaddedFirst(pad, rest);
    }
  }

  lemma PaddedFirst(pad: string, parts: seq<string>)
    requires |parts| >= 1
    ensures Padded(pad, parts) == [pad + parts[0]] + Padded(pad, parts[1..])
  {
  }

  // ---------------------------------------------------------------- integers

  predicate IsDigit(c: char)
  {
    '0' as int <= c as int <= '9' as int
  }

  function DigitChar(d: nat): char
    requires d < 10
  {
    ('0' as int + d) as char
  }

  /** The decimal numeral of `n`, as `str(n)` writes it. */
  function NatStr(n: nat): (r: string)
    ensures |r| >= 1
    ensures forall c :: c in r ==> IsDigit(c)
  {
    if n < 10 then [DigitChar(n)] else NatStr(n / 10) + [DigitChar(n % 10)]
  }

  /** `str(i)` and `"%d" % i` for an integer. */
  function IntStr(i: int): string
  {
    if i < 0 then "-" + NatStr(-i) else NatStr(i)
  }

  /** The value of a string of decimal digits. */
  function DigitsValue(s: string): nat
    requires forall c :: c in s ==> IsDigit(c)
  {
    if s == [] then 0
    else
      assert s[|s| - 1] in s;
      assert IsDigit(s[|s| - 1]);
      var d := s[|s| - 1] as int - '0' as int;
      DigitsValue(s[..|s| - 1]) * 10 + d
  }

  /** `int(s)`: surrounding white space, an optional sign, then at least one
      decimal digit; `None` where Python raises `ValueError`. */
  function ParseInt(s: string): Option<int>
  {
    ParseStripped(Strip(s))
  }

  /** `int` once the white space is gone. */
  function ParseStripped(t: string): Option<int>
  {
    if |t| > 0 && (t[0] == '-' || t[0] == '+') then
      var d := t[1..];
      if |d| > 0 && forall c :: c in d ==> IsDigit(c) then
        var v: int := DigitsValue(d);
        Some(if t[0] == '-' then -v else v)
      else None
    else if |t| > 0 && forall c :: c in t ==> IsDigit(c) then Some(DigitsValue(t))
    else None
  }

  lemma {:induction false} NatStrValue(n: nat)
    ensures DigitsValue(NatStr(n)) == n
  {
    if n >= 10 {
      NatStrValue(n / 10);
      var s := NatStr(n);
      assert s[..|s| - 1] == NatStr(n / 10);
    }
  }

  /** Parsing a string that needs no stripping. */
  lemma ParseUnpadded(t: string)
    requires t == [] || (!IsSpace(t[0]) && !IsSpace(t[|t| - 1]))
    ensures ParseInt(t) == ParseStripped(t)
  {
    StripUnpadded(t);
  }

  /** A numeral without sign parses to its value. */
  lemma ParseDigits(n: nat)
    ensures ParseInt(NatStr(n)) == Some(n)
  {
    var digits := NatStr(n);
    NatStrValue(n);
    assert digits[0] in digits && digits[|digits| - 1] in digits;
    ParseUnpadded(digits);
  }

  /** A numeral with a minus sign parses to its negation. */
  lemma ParseNegative(n: nat)
    ensures ParseInt("-" + NatStr(n)) == Some(-(n as int))
  {
    var digits := NatStr(n);
    var s := "-" + digits;
    NatStrValue(n);
    assert digits[|digits| - 1] in digits;
    assert s[|s| - 1] == digits[|digits| - 1];
    ParseUnpadded(s);
    assert s[1..] == digits;
  }

  /** `int(str(i)) == i`, also with the blank that `", ".join` puts in
      front of every number after the first. */
  lemma IntStrParses(i: int)
    ensures ParseInt(IntStr(i)) == Some(i)
    ensures ParseInt(" " + IntStr(i)) == Some(i)
  {
    var s := IntStr(i);
    if i < 0 {
      ParseNegative(-i);
    } else {
      ParseDigits(i);
    }
    assert ParseInt(s) == Some(i);
    ParseSkipsSpace(s);
  }

  /** A leading blank does not change what `int` reads. */
  lemma ParseSkipsSpace(s: string)
    ensures ParseInt(" " + s) == ParseInt(s)
  {
    assert " " + s == [' '] + s;
    StripSkipsSpace(' ', s);
  }

  // ---------------------------------------------------------------- replace

  /** `s.replace(pat, rep)`: every occurrence of `pat`, scanning from the
      left without overlap, is replaced by `rep`. Every character of the
      result comes from `s` or from `rep`, and a single character that
      `rep` does not hold is gone from the result. */
  function ReplaceAll(s: string, pat: string, rep: string): (r: string)
    requires |pat| > 0
    ensures forall c :: c in r ==> c in s || c in rep
    ensures |pat| == 1 && pat[0] !in rep ==> pat[0] !in r
    decreases |s|
  {
    if |s| < |pat| then s
    else if s[..|pat|] == pat then
      var rest := ReplaceAll(s[|pat|..], pat, rep);
      assert forall c :: c in s[|pat|..] ==> c in s;
      rep + rest
    else
      var rest := ReplaceAll(s[1..], pat, rep);
      assert forall c :: c in s[1..] ==> c in s;
      assert |pat| == 1 ==> s[0] != pat[0];
      [s[0]] + rest
  }

  /** Text in which the pattern's first character never occurs holds no
      occurrence, and is left as it is. */
  lemma {:induction false} ReplaceAbsent(s: string, pat: string, rep: string)
    requires |pat| > 0 && pat[0] !in s
    ensures ReplaceAll(s, pat, rep) == s
    decreases |s|
  {
    if |s| >= |pat| {
      assert s[..|pat|][0] == s[0];
      ReplaceAbsent(s[1..], pat, rep);
      assert [s[0]] + s[1..] == s;
    }
  }

  /** An occurrence at the start is replaced, and the scan resumes after
      it. */
  lemma ReplaceLeading(pat: string, s: string, rep: string)
    requires |pat| > 0
    ensures ReplaceAll(pat + s, pat, rep) == rep + ReplaceAll(s, pat, rep)
  {
    assert (pat + s)[..|pat|] == pat && (pat + s)[|pat|..] == s;
  }

  /** No occurrence straddles the boundary of `a + b` when the pattern is
      a single character or `b` starts with a character outside it, so
      the two sides are replaced separately. */
  lemma {:induction false} ReplaceConcat(a: string, b: string, pat: string, rep: string)
    requires |pat| > 0
    requires |pat| == 1 || b == [] || b[0] !in pat
    ensures ReplaceAll(a + b, pat, rep) == ReplaceAll(a, pat, rep) + ReplaceAll(b, pat, rep)
    decreases |a|
  {
    if a == [] {
      assert a + b == b;
    } else if |a + b| < |pat| {
      ReplaceShort(a, pat, rep);
      ReplaceShort(b, pat, rep);
      ReplaceShort(a + b, pat, rep);
    } else if |a| >= |pat| && a[..|pat|] == pat {
      var t := a[|pat|..];
      ReplaceConcat(t, b, pat, rep);
      ConcatMatch(t, b, pat, rep);
      assert a == pat + t;
    } else {
      ReplaceConcat(a[1..], b, pat, rep);
      if |a| < |pat| {
        Straddle(a, b, pat);
        ReplaceShort(a, pat, rep);
        ReplaceShort(a[1..], pat, rep);
        assert [a[0]] + a[1..] == a;
      } else {
        assert (a + b)[..|pat|] == a[..|pat|];
        ReplaceSkip(a, pat, rep);
      }
      ConcatSkip(a, b, pat, rep);
    }
  }

  /** The step of `ReplaceConcat` where `a` starts with the pattern. */
  lemma ConcatMatch(t: string, b: string, pat: string, rep: string)
    requires |pat| > 0
    requires ReplaceAll(t + b, pat, rep) == ReplaceAll(t, pat, rep) + ReplaceAll(b, pat, rep)
    ensures ReplaceAll(pat + t + b, pat, rep) == ReplaceAll(pat + t, pat, rep) + ReplaceAll(b, pat, rep)
  {
    var x, y := ReplaceAll(t, pat, rep), ReplaceAll(b, pat, rep);
    assert pat + t + b == pat + (t + b);
    ReplaceLeading(pat, t, rep);
    ReplaceLeading(pat, t + b, rep);
    assert rep + (x + y) == (rep + x) + y;
  }

  /** The step of `ReplaceConcat` where `a + b` does not start with the
      pattern. */
  lemma ConcatSkip(a: string, b: string, pat: string, rep: string)
    requires 0 < |pat| <= |a + b| && a != [] && (a + b)[..|pat|] != pat
    requires ReplaceAll(a, pat, rep) == [a[0]] + ReplaceAll(a[1..], pat, rep)
    requires ReplaceAll(a[1..] + b, pat, rep) == ReplaceAll(a[1..], pat, rep) + ReplaceAll(b, pat, rep)
    ensures ReplaceAll(a + b, pat, rep) == ReplaceAll(a, pat, rep) + ReplaceAll(b, pat, rep)
  {
    var x, y := ReplaceAll(a[1..], pat, rep), ReplaceAll(b, pat, rep);
    assert (a + b)[0] == a[0] && (a + b)[1..] == a[1..] + b;
    ReplaceSkip(a + b, pat, rep);
    assert [a[0]] + (x + y) == ([a[0]] + x) + y;
  }

  /** Text shorter than the pattern is left as it is. */
  lemma ReplaceShort(s: string, pat: string, rep: string)
    requires 0 < |pat| && |s| < |pat|
    ensures ReplaceAll(s, pat, rep) == s
  {
  }

  /** Text that does not start with the pattern keeps its first
      character, and the scan moves on by one. */
  lemma ReplaceSkip(s: string, pat: string, rep: string)
    requires 0 < |pat| <= |s| && s[..|pat|] != pat
    ensures ReplaceAll(s, pat, rep) == [s[0]] + ReplaceAll(s[1..], pat, rep)
  {
  }

  /** An occurrence starting in `a` that reached into `b` would hold
      `b`'s first character. */
  lemma Straddle(a: string, b: string, pat: string)
    requires |a| < |pat| <= |a + b| && b != [] && b[0] !in pat
    ensures (a + b)[..|pat|] != pat
  {
    assert (a + b)[..|pat|][|a|] == b[0];
  }

  /** Each part with the character `c` replaced. */
  function ReplaceEach(parts: seq<string>, c: char, rep: string): (r: seq<string>)
    ensures |r| == |parts| && forall i :: 0 <= i < |parts| ==> r[i] == ReplaceAll(parts[i], [c], rep)
  {
    seq(|parts|, i requires 0 <= i < |parts| => ReplaceAll(parts[i], [c], rep))
  }

  /** Replacing a single character in joined text replaces it in each
      part, when the separator does not hold it. */
  lemma {:induction false} ReplaceJoin(sep: string, parts: seq<string>, c: char, rep: string)
    requires c !in sep
    ensures ReplaceAll(Join(sep, parts), [c], rep) == Join(sep, ReplaceEach(parts, c, rep))
    decreases |parts|
  {
    var reps := ReplaceEach(parts, c, rep);
    if |parts| >= 2 {
      var rest := parts[1..];
      ReplaceJoin(sep, rest, c, rep);
      assert reps[1..] == ReplaceEach(rest, c, rep);
      ReplaceConcat(parts[0] + sep, Join(sep, rest), [c], rep);
      ReplaceConcat(parts[0], sep, [c], rep);
      ReplaceAbsent(sep, [c], rep);
    }
  }
}
