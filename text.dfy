/** The parts of Python's `str` that the scraper relies on: case mapping, substring tests,
    `split`/`join`, `replace`, `title`, and the decimal conversions `int(str)` and `str(int)`.

    Case mapping covers ASCII letters and the nine Polish letters; other Unicode case pairs
    are left unmapped. */
module Text {
  import opened Wrappers

  // ---------------------------------------------------------------------------
  // Case mapping

  const PolishCapitals: map<char, char> :=
    map['Ą' := 'ą', 'Ć' := 'ć', 'Ę' := 'ę', 'Ł' := 'ł', 'Ń' := 'ń',
        'Ó' := 'ó', 'Ś' := 'ś', 'Ź' := 'ź', 'Ż' := 'ż']

  const PolishSmalls: map<char, char> :=
    map['ą' := 'Ą', 'ć' := 'Ć', 'ę' := 'Ę', 'ł' := 'Ł', 'ń' := 'Ń',
        'ó' := 'Ó', 'ś' := 'Ś', 'ź' := 'Ź', 'ż' := 'Ż']

  predicate IsAsciiUpper(c: char) { 'A' <= c <= 'Z' }

  predicate IsAsciiLower(c: char) { 'a' <= c <= 'z' }

  /** A letter that has an upper- and a lower-case form (Python's "cased"). */
  predicate IsCased(c: char) {
    IsAsciiUpper(c) || IsAsciiLower(c) || c in PolishCapitals || c in PolishSmalls
  }

  function LowerChar(c: char): (r: char)
    ensures !IsAsciiUpper(r) && r !in PolishCapitals
    ensures IsCased(c) <==> IsCased(r)
  {
    if IsAsciiUpper(c) then (c as int + 32) as char
    else if c in PolishCapitals then PolishCapitals[c]
    else c
  }

  function UpperChar(c: char): (r: char)
    ensures IsCased(c) <==> IsCased(r)
  {
    if IsAsciiLower(c) then (c as int - 32) as char
    else if c in PolishSmalls then PolishSmalls[c]
    else c
  }

  /** `s.lower()` */
  function Lower(s: string): (r: string)
    ensures |r| == |s|
    ensures forall i :: 0 <= i < |s| ==> r[i] == LowerChar(s[i])
  {
    seq(|s|, i requires 0 <= i < |s| => LowerChar(s[i]))
  }

  lemma LowerCharIdempotent(c: char)
    ensures LowerChar(LowerChar(c)) == LowerChar(c)
  {
  }

  lemma LowerIdempotent(s: string)
    ensures Lower(Lower(s)) == Lower(s)
  {
    forall i | 0 <= i < |s| ensures Lower(Lower(s))[i] == Lower(s)[i] {
      LowerCharIdempotent(s[i]);
    }
  }

  lemma LowerAppend(a: string, b: string)
    ensures Lower(a + b) == Lower(a) + Lower(b)
  {
  }

  /** `s.title()`: a cased letter is upper-cased when the character before it is not cased,
      lower-cased otherwise. */
  function Title(s: string): (r: string)
    ensures |r| == |s|
  {
    TitleFrom(s, false)
  }

  function TitleFrom(s: string, previousIsCased: bool): (r: string)
    ensures |r| == |s|
    decreases |s|
  {
    if |s| == 0 then ""
    else
      var c := if previousIsCased then LowerChar(s[0]) else UpperChar(s[0]);
      [c] + TitleFrom(s[1..], IsCased(c))
  }

  // ---------------------------------------------------------------------------
  // Substrings

  predicate StartsWith(s: string, p: string) {
    |p| <= |s| && s[..|p|] == p
  }

  predicate OccursAt(s: string, p: string, i: int) {
    0 <= i && i + |p| <= |s| && s[i..i + |p|] == p
  }

  /** `p in s` */
  predicate Contains(s: string, p: string)
    decreases |s|
  {
    StartsWith(s, p) || (|s| > 0 && Contains(s[1..], p))
  }

  lemma {:induction false} ContainsIff(s: string, p: string)
    ensures Contains(s, p) <==> exists i :: OccursAt(s, p, i)
    decreases |s|
  {
    if StartsWith(s, p) {
      assert OccursAt(s, p, 0);
    } else if |s| == 0 {
      assert forall i :: !OccursAt(s, p, i);
    } else {
      ContainsIff(s[1..], p);
      forall i | OccursAt(s, p, i) ensures OccursAt(s[1..], p, i - 1) {
        assert i != 0;
        assert s[1..][i - 1..i - 1 + |p|] == s[i..i + |p|];
      }
      if Contains(s[1..], p) {
        var i :| OccursAt(s[1..], p, i);
        assert s[1..][i..i + |p|] == s[i + 1..i + 1 + |p|];
        assert OccursAt(s, p, i + 1);
      }
    }
  }

  /** A substring stays a substring of any string it is embedded in. */
  lemma ContainsInfix(a: string, h: string, b: string, p: string)
    requires Contains(h, p)
    ensures Contains(a + h + b, p)
  {
    ContainsIff(h, p);
    var i :| OccursAt(h, p, i);
    var s := a + h + b;
    assert s[|a| + i..|a| + i + |p|] == h[i..i + |p|];
    assert OccursAt(s, p, |a| + i);
    ContainsIff(s, p);
  }

  // ---------------------------------------------------------------------------
  // split / join / replace

  /** `s.split(sep)` for a one-character separator. */
  function Split(s: string, sep: char): (parts: seq<string>)
    ensures |parts| > 0
    ensures forall k :: 0 <= k < |parts| ==> sep !in parts[k]
    decreases |s|
  {
    if |s| == 0 then [""]
    else
      var rest := Split(s[1..], sep);
      if s[0] == sep then [""] + rest
      else [[s[0]] + rest[0]] + rest[1..]
  }

  /** `sep.join(parts)` */
  function Join(sep: string, parts: seq<string>): string
    decreases |parts|
  {
    if |parts| == 0 then ""
    else if |parts| == 1 then parts[0]
    else parts[0] + sep + Join(sep, parts[1..])
  }

  lemma JoinConsHead(sep: string, a: string, parts: seq<string>)
    requires |parts| > 0
    ensures Join(sep, [a + parts[0]] + parts[1..]) == a + Join(sep, parts)
  {
    var q := [a + parts[0]] + parts[1..];
    assert q[1..] == parts[1..];
  }

  /** Joining the parts of a split gives back the original string. */
  lemma {:induction false} JoinSplit(s: string, sep: char)
    ensures Join([sep], Split(s, sep)) == s
    decreases |s|
  {
    if |s| > 0 {
      var rest := Split(s[1..], sep);
      JoinSplit(s[1..], sep);
      if s[0] == sep {
        var q := [""] + rest;
        assert q[1..] == rest;
        assert s == [sep] + s[1..];
      } else {
        JoinConsHead([sep], [s[0]], rest);
        assert s == [s[0]] + s[1..];
      }
    }
  }

  lemma {:induction false} SplitNoSep(x: string, sep: char)
    requires sep !in x
    ensures Split(x, sep) == [x]
    decreases |x|
  {
    if |x| > 0 {
      assert sep !in x[1..];
      SplitNoSep(x[1..], sep);
      assert [x[0]] + x[1..] == x;
    }
  }

  lemma {:induction false} SplitAtSep(x: string, sep: char, y: string)
    requires sep !in x
    ensures Split(x + [sep] + y, sep) == [x] + Split(y, sep)
    decreases |x|
  {
    var s := x + [sep] + y;
    if |x| == 0 {
      assert s[1..] == y;
    } else {
      assert s[1..] == x[1..] + [sep] + y;
      assert sep !in x[1..];
      SplitAtSep(x[1..], sep, y);
      assert [x[0]] + x[1..] == x;
    }
  }

  /** Splitting a join gives back the parts, when no part holds the separator. */
  lemma {:induction false} SplitJoin(parts: seq<string>, sep: char)
    requires |parts| > 0
    requires forall k :: 0 <= k < |parts| ==> sep !in parts[k]
    ensures Split(Join([sep], parts), sep) == parts
    decreases |parts|
  {
    if |parts| == 1 {
      SplitNoSep(parts[0], sep);
    } else {
      SplitJoin(parts[1..], sep);
      SplitAtSep(parts[0], sep, Join([sep], parts[1..]));
      assert parts == [parts[0]] + parts[1..];
    }
  }

  /** `s.replace(pat, rep)`: non-overlapping occurrences, scanned left to right. */
  function ReplaceAll(s: string, pat: string, rep: string): (r: string)
    requires |pat| > 0
    decreases |s|
  {
    if |s| < |pat| then s
    else if s[..|pat|] == pat then rep + ReplaceAll(s[|pat|..], pat, rep)
    else [s[0]] + ReplaceAll(s[1..], pat, rep)
  }

  /** An occurrence at the front is replaced, and the scan goes on after it. */
  lemma ReplaceAtStart(pat: string, rep: string, rest: string)
    requires |pat| > 0
    ensures ReplaceAll(pat + rest, pat, rep) == rep + ReplaceAll(rest, pat, rep)
  {
    var s := pat + rest;
    assert s[..|pat|] == pat && s[|pat|..] == rest;
  }

  /** A stretch that does not hold the pattern's first character is copied unchanged. */
  lemma {:induction false} ReplaceSkips(a: string, pat: string, rep: string, rest: string)
    requires |pat| > 0 && pat[0] !in a
    ensures ReplaceAll(a + rest, pat, rep) == a + ReplaceAll(rest, pat, rep)
    decreases |a|
  {
    if |a| > 0 {
      var s := a + rest;
      assert s[0] == a[0] && s[1..] == a[1..] + rest;
      ReplaceSkips(a[1..], pat, rep, rest);
      if |s| >= |pat| {
        assert s[..|pat|][0] != pat[0];
      }
      assert a == [a[0]] + a[1..];
    } else {
      assert a + rest == rest;
    }
  }

  /** Replacing by the empty string never lengthens, and keeps a string without the pattern. */
  lemma {:induction false} RemoveAllShortens(s: string, pat: string)
    requires |pat| > 0
    ensures |ReplaceAll(s, pat, "")| <= |s|
    ensures !Contains(s, pat) ==> ReplaceAll(s, pat, "") == s
    decreases |s|
  {
    if |s| >= |pat| {
      if s[..|pat|] == pat {
        RemoveAllShortens(s[|pat|..], pat);
      } else {
        RemoveAllShortens(s[1..], pat);
        assert [s[0]] + s[1..] == s;
      }
    }
  }

  // ---------------------------------------------------------------------------
  // Decimal numbers

  predicate IsDigit(c: char) { '0' <= c <= '9' }

  predicate AllDigits(s: string) {
    forall i :: 0 <= i < |s| ==> IsDigit(s[i])
  }

  function DigitValue(c: char): nat
    requires IsDigit(c)
  {
    c as int - '0' as int
  }

  function DigitChar(d: nat): (c: char)
    requires d < 10
    ensures IsDigit(c) && DigitValue(c) == d
  {
    ('0' as int + d) as char
  }

  /** The number a run of ASCII digits denotes. */
  function DecimalValue(ds: string): nat
    requires AllDigits(ds)
    decreases |ds|
  {
    if |ds| == 0 then 0
    else DecimalValue(ds[..|ds| - 1]) * 10 + DigitValue(ds[|ds| - 1])
  }

  /** The canonical decimal digits of `n` (no leading zero). */
  function NatToDigits(n: nat): (r: string)
    ensures |r| > 0 && AllDigits(r)
  {
    if n < 10 then [DigitChar(n)] else NatToDigits(n / 10) + [DigitChar(n % 10)]
  }

  lemma {:induction false} DecimalOfDigits(n: nat)
    ensures DecimalValue(NatToDigits(n)) == n
  {
    if n >= 10 {
      var r := NatToDigits(n);
      DecimalOfDigits(n / 10);
      assert r[..|r| - 1] == NatToDigits(n / 10);
    }
  }

  /** `str(n)` */
  function IntToString(n: int): (r: string)
    ensures |r| > 0
  {
    if n < 0 then "-" + NatToDigits(-n) else NatToDigits(n)
  }

  /**
   * The whitespace `int()` skips around its digits: the ASCII space and tab to carriage
   * return, and the non-ASCII characters Python classes as whitespace, which `int()` first
   * maps to a space. The ASCII separators 0x1C-0x1F are kept, and then refused.
   */
  predicate IsSpace(c: char) {
    c == ' ' || '\t' <= c <= '\r' || IsWideSpace(c)
  }

  predicate IsWideSpace(c: char) {
    c == '\U{85}' || c == '\U{A0}' || c == '\U{1680}' || '\U{2000}' <= c <= '\U{200A}' ||
    c == '\U{2028}' || c == '\U{2029}' || c == '\U{202F}' || c == '\U{205F}' || c == '\U{3000}'
  }

  function StripLeft(s: string): string
    decreases |s|
  {
    if |s| > 0 && IsSpace(s[0]) then StripLeft(s[1..]) else s
  }

  function StripRight(s: string): string
    decreases |s|
  {
    if |s| > 0 && IsSpace(s[|s| - 1]) then StripRight(s[..|s| - 1]) else s
  }

  /** `int(s)` for a string: optional surrounding white space, an optional sign and at least
      one ASCII digit; `None` stands for the `ValueError` Python raises otherwise. */
  function ParseInt(s: string): Option<int> {
    var t := StripRight(StripLeft(s));
    if |t| > 1 && (t[0] == '-' || t[0] == '+') && AllDigits(t[1..]) then
      var v: int := DecimalValue(t[1..]);
      Some(if t[0] == '-' then -v else v)
    else if |t| > 0 && AllDigits(t) then Some(DecimalValue(t))
    else None
  }

  /** `int("\xa012\u3000")` is 12, while `int("\x1c12")` raises: only whitespace in Python's
      sense is skipped, and the ASCII separators are not. */
  lemma ParseIntSkipsWhitespace()
    ensures ParseInt("\U{A0}12\U{3000}") == Some(12)
    ensures ParseInt("\U{1C}12") == None
  {
    assert StripLeft("\U{A0}12\U{3000}") == "12\U{3000}";
    assert StripRight("12\U{3000}") == "12";
    assert DecimalValue("12") == 12;
    assert StripLeft("\U{1C}12") == "\U{1C}12";
    assert StripRight("\U{1C}12") == "\U{1C}12";
  }

  /** `int(str(n)) == n` */
  lemma ParseIntOfString(n: int)
    ensures ParseInt(IntToString(n)) == Some(n)
  {
    var r := IntToString(n);
    var d := if n < 0 then -n else n;
    var ds := NatToDigits(d);
    DecimalOfDigits(d);
    assert r[|r| - 1] == ds[|ds| - 1];
    assert StripLeft(r) == r;
    assert StripRight(r) == r;
    if n < 0 {
      assert r[1..] == ds;
    }
  }
}
