/**
 * The Python string operations the preprocessing code relies on: str.strip,
 * str.split with a separator, str.join, string ordering, int-to-text and the
 * decimal subset of float().
 */
module Text {
  import opened Wrappers

  /** Python's str.isspace() on one character: the set str.strip() and float() remove. */
  predicate IsSpace(c: char) {
    || ('\t' <= c <= '\r')
    || ('\U{1C}' <= c <= ' ')
    || c == '\U{85}' || c == '\U{A0}' || c == '\U{1680}'
    || ('\U{2000}' <= c <= '\U{200A}')
    || c == '\U{2028}' || c == '\U{2029}' || c == '\U{202F}' || c == '\U{205F}' || c == '\U{3000}'
  }

  /** str.lstrip(): the text after its leading whitespace. */
  function LStrip(s: string): (r: string)
    ensures |r| <= |s|
    ensures r == [] || !IsSpace(r[0])
  {
    if |s| > 0 && IsSpace(s[0]) then LStrip(s[1..]) else s
  }

  /** str.rstrip(): the text before its trailing whitespace. */
  function RStrip(s: string): (r: string)
    ensures |r| <= |s|
    ensures r == [] || !IsSpace(r[|r| - 1])
  {
    if |s| > 0 && IsSpace(s[|s| - 1]) then RStrip(s[..|s| - 1]) else s
  }

  /** lstrip() removes whitespace only, and only from the front. */
  lemma {:induction false} LStripSuffix(s: string)
    ensures LStrip(s) == s[|s| - |LStrip(s)|..]
    ensures forall i :: 0 <= i < |s| - |LStrip(s)| ==> IsSpace(s[i])
  {
    if |s| > 0 && IsSpace(s[0]) {
      LStripSuffix(s[1..]);
    }
  }

  /** rstrip() removes whitespace only, and only from the back. */
  lemma {:induction false} RStripPrefix(s: string)
    ensures RStrip(s) == s[..|RStrip(s)|]
    ensures forall i :: |RStrip(s)| <= i < |s| ==> IsSpace(s[i])
  {
    if |s| > 0 && IsSpace(s[|s| - 1]) {
      RStripPrefix(s[..|s| - 1]);
    }
  }

  /** str.strip(). */
  function Strip(s: string): string
  {
    RStrip(LStrip(s))
  }

  /**
   * s.split(sep) for a non-empty separator: the pieces between the
   * non-overlapping occurrences of sep found left to right.
   */
  function Split(s: string, sep: string): (pieces: seq<string>)
    requires |sep| > 0
    ensures |pieces| >= 1
  {
    SplitFrom(s, sep, "")
  }

  /** Scans s; cur is the piece collected so far. */
  function SplitFrom(s: string, sep: string, cur: string): (pieces: seq<string>)
    requires |sep| > 0
    ensures |pieces| >= 1
    decreases |s|
  {
    if |s| == 0 then [cur]
    else if |sep| <= |s| && s[..|sep|] == sep then [cur] + SplitFrom(s[|sep|..], sep, "")
    else SplitFrom(s[1..], sep, cur + [s[0]])
  }

  /** sep.join(items). */
  function Join(items: seq<string>, sep: string): string
  {
    if |items| == 0 then ""
    else if |items| == 1 then items[0]
    else items[0] + sep + Join(items[1..], sep)
  }

  /** A stretch of text holding no character of sep's first letter is read into the current piece whole. */
  lemma {:induction false} SplitFromSkip(x: string, t: string, sep: string, cur: string)
    requires |sep| > 0 && sep[0] !in x
    ensures SplitFrom(x + t, sep, cur) == SplitFrom(t, sep, cur + x)
    decreases |x|
  {
    if |x| > 0 {
      var s := x + t;
      assert s[0] == x[0] != sep[0];
      assert !(|sep| <= |s| && s[..|sep|] == sep);
      assert s[1..] == x[1..] + t;
      SplitFromSkip(x[1..], t, sep, cur + [x[0]]);
      assert cur + [x[0]] + x[1..] == cur + x;
    } else {
      assert x + t == t;
      assert cur + x == cur;
    }
  }

  /** split undoes join when no item holds the separator's first character. */
  lemma {:induction false} SplitJoin(items: seq<string>, sep: string)
    requires |sep| > 0 && |items| > 0
    requires forall k :: 0 <= k < |items| ==> sep[0] !in items[k]
    ensures Split(Join(items, sep), sep) == items
  {
    SplitFromJoin(items, sep);
  }

  lemma {:induction false} SplitFromJoin(items: seq<string>, sep: string)
    requires |sep| > 0 && |items| > 0
    requires forall k :: 0 <= k < |items| ==> sep[0] !in items[k]
    ensures SplitFrom(Join(items, sep), sep, "") == items
    decreases |items|
  {
    var x := items[0];
    if |items| == 1 {
      SplitFromSkip(x, "", sep, "");
      assert x + "" == x;
      assert "" + x == x;
    } else {
      var rest := Join(items[1..], sep);
      assert Join(items, sep) == x + (sep + rest);
      SplitFromSkip(x, sep + rest, sep, "");
      var s := sep + rest;
      assert s[..|sep|] == sep;
      assert s[|sep|..] == rest;
      SplitFromJoin(items[1..], sep);
      assert "" + x == x;
      assert items == [x] + items[1..];
    }
  }

  /** Two pieces joined back with the separator give the text. */
  lemma SplitTwoPieces(s: string, sep: string)
    requires |sep| > 0 && |Split(s, sep)| == 2
    ensures s == Split(s, sep)[0] + sep + Split(s, sep)[1]
  {
    SplitFromRebuild(s, sep, "");
  }

  /** Whatever split returns, joining the pieces with the separator gives the scanned text back. */
  lemma {:induction false} SplitFromRebuild(s: string, sep: string, cur: string)
    requires |sep| > 0
    ensures Join(SplitFrom(s, sep, cur), sep) == cur + s
    decreases |s|
  {
    if |s| == 0 {
      assert cur + s == cur;
    } else if |sep| <= |s| && s[..|sep|] == sep {
      SplitFromRebuild(s[|sep|..], sep, "");
      RebuildAtSeparator(s, sep, cur);
    } else {
      SplitFromRebuild(s[1..], sep, cur + [s[0]]);
      assert s == [s[0]] + s[1..];
    }
  }

  lemma RebuildAtSeparator(s: string, sep: string, cur: string)
    requires |sep| > 0 && |sep| <= |s| && s[..|sep|] == sep
    requires Join(SplitFrom(s[|sep|..], sep, ""), sep) == s[|sep|..]
    ensures Join(SplitFrom(s, sep, cur), sep) == cur + s
  {
    var tail := s[|sep|..];
    SplitFromAtSeparator(s, sep, cur);
    JoinCons(cur, SplitFrom(tail, sep, ""), sep);
    Rejoin(s, |sep|);
    AppendAssoc(cur, sep, tail);
  }

  lemma Rejoin(s: string, n: nat)
    requires n <= |s|
    ensures s[..n] + s[n..] == s
  {
  }

  lemma AppendAssoc(a: string, b: string, c: string)
    ensures a + b + c == a + (b + c)
  {
  }

  lemma SplitFromAtSeparator(s: string, sep: string, cur: string)
    requires |sep| > 0 && |sep| <= |s| && s[..|sep|] == sep
    ensures SplitFrom(s, sep, cur) == [cur] + SplitFrom(s[|sep|..], sep, "")
  {
  }

  lemma JoinCons(x: string, rest: seq<string>, sep: string)
    requires |rest| > 0
    ensures Join([x] + rest, sep) == x + sep + Join(rest, sep)
  {
    assert ([x] + rest)[1..] == rest;
  }

  /** Text free of sep's first character splits into itself alone. */
  lemma SplitNoSeparator(s: string, sep: string)
    requires |sep| > 0 && sep[0] !in s
    ensures Split(s, sep) == [s]
  {
    SplitJoin([s], sep);
  }

  /** Python's `<` on str: code-point order, position by position, a proper prefix first. */
  predicate LexLess(a: string, b: string)
  {
    if |a| == 0 then |b| > 0
    else if |b| == 0 then false
    else a[0] < b[0] || (a[0] == b[0] && LexLess(a[1..], b[1..]))
  }

  lemma {:induction false} LexLessIrreflexive(a: string)
    ensures !LexLess(a, a)
  {
    if |a| > 0 { LexLessIrreflexive(a[1..]); }
  }

  lemma {:induction false} LexLessTransitive(a: string, b: string, c: string)
    requires LexLess(a, b) && LexLess(b, c)
    ensures LexLess(a, c)
  {
    if |a| > 0 && |b| > 0 && |c| > 0 && a[0] == b[0] == c[0] {
      LexLessTransitive(a[1..], b[1..], c[1..]);
    }
  }

  lemma {:induction false} LexLessTotal(a: string, b: string)
    ensures a == b || LexLess(a, b) || LexLess(b, a)
  {
    if |a| > 0 && |b| > 0 && a[0] == b[0] {
      LexLessTotal(a[1..], b[1..]);
      if a[1..] == b[1..] {
        assert a == [a[0]] + a[1..] && b == [b[0]] + b[1..];
      }
    }
  }

  predicate IsDigit(c: char) {
    '0' <= c <= '9'
  }

  predicate AllDigits(s: string) {
    forall i :: 0 <= i < |s| ==> IsDigit(s[i])
  }

  function DigitChar(d: nat): (c: char)
    requires d < 10
  {
    "0123456789"[d]
  }

  function DigitValue(c: char): nat
    requires IsDigit(c)
  {
    c as int - '0' as int
  }

  /** The number a string of decimal digits spells, most significant digit first. */
  function DigitsValue(ds: string): nat
    requires AllDigits(ds)
  {
    if |ds| == 0 then 0 else DigitsValue(ds[..|ds| - 1]) * 10 + DigitValue(ds[|ds| - 1])
  }

  function Pow10(n: nat): (p: nat)
    ensures p >= 1
  {
    if n == 0 then 1 else 10 * Pow10(n - 1)
  }

  /** str(n) for a non-negative int: reads back as n. */
  function NatToString(n: nat): (s: string)
    ensures |s| >= 1 && AllDigits(s) && DigitsValue(s) == n
  {
    if n < 10 then [DigitChar(n)]
    else
      var head := NatToString(n / 10);
      var s := head + [DigitChar(n % 10)];
      assert s[..|s| - 1] == head;
      s
  }

  /** The unsigned part of float(): digits with at most one '.', at least one digit in all. */
  function ParseUnsigned(t: string): Option<real>
  {
    var parts := Split(t, ".");
    if |parts| == 1 then
      if |t| > 0 && AllDigits(t) then Some(DigitsValue(t) as real) else None
    else if |parts| == 2 && AllDigits(parts[0]) && AllDigits(parts[1]) && |parts[0]| + |parts[1]| > 0 then
      Some(DigitsValue(parts[0]) as real + DigitsValue(parts[1]) as real / Pow10(|parts[1]|) as real)
    else None
  }

  /**
   * float(s) on plain decimal literals: surrounding whitespace, an optional
   * sign, then digits with at most one '.'. None stands for ValueError.
   */
  function ParseReal(s: string): Option<real>
  {
    var t := Strip(s);
    if |t| > 0 && (t[0] == '+' || t[0] == '-') then
      match ParseUnsigned(t[1..])
      case None => None
      case Some(v) => Some(if t[0] == '-' then -v else v)
    else ParseUnsigned(t)
  }

  /** str(round(x, 1)) for x = tenths / 10: the integer part, '.', one decimal digit. */
  function FormatTenths(tenths: nat): string
  {
    NatToString(tenths / 10) + "." + [DigitChar(tenths % 10)]
  }

  /** The text FormatTenths produces starts and ends with a digit and holds only digits and one '.'. */
  lemma FormatTenthsShape(tenths: nat)
    ensures var f := FormatTenths(tenths);
      |f| >= 3 && IsDigit(f[0]) && IsDigit(f[|f| - 1])
      && (forall i :: 0 <= i < |f| ==> IsDigit(f[i]) || f[i] == '.')
  {
    var f := FormatTenths(tenths);
    var head := NatToString(tenths / 10);
    assert f == head + "." + [DigitChar(tenths % 10)];
    assert f[0] == head[0];
  }

  /** float() reads back exactly the value str(round(x, 1)) printed. */
  lemma {:induction false} ParseFormatTenths(tenths: nat)
    ensures ParseReal(FormatTenths(tenths)) == Some(tenths as real / 10.0)
  {
    var f := FormatTenths(tenths);
    var head := NatToString(tenths / 10);
    var d := [DigitChar(tenths % 10)];
    FormatTenthsShape(tenths);
    assert LStrip(f) == f;
    assert RStrip(f) == f;
    assert Strip(f) == f;
    assert !(f[0] == '+' || f[0] == '-');
    assert Join([head, d], ".") == head + "." + d;
    assert f == head + "." + d;
    assert '.' !in head;
    assert '.' !in d;
    SplitJoin([head, d], ".");
    assert Split(f, ".") == [head, d];
    assert d[..0] == [];
    assert DigitsValue(d) == tenths % 10;
    var q := tenths / 10;
    var r := tenths % 10;
    assert tenths == 10 * q + r;
    assert (q as real) + (r as real) / 10.0 == (tenths as real) / 10.0;
  }
}
