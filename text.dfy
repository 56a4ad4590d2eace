/**
 * String operations the components rely on, with the JavaScript semantics
 * the source uses: `trim()`, `\s`, `\d`, `join`, `split`, number-to-string
 * and `parseInt` on a run of digits, ASCII case mapping.
 */
module Text {

  /**
   * ECMAScript WhiteSpace and LineTerminator code points: the set that both
   * `String.prototype.trim` and the regular-expression class `\s` use.
   */
  predicate IsSpace(c: char) {
    c == '\t' || c == '\n' || c == '\U{B}' || c == '\U{C}' || c == '\r' || c == ' '
    || c == '\U{A0}' || c == '\U{1680}' || ('\U{2000}' <= c <= '\U{200A}')
    || c == '\U{2028}' || c == '\U{2029}' || c == '\U{202F}' || c == '\U{205F}'
    || c == '\U{3000}' || c == '\U{FEFF}'
  }

  /** `\d` in a regular expression without the `u` flag. */
  predicate IsDigit(c: char) {
    '0' <= c <= '9'
  }

  predicate AllDigits(s: string) {
    forall i :: 0 <= i < |s| ==> IsDigit(s[i])
  }

  predicate StartsWith(s: string, prefix: string) {
    |prefix| <= |s| && s[..|prefix|] == prefix
  }

  /** A string starts with any of its prefixes. */
  lemma PrefixOfConcat(a: string, b: string)
    ensures StartsWith(a + b, a)
  {
    assert (a + b)[..|a|] == a;
  }

  // ---------------------------------------------------------------- trim

  function TrimStart(s: string): (r: string)
    ensures |r| <= |s| && r == s[|s| - |r|..]
    ensures r == [] || !IsSpace(r[0])
    ensures forall i :: 0 <= i < |s| - |r| ==> IsSpace(s[i])
  {
    if |s| > 0 && IsSpace(s[0]) then TrimStart(s[1..]) else s
  }

  function TrimEnd(s: string): (r: string)
    ensures |r| <= |s| && r == s[..|r|]
    ensures r == [] || !IsSpace(r[|r| - 1])
    ensures forall i :: |r| <= i < |s| ==> IsSpace(s[i])
  {
    if |s| > 0 && IsSpace(s[|s| - 1]) then TrimEnd(s[..|s| - 1]) else s
  }

  /** `s.trim()` */
  function Trim(s: string): (r: string)
    ensures |r| <= |s|
    ensures r == [] || (!IsSpace(r[0]) && !IsSpace(r[|r| - 1]))
  {
    TrimEnd(TrimStart(s))
  }

  /** `!s.trim()`: the string is empty or made of white space only. */
  predicate IsBlank(s: string) {
    Trim(s) == ""
  }

  /** A string is blank exactly when every character in it is white space. */
  lemma BlankIffAllSpace(s: string)
    ensures IsBlank(s) <==> forall i :: 0 <= i < |s| ==> IsSpace(s[i])
  {
    var t := TrimStart(s);
    if IsBlank(s) {
      assert TrimEnd(t) == [];
      forall i | 0 <= i < |s| ensures IsSpace(s[i]) {
        if i >= |s| - |t| {
          assert s[i] == t[i - (|s| - |t|)];
        }
      }
    } else {
      var r := Trim(s);
      assert !IsSpace(r[0]);
      assert r[0] == t[0] == s[|s| - |t|];
    }
  }

  /** A string with no white space at either end is its own trim. */
  lemma TrimOfTrimmed(s: string)
    requires s == [] || (!IsSpace(s[0]) && !IsSpace(s[|s| - 1]))
    ensures Trim(s) == s
  {
  }

  /** `trim()` is idempotent. */
  lemma TrimIdempotent(s: string)
    ensures Trim(Trim(s)) == Trim(s)
  {
    TrimOfTrimmed(Trim(s));
  }

  /** Leading white space does not change the trimmed string. */
  lemma TrimLeadingSpace(c: char, s: string)
    requires IsSpace(c)
    ensures Trim([c] + s) == Trim(s)
  {
    assert ([c] + s)[1..] == s;
  }

  /** Trimming takes a slice, so it adds no character that was not there. */
  lemma TrimKeepsOut(s: string, c: char)
    requires c !in s
    ensures c !in Trim(s)
  {
  }

  // ---------------------------------------------------------------- join and split

  /** `xs.join(sep)` */
  function Join(xs: seq<string>, sep: string): (r: string)
    ensures |xs| == 1 ==> r == xs[0]
    ensures xs == [] ==> r == ""
  {
    if |xs| == 0 then ""
    else if |xs| == 1 then xs[0]
    else xs[0] + sep + Join(xs[1..], sep)
  }

  /** `s.split(c)` for a one-character separator. */
  function Split(s: string, c: char): (r: seq<string>)
    ensures |r| >= 1
  {
    if |s| == 0 then [""]
    else if s[0] == c then [""] + Split(s[1..], c)
    else
      var rest := Split(s[1..], c);
      [[s[0]] + rest[0]] + rest[1..]
  }

  /** A string without the separator splits into itself alone. */
  lemma {:induction false} SplitNoSeparator(s: string, c: char)
    requires c !in s
    ensures Split(s, c) == [s]
  {
    if |s| > 0 {
      SplitNoSeparator(s[1..], c);
      assert [s[0]] + s[1..] == s;
    }
  }

  /** Splitting at the first separator. */
  lemma {:induction false} SplitAtFirst(a: string, c: char, b: string)
    requires c !in a
    ensures Split(a + [c] + b, c) == [a] + Split(b, c)
  {
    if |a| == 0 {
      assert a + [c] + b == [c] + b;
      assert ([c] + b)[1..] == b;
    } else {
      var s := a + [c] + b;
      assert s[0] == a[0] && s[1..] == a[1..] + [c] + b;
      SplitAtFirst(a[1..], c, b);
      assert [a[0]] + a[1..] == a;
    }
  }

  /**
   * Splitting a list that was joined with ", " at ',' gives back the first
   * element and every later element preceded by one space.
   */
  lemma {:induction false} SplitJoinedList(p: string, xs: seq<string>)
    requires |xs| >= 1
    requires ',' !in p
    requires forall i :: 0 <= i < |xs| ==> ',' !in xs[i]
    decreases |xs|
    ensures Split(p + Join(xs, ", "), ',')
         == [p + xs[0]] + seq(|xs| - 1, i requires 0 <= i < |xs| - 1 => " " + xs[i + 1])
  {
    if |xs| == 1 {
      SplitNoSeparator(p + xs[0], ',');
    } else {
      var rest := xs[1..];
      assert p + Join(xs, ", ") == (p + xs[0]) + [','] + (" " + Join(rest, ", "));
      SplitAtFirst(p + xs[0], ',', " " + Join(rest, ", "));
      SplitJoinedList(" ", rest);
    }
  }

  /** A list joined with ", " splits at ',' into its first element and the later ones after one space. */
  lemma SplitJoin(xs: seq<string>)
    requires |xs| >= 1
    requires forall i :: 0 <= i < |xs| ==> ',' !in xs[i]
    ensures var pieces := Split(Join(xs, ", "), ',');
      && |pieces| == |xs| && pieces[0] == xs[0]
      && (forall i :: 1 <= i < |xs| ==> pieces[i] == " " + xs[i])
  {
    SplitJoinedList("", xs);
    assert "" + Join(xs, ", ") == Join(xs, ", ");
  }

  /** Text without the separator appended to a string extends its last piece. */
  lemma {:induction false} SplitAppendNoSeparator(s: string, q: string, c: char)
    requires c !in q
    ensures var a := Split(s, c);
      Split(s + q, c) == a[..|a| - 1] + [a[|a| - 1] + q]
  {
    if |s| == 0 {
      assert s + q == q;
      SplitNoSeparator(q, c);
    } else {
      assert (s + q)[0] == s[0] && (s + q)[1..] == s[1..] + q;
      SplitAppendNoSeparator(s[1..], q, c);
      var a := Split(s[1..], c);
      if s[0] != c {
        assert [s[0]] + (a[0] + q) == ([s[0]] + a[0]) + q;
      }
    }
  }

  /**
   * A list joined with ", " between a prefix and a suffix, none of them
   * holding a comma, splits into one piece per element: the first carries
   * the prefix, the last one space before it and the suffix after it, and
   * the pieces strictly inside are the elements preceded by one space.
   */
  lemma SplitJoinedListWithin(p: string, xs: seq<string>, q: string)
    requires |xs| >= 1
    requires ',' !in p && ',' !in q
    requires forall i :: 0 <= i < |xs| ==> ',' !in xs[i]
    ensures var pieces := Split(p + (Join(xs, ", ") + q), ',');
      && |pieces| == |xs|
      && (|xs| == 1 ==> pieces[0] == p + xs[0] + q)
      && (|xs| >= 2 ==> pieces[0] == p + xs[0] && pieces[|xs| - 1] == " " + xs[|xs| - 1] + q)
      && (forall i :: 1 <= i < |xs| - 1 ==> pieces[i] == " " + xs[i])
  {
    SplitJoinedList(p, xs);
    SplitAppendNoSeparator(p + Join(xs, ", "), q, ',');
    assert p + (Join(xs, ", ") + q) == p + Join(xs, ", ") + q;
  }

  // ---------------------------------------------------------------- numbers as text

  function DigitChar(d: nat): (c: char)
    requires d < 10
    ensures IsDigit(c) && (c as int) - ('0' as int) == d
  {
    ('0' as int + d) as char
  }

  /** `String(n)` for a non-negative integer. */
  function NatToString(n: nat): (r: string)
    ensures |r| >= 1 && AllDigits(r)
  {
    if n < 10 then [DigitChar(n)] else NatToString(n / 10) + [DigitChar(n % 10)]
  }

  /** `String(i)` for an integer. */
  function IntToString(i: int): string {
    if i < 0 then "-" + NatToString(-i) else NatToString(i)
  }

  /** `parseInt(s)` of a string made of decimal digits only. */
  function DigitsValue(s: string): nat
    requires AllDigits(s)
  {
    if |s| == 0 then 0 else DigitsValue(s[..|s| - 1]) * 10 + ((s[|s| - 1] as int) - ('0' as int))
  }

  /** Reading back the decimal text of a number gives the number. */
  lemma {:induction false} DigitsValueOfNatToString(n: nat)
    ensures DigitsValue(NatToString(n)) == n
  {
    var s := NatToString(n);
    if n >= 10 {
      DigitsValueOfNatToString(n / 10);
      assert s[..|s| - 1] == NatToString(n / 10);
    }
  }

  /** A decimal integer as `String(i)` writes it: an optional '-' and digits. */
  predicate IsIntText(s: string) {
    |s| >= 1 && ((s[0] != '-' && AllDigits(s)) || (s[0] == '-' && |s| >= 2 && AllDigits(s[1..])))
  }

  /** `parseInt(s)` of a decimal integer text. */
  function IntValue(s: string): int
    requires IsIntText(s)
  {
    if s[0] == '-' then -(DigitsValue(s[1..]) as int) else DigitsValue(s)
  }

  /** The text of an integer reads back as that integer. */
  lemma IntValueOfIntToString(i: int)
    ensures IsIntText(IntToString(i)) && IntValue(IntToString(i)) == i
  {
    if i < 0 {
      var s := IntToString(i);
      assert s[1..] == NatToString(-i);
      DigitsValueOfNatToString(-i);
    } else {
      DigitsValueOfNatToString(i);
    }
  }

  // ---------------------------------------------------------------- character classes and case

  /** `\w`: ASCII letters, digits and underscore. */
  predicate IsWordChar(c: char) {
    ('a' <= c <= 'z') || ('A' <= c <= 'Z') || IsDigit(c) || c == '_'
  }

  function LowerAscii(c: char): (r: char)
    ensures IsWordChar(r) <==> IsWordChar(c)
    ensures !('A' <= r <= 'Z')
  {
    if 'A' <= c <= 'Z' then (c as int + 32) as char else c
  }

  function UpperAscii(c: char): (r: char)
    ensures IsWordChar(r) <==> IsWordChar(c)
    ensures !('a' <= r <= 'z')
  {
    if 'a' <= c <= 'z' then (c as int - 32) as char else c
  }

  /**
   * JavaScript's `s.length`: UTF-16 code units, two for a character
   * outside the Basic Multilingual Plane.
   */
  function Utf16Length(s: string): (n: nat)
    ensures |s| <= n <= 2 * |s|
    ensures (forall i :: 0 <= i < |s| ==> s[i] as int < 0x1_0000) ==> n == |s|
  {
    if |s| == 0 then 0 else (if s[0] as int < 0x1_0000 then 1 else 2) + Utf16Length(s[1..])
  }

  /** `s.replace(/\D/g, '')`: keeps the ASCII digits, in order. */
  function KeepDigits(s: string): (r: string)
    ensures AllDigits(r) && |r| <= |s|
  {
    if |s| == 0 then ""
    else if IsDigit(s[0]) then [s[0]] + KeepDigits(s[1..])
    else KeepDigits(s[1..])
  }

  /** A string of digits only is left as it is. */
  lemma {:induction false} KeepDigitsOfDigits(s: string)
    requires AllDigits(s)
    ensures KeepDigits(s) == s
  {
    if |s| > 0 {
      KeepDigitsOfDigits(s[1..]);
      assert [s[0]] + s[1..] == s;
    }
  }

  /** Removing non-digits twice is the same as once. */
  lemma KeepDigitsIdempotent(s: string)
    ensures KeepDigits(KeepDigits(s)) == KeepDigits(s)
  {
    KeepDigitsOfDigits(KeepDigits(s));
  }

  /** Digits are kept from both halves of a concatenation. */
  lemma {:induction false} KeepDigitsAppend(a: string, b: string)
    ensures KeepDigits(a + b) == KeepDigits(a) + KeepDigits(b)
  {
    if |a| > 0 {
      assert (a + b)[0] == a[0] && (a + b)[1..] == a[1..] + b;
      KeepDigitsAppend(a[1..], b);
    } else {
      assert a + b == b;
    }
  }

  // ---------------------------------------------------------------- reading a link back

  /** The text before the first `c`, or all of it when there is none. */
  function Before(s: string, c: char): (r: string)
    ensures c !in r && |r| <= |s|
  {
    if |s| == 0 || s[0] == c then "" else [s[0]] + Before(s[1..], c)
  }

  /** The text after the first `c`, or "" when there is none. */
  function After(s: string, c: char): (r: string)
    ensures |r| <= |s|
  {
    if |s| == 0 then "" else if s[0] == c then s[1..] else After(s[1..], c)
  }

  /** A text with no `c` before a `c` is what `Before` gives back; the rest is what `After` gives. */
  lemma {:induction false} BeforeAfter(a: string, c: char, b: string)
    requires c !in a
    ensures Before(a + [c] + b, c) == a && After(a + [c] + b, c) == b
  {
    if |a| == 0 {
      assert a + [c] + b == [c] + b;
      assert ([c] + b)[1..] == b;
    } else {
      var s := a + [c] + b;
      assert s[0] == a[0] && s[1..] == a[1..] + [c] + b;
      BeforeAfter(a[1..], c, b);
      assert [a[0]] + a[1..] == a;
    }
  }

  /**
   * A link written as a prefix, a segment without '?', then '?' and a
   * query: after the prefix, the segment and the query are read back.
   */
  lemma EnlaceLegible(p: string, d: string, q: string)
    requires '?' !in d
    ensures var u := p + d + "?" + q;
      && StartsWith(u, p)
      && Before(u[|p|..], '?') == d && After(u[|p|..], '?') == q
  {
    var u := p + d + "?" + q;
    assert u[..|p|] == p;
    assert u[|p|..] == d + ['?'] + q;
    BeforeAfter(d, '?', q);
  }
}
