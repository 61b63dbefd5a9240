/** The JavaScript string built-ins the hosting code relies on, with their
    ECMAScript behaviour written out: `split` on a one-character separator,
    `replace` with a string pattern (first occurrence only), `includes`,
    case-insensitive containment as a `RegExp` with the `i` flag performs it on
    ASCII text, `parseInt` with no radix, and the decimal rendering of an
    integer `Number`. */
module JsText {
  import opened Wrappers

  // ---------------------------------------------------------------------
  // split / join
  // ---------------------------------------------------------------------

  /** `parts.join(sep)`. */
  function Join(parts: seq<string>, sep: char): string
    requires |parts| >= 1
  {
    if |parts| == 1 then parts[0] else parts[0] + [sep] + Join(parts[1..], sep)
  }

  /** `s.split(sep)`: the maximal separator-free pieces between separators;
      the empty string splits into one empty piece, a trailing separator
      yields a trailing empty piece. */
  function Split(s: string, sep: char): (parts: seq<string>)
    ensures |parts| >= 1
    ensures forall i :: 0 <= i < |parts| ==> sep !in parts[i]
    ensures Join(parts, sep) == s
  {
    if |s| == 0 then [""]
    else if s[0] == sep then
      var rest := Split(s[1..], sep);
      assert [sep] + s[1..] == s;
      [""] + rest
    else
      var rest := Split(s[1..], sep);
      var parts := [[s[0]] + rest[0]] + rest[1..];
      assert forall i :: 1 <= i < |parts| ==> parts[i] == rest[i];
      assert Join(parts, sep) == [s[0]] + Join(rest, sep) by {
        if |rest| > 1 {
          assert parts[1..] == rest[1..];
        }
      }
      assert [s[0]] + s[1..] == s;
      parts
  }

  /** A separator-free string is a single piece. */
  lemma {:induction false} SplitNoSeparator(a: string, sep: char)
    requires sep !in a
    ensures Split(a, sep) == [a]
  {
    if |a| > 0 {
      SplitNoSeparator(a[1..], sep);
      assert [a[0]] + a[1..] == a;
    }
  }

  /** The first piece ends at the first separator. */
  lemma {:induction false} SplitAtFirstSeparator(a: string, sep: char, b: string)
    requires sep !in a
    ensures Split(a + [sep] + b, sep) == [a] + Split(b, sep)
  {
    if |a| == 0 {
      assert a + [sep] + b == [sep] + b;
      assert ([sep] + b)[1..] == b;
    } else {
      assert (a + [sep] + b)[1..] == a[1..] + [sep] + b;
      SplitAtFirstSeparator(a[1..], sep, b);
      assert [a[0]] + a[1..] == a;
    }
  }

  /** Splitting undoes joining separator-free pieces. */
  lemma {:induction false} SplitJoin(parts: seq<string>, sep: char)
    requires |parts| >= 1
    requires forall i :: 0 <= i < |parts| ==> sep !in parts[i]
    ensures Split(Join(parts, sep), sep) == parts
  {
    if |parts| == 1 {
      SplitNoSeparator(parts[0], sep);
    } else {
      SplitJoin(parts[1..], sep);
      SplitAtFirstSeparator(parts[0], sep, Join(parts[1..], sep));
      assert [parts[0]] + parts[1..] == parts;
    }
  }

  // ---------------------------------------------------------------------
  // indexOf / includes / replace
  // ---------------------------------------------------------------------

  predicate MatchesAt(s: string, pat: string, j: nat) {
    j + |pat| <= |s| && s[j..j + |pat|] == pat
  }

  function IndexFrom(s: string, pat: string, from: nat): (r: Option<nat>)
    requires from <= |s| + 1
    ensures r.Some? ==> from <= r.value && MatchesAt(s, pat, r.value)
    ensures r.Some? ==> forall j :: from <= j < r.value ==> !MatchesAt(s, pat, j)
    ensures r.None? ==> forall j :: from <= j ==> !MatchesAt(s, pat, j)
    decreases |s| + 1 - from
  {
    if from + |pat| > |s| then None
    else if MatchesAt(s, pat, from) then Some(from)
    else IndexFrom(s, pat, from + 1)
  }

  /** `s.indexOf(pat)`, with `None` for -1. */
  function IndexOf(s: string, pat: string): (r: Option<nat>)
    ensures r.Some? ==> MatchesAt(s, pat, r.value)
    ensures r.Some? ==> forall j :: 0 <= j < r.value ==> !MatchesAt(s, pat, j)
    ensures r.None? ==> forall j :: 0 <= j ==> !MatchesAt(s, pat, j)
  {
    IndexFrom(s, pat, 0)
  }

  /** `s.includes(pat)`, and equally `new RegExp(pat).test(s)` for a pattern
      without metacharacters. */
  predicate Contains(s: string, pat: string) {
    exists j :: 0 <= j <= |s| && MatchesAt(s, pat, j)
  }

  /** `s.replace(pat, rep)` with a STRING pattern: only the first occurrence,
      wherever it is, is replaced. */
  function ReplaceFirst(s: string, pat: string, rep: string): (r: string)
    ensures !Contains(s, pat) ==> r == s
    ensures Contains(s, pat) ==>
      exists i: nat :: MatchesAt(s, pat, i) && (forall j :: 0 <= j < i ==> !MatchesAt(s, pat, j)) &&
        r == s[..i] + rep + s[i + |pat|..]
  {
    match IndexOf(s, pat)
    case None => s
    case Some(i) => s[..i] + rep + s[i + |pat|..]
  }

  /** Replacing an occurrence at the very start drops that prefix. */
  lemma ReplaceFirstAtStart(s: string, pat: string, rep: string)
    requires MatchesAt(s, pat, 0)
    ensures ReplaceFirst(s, pat, rep) == rep + s[|pat|..]
  {
    assert IndexFrom(s, pat, 0) == Some(0);
    assert s[..0] + rep == rep;
  }

  // ---------------------------------------------------------------------
  // Case-insensitive containment (RegExp with the `i` flag)
  // ---------------------------------------------------------------------

  /** The regular-expression canonicalisation of a character, restricted to
      ASCII letters. */
  function UpperAscii(c: char): (u: char)
    ensures 'a' <= c <= 'z' ==> 'A' <= u <= 'Z' && u as int == c as int - 32
    ensures !('a' <= c <= 'z') ==> u == c
  {
    if 'a' <= c <= 'z' then (c as int - 32) as char else c
  }

  function Canonical(s: string): (r: string)
    ensures |r| == |s| && forall i :: 0 <= i < |s| ==> r[i] == UpperAscii(s[i])
  {
    seq(|s|, i requires 0 <= i < |s| => UpperAscii(s[i]))
  }

  /** `new RegExp(pat, "i").test(s)` for a pattern without metacharacters. */
  predicate ContainsIgnoreCase(s: string, pat: string) {
    Contains(Canonical(s), Canonical(pat))
  }

  // ---------------------------------------------------------------------
  // parseInt and integer rendering
  // ---------------------------------------------------------------------

  /** A JavaScript number as far as the hash cache needs one: an integer
      value or NaN. */
  datatype IntOrNaN = Int(value: int) | NaN

  /** StrWhiteSpaceChar of ECMAScript: white space and line terminators. */
  predicate IsStrWhiteSpace(c: char) {
    || '\t' <= c <= '\r'                 // tab, line feed, vertical tab, form feed, carriage return
    || c == ' ' || c == '\U{00A0}' || c == '\U{1680}'
    || '\U{2000}' <= c <= '\U{200A}'
    || c == '\U{2028}' || c == '\U{2029}' || c == '\U{202F}' || c == '\U{205F}'
    || c == '\U{3000}' || c == '\U{FEFF}'
  }

  function TrimStart(s: string): (r: string)
    ensures |r| <= |s| && r == s[|s| - |r|..]
    ensures |r| > 0 ==> !IsStrWhiteSpace(r[0])
    ensures forall i :: 0 <= i < |s| - |r| ==> IsStrWhiteSpace(s[i])
  {
    if |s| > 0 && IsStrWhiteSpace(s[0]) then TrimStart(s[1..]) else s
  }

  /** The value of a digit character in radix 10 or 16, or -1. */
  function DigitValue(c: char, radix: nat): (d: int)
    requires radix == 10 || radix == 16
    ensures -1 <= d < radix
  {
    if '0' <= c <= '9' then c as int - '0' as int
    else if radix == 16 && 'a' <= c <= 'f' then c as int - 'a' as int + 10
    else if radix == 16 && 'A' <= c <= 'F' then c as int - 'A' as int + 10
    else -1
  }

  /** The longest prefix of `s` made of digits of the radix. */
  function DigitPrefix(s: string, radix: nat): (ds: string)
    requires radix == 10 || radix == 16
    ensures ds <= s
    ensures forall i :: 0 <= i < |ds| ==> DigitValue(ds[i], radix) >= 0
    ensures |ds| < |s| ==> DigitValue(s[|ds|], radix) < 0
  {
    if |s| > 0 && DigitValue(s[0], radix) >= 0 then [s[0]] + DigitPrefix(s[1..], radix) else ""
  }

  /** The value of a digit string, most significant digit first. */
  function DigitsValue(ds: string, radix: nat): nat
    requires radix == 10 || radix == 16
    requires forall i :: 0 <= i < |ds| ==> DigitValue(ds[i], radix) >= 0
  {
    if |ds| == 0 then 0
    else DigitsValue(ds[..|ds| - 1], radix) * radix + DigitValue(ds[|ds| - 1], radix)
  }

  /** `parseInt(s)` with no radix argument: skip leading white space, take an
      optional sign, then read an unsigned number. */
  function ParseInt(s: string): IntOrNaN {
    var t := TrimStart(s);
    if |t| > 0 && t[0] == '-' then Negate(ParseUnsigned(t[1..]))
    else if |t| > 0 && t[0] == '+' then ParseUnsigned(t[1..])
    else ParseUnsigned(t)
  }

  function Negate(x: IntOrNaN): IntOrNaN {
    match x
    case NaN => NaN
    case Int(v) => Int(-v)
  }

  /** After the sign: a `0x`/`0X` prefix switches to radix 16. */
  function ParseUnsigned(u: string): IntOrNaN {
    if |u| >= 2 && u[0] == '0' && (u[1] == 'x' || u[1] == 'X') then ParseDigits(u[2..], 16)
    else ParseDigits(u, 10)
  }

  /** The longest run of digits at the start; no digit at all gives NaN. */
  function ParseDigits(s: string, radix: nat): IntOrNaN
    requires radix == 10 || radix == 16
  {
    var ds := DigitPrefix(s, radix);
    if |ds| == 0 then NaN else Int(DigitsValue(ds, radix))
  }

  function DigitChar(d: nat): (c: char)
    requires d < 10
    ensures DigitValue(c, 10) == d
  {
    ('0' as int + d) as char
  }

  /** The decimal digits of a natural number, without leading zeros. */
  function Decimal(n: nat): (r: string)
    ensures |r| >= 1
    ensures forall i :: 0 <= i < |r| ==> '0' <= r[i] <= '9'
    ensures forall i :: 0 <= i < |r| ==> DigitValue(r[i], 10) >= 0
    ensures r[0] == '0' ==> n == 0 && |r| == 1
  {
    if n < 10 then [DigitChar(n)] else Decimal(n / 10) + [DigitChar(n % 10)]
  }

  /** `String(x)` (equally `${x}`) for an integer or NaN. */
  function NumberToString(x: IntOrNaN): string {
    match x
    case NaN => "NaN"
    case Int(k) => if k < 0 then "-" + Decimal(-k) else Decimal(k)
  }

  /** A rendered number holds neither a comma nor a line feed. */
  lemma NumberToStringSeparatorFree(x: IntOrNaN)
    ensures ',' !in NumberToString(x) && '\n' !in NumberToString(x)
  {
    if x.Int? {
      var d := Decimal(if x.value < 0 then -x.value else x.value);
      assert ',' !in d && '\n' !in d;
    }
  }

  lemma {:induction false} DecimalValue(n: nat)
    ensures DigitsValue(Decimal(n), 10) == n
  {
    if n >= 10 {
      DecimalValue(n / 10);
      var r := Decimal(n);
      assert r[..|r| - 1] == Decimal(n / 10);
    }
  }

  lemma {:induction false} DigitPrefixAll(ds: string, radix: nat)
    requires radix == 10 || radix == 16
    requires forall i :: 0 <= i < |ds| ==> DigitValue(ds[i], radix) >= 0
    ensures DigitPrefix(ds, radix) == ds
  {
    if |ds| > 0 {
      DigitPrefixAll(ds[1..], radix);
      assert [ds[0]] + ds[1..] == ds;
    }
  }

  /** A decimal rendering parses back as an unsigned number. */
  lemma ParseUnsignedDecimal(m: nat)
    ensures ParseUnsigned(Decimal(m)) == Int(m)
  {
    var d := Decimal(m);
    assert !(|d| >= 2 && d[0] == '0');
    DigitPrefixAll(d, 10);
    DecimalValue(m);
  }

  lemma ParseIntNaN()
    ensures ParseInt("NaN") == NaN
  {
    assert !IsStrWhiteSpace('N');
    assert TrimStart("NaN") == "NaN";
    assert DigitPrefix("NaN", 10) == "";
  }

  lemma ParseIntNonNegative(k: nat)
    ensures ParseInt(NumberToString(Int(k))) == Int(k)
  {
    var d := Decimal(k);
    assert NumberToString(Int(k)) == d;
    ParseUnsignedDecimal(k);
    assert !IsStrWhiteSpace(d[0]);
    assert TrimStart(d) == d;
  }

  lemma ParseIntNegative(k: nat)
    requires k > 0
    ensures ParseInt(NumberToString(Int(-(k as int)))) == Int(-(k as int))
  {
    var d := Decimal(k);
    var s := "-" + d;
    assert NumberToString(Int(-(k as int))) == s;
    ParseUnsignedDecimal(k);
    assert !IsStrWhiteSpace(s[0]);
    assert TrimStart(s) == s;
    assert s[1..] == d;
  }

  /** `parseInt(String(x)) == x` for every integer and for NaN. */
  lemma ParseIntOfNumberToString(x: IntOrNaN)
    ensures ParseInt(NumberToString(x)) == x
  {
    match x
    case NaN => ParseIntNaN();
    case Int(k) =>
      if k < 0 {
        ParseIntNegative(-k);
      } else {
        ParseIntNonNegative(k);
      }
  }
}
