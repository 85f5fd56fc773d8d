/**
  The JavaScript string built-ins the core relies on, written out over
  `string` (a sequence of characters): String.prototype.trim, the character
  class filters done with `replace(/[...]/g, "")`, `parseFloat`, `Number`,
  `parseInt`, `startsWith`, `includes` and `split`.

  Numbers are read as exact reals. The decimal grammar modelled is
  [sign] (digits ['.' digits] | '.' digits); exponents, hexadecimal literals
  and "Infinity" are not part of it. `parseInt` without a radix also reads
  the hexadecimal form `0x...`.
 */
module JsText {
  import opened Common

  // ---------------------------------------------------------------------------
  // Character classes

  predicate IsDigit(c: char) { '0' <= c <= '9' }

  /** The value of a decimal digit (only ever applied to digits). */
  function DigitValue(c: char): (d: nat)
    ensures d <= 9
  {
    if IsDigit(c) then c as int - '0' as int else 0
  }

  /** The characters JavaScript's `trim` and the regular-expression class `\s` match. */
  predicate IsJsWhitespace(c: char)
  {
    var n := c as int;
    n == 0x09 || n == 0x0A || n == 0x0B || n == 0x0C || n == 0x0D || n == 0x20
    || n == 0xA0 || n == 0x1680 || (0x2000 <= n <= 0x200A) || n == 0x2028 || n == 0x2029
    || n == 0x202F || n == 0x205F || n == 0x3000 || n == 0xFEFF
  }

  predicate AllDigits(s: string) { forall i :: 0 <= i < |s| ==> IsDigit(s[i]) }

  // ---------------------------------------------------------------------------
  // trim

  /** The index of the first character at or after i that is not whitespace. */
  function SpaceEnd(s: string, i: nat): (j: nat)
    requires i <= |s|
    ensures i <= j <= |s|
    ensures j == |s| || !IsJsWhitespace(s[j])
    decreases |s| - i
  {
    if i < |s| && IsJsWhitespace(s[i]) then SpaceEnd(s, i + 1) else i
  }

  /** The index just past the last character before j that is not whitespace. */
  function SpaceStart(s: string, j: nat): (i: nat)
    requires j <= |s|
    ensures i <= j
    ensures i == 0 || !IsJsWhitespace(s[i - 1])
  {
    if j > 0 && IsJsWhitespace(s[j - 1]) then SpaceStart(s, j - 1) else j
  }

  lemma {:induction false} SpaceEndSkipsBlanks(s: string, i: nat)
    requires i <= |s|
    ensures forall k :: i <= k < SpaceEnd(s, i) ==> IsJsWhitespace(s[k])
    decreases |s| - i
  {
    if i < |s| && IsJsWhitespace(s[i]) {
      SpaceEndSkipsBlanks(s, i + 1);
    }
  }

  lemma {:induction false} SpaceStartSkipsBlanks(s: string, j: nat)
    requires j <= |s|
    ensures forall k :: SpaceStart(s, j) <= k < j ==> IsJsWhitespace(s[k])
  {
    if j > 0 && IsJsWhitespace(s[j - 1]) {
      SpaceStartSkipsBlanks(s, j - 1);
    }
  }

  /** `trimStart`: drops the leading run of whitespace and nothing else. */
  function TrimStart(s: string): string
  {
    var i := SpaceEnd(s, 0);
    if i == 0 then s else s[i..]
  }

  /** `trimEnd`: drops the trailing run of whitespace and nothing else. */
  function TrimEnd(s: string): string
  {
    var j := SpaceStart(s, |s|);
    if j == |s| then s else s[..j]
  }

  /** `trim`. */
  function Trim(s: string): string
  {
    TrimEnd(TrimStart(s))
  }

  /** A string that neither starts nor ends with whitespace is its own trim. */
  lemma TrimUnchanged(s: string)
    requires s == [] || (!IsJsWhitespace(s[0]) && !IsJsWhitespace(s[|s| - 1]))
    ensures TrimStart(s) == s && TrimEnd(s) == s && Trim(s) == s
  {
  }

  /** Trimming twice is trimming once. */
  lemma TrimIdempotent(s: string)
    ensures Trim(Trim(s)) == Trim(s)
  {
    var u := TrimStart(s);
    var t := Trim(s);
    if t != [] {
      assert t[0] == u[0] && !IsJsWhitespace(u[0]);
      TrimUnchanged(t);
    }
  }

  /** A string is blank when `trim` leaves nothing of it: every character is whitespace. */
  lemma TrimEmptyIffBlank(s: string)
    ensures Trim(s) == [] <==> forall i :: 0 <= i < |s| ==> IsJsWhitespace(s[i])
  {
    SpaceEndSkipsBlanks(s, 0);
    var t := TrimStart(s);
    if t != [] {
      assert !IsJsWhitespace(t[0]);
      SpaceStartSkipsBlanks(t, |t|);
    }
  }

  // ---------------------------------------------------------------------------
  // Regular-expression character filters: s.replace(/[^...]/g, "") keeps the
  // characters of a class, s.replace(/[...]/g, "") drops them.

  /** The characters of s satisfying p, in their original order. */
  function Keep(s: string, p: char -> bool): string
  {
    if s == [] then [] else Keep(s[..|s| - 1], p) + (if p(s[|s| - 1]) then [s[|s| - 1]] else [])
  }

  lemma {:induction false} KeepAppend(a: string, b: string, p: char -> bool)
    ensures Keep(a + b, p) == Keep(a, p) + Keep(b, p)
    decreases |b|
  {
    if b == [] {
      assert a + b == a;
    } else {
      assert (a + b)[..|a + b| - 1] == a + b[..|b| - 1];
      KeepAppend(a, b[..|b| - 1], p);
    }
  }

  /**
    Keep is the filter: what it keeps satisfies p, each character satisfying p
    occurs as often as in s, and every other character is gone.
   */
  lemma {:induction false} KeepIsFilter(s: string, p: char -> bool)
    ensures forall i :: 0 <= i < |Keep(s, p)| ==> p(Keep(s, p)[i])
    ensures forall c :: multiset(Keep(s, p))[c] == if p(c) then multiset(s)[c] else 0
  {
    if s != [] {
      var init := s[..|s| - 1];
      var x := s[|s| - 1];
      KeepIsFilter(init, p);
      assert s == init + [x];
      assert multiset(s) == multiset(init) + multiset{x};
    }
  }

  lemma {:induction false} KeepIdentity(s: string, p: char -> bool)
    requires forall i :: 0 <= i < |s| ==> p(s[i])
    ensures Keep(s, p) == s
  {
    if s != [] {
      KeepIdentity(s[..|s| - 1], p);
    }
  }

  lemma KeepIdempotent(s: string, p: char -> bool)
    ensures Keep(Keep(s, p), p) == Keep(s, p)
  {
    KeepIsFilter(s, p);
    KeepIdentity(Keep(s, p), p);
  }

  // ---------------------------------------------------------------------------
  // Decimal numerals

  function Pow10(n: nat): (p: nat)
    ensures p >= 1
  {
    if n == 0 then 1 else 10 * Pow10(n - 1)
  }

  /** The value of a string of decimal digits, read most significant digit first. */
  function DigitsValue(ds: string): nat
  {
    if ds == [] then 0 else DigitsValue(ds[..|ds| - 1]) * 10 + DigitValue(ds[|ds| - 1])
  }

  /** The value of the digits after a decimal point. */
  function FractionValue(ds: string): real
  {
    DigitsValue(ds) as real / Pow10(|ds|) as real
  }

  /** The end of the run of digits that starts at index i of s. */
  function DigitsEnd(s: string, i: nat): (j: nat)
    requires i <= |s|
    ensures i <= j <= |s|
    ensures j == |s| || !IsDigit(s[j])
    decreases |s| - i
  {
    if i < |s| && IsDigit(s[i]) then DigitsEnd(s, i + 1) else i
  }

  /** The run DigitsEnd measures is made of digits only. */
  lemma {:induction false} DigitsEndAreDigits(s: string, i: nat)
    requires i <= |s|
    ensures forall k :: i <= k < DigitsEnd(s, i) ==> IsDigit(s[k])
    decreases |s| - i
  {
    if i < |s| && IsDigit(s[i]) {
      DigitsEndAreDigits(s, i + 1);
    }
  }

  /** A run of digits reaching the end of the string ends there. */
  lemma {:induction false} DigitsEndAll(s: string, i: nat)
    requires i <= |s|
    requires forall k :: i <= k < |s| ==> IsDigit(s[k])
    ensures DigitsEnd(s, i) == |s|
    decreases |s| - i
  {
    if i < |s| {
      DigitsEndAll(s, i + 1);
    }
  }

  /** Appending text after a string does not change a digit run that stops inside it. */
  lemma {:induction false} DigitsEndTail(t: string, rest: string, i: nat)
    requires i <= |t|
    requires DigitsEnd(t, i) < |t| || rest == [] || !IsDigit(rest[0])
    ensures DigitsEnd(t + rest, i) == DigitsEnd(t, i)
    decreases |t| - i
  {
    if i < |t| && IsDigit(t[i]) {
      DigitsEndTail(t, rest, i + 1);
    }
  }

  /** A numeral read from a string: the index just after it and its value. */
  datatype Scan = Scan(end: nat, value: real)

  /**
    The longest numeral of the form digits ['.' digits] or '.' digits (with at
    least one digit) starting at index i of s; None when none starts there.
   */
  function DecimalAt(s: string, i: nat): (r: Option<Scan>)
    requires i <= |s|
    ensures r.Some? ==> i < r.value.end <= |s|
    ensures r.Some? ==> r.value.end == |s| || !IsDigit(s[r.value.end])
    ensures r.None? <==> DigitsEnd(s, i) == i && (i + 1 >= |s| || s[i] != '.' || !IsDigit(s[i + 1]))
  {
    var n := DigitsEnd(s, i);
    if n < |s| && s[n] == '.' then
      var e := DigitsEnd(s, n + 1);
      if n == i && e == n + 1 then None
      else Some(Scan(e, DigitsValue(s[i..n]) as real + FractionValue(s[n + 1..e])))
    else if n == i then None
    else Some(Scan(n, DigitsValue(s[i..n]) as real))
  }

  /** An optional '+' or '-' followed by an unsigned numeral, at the start of s. */
  function SignedDecimal(s: string): (r: Option<Scan>)
    ensures r.Some? ==> 0 < r.value.end <= |s|
  {
    if s != [] && (s[0] == '+' || s[0] == '-') then
      match DecimalAt(s, 1)
      case None => None
      case Some(sc) => Some(Scan(sc.end, if s[0] == '-' then -sc.value else sc.value))
    else DecimalAt(s, 0)
  }

  /**
    `parseFloat(s) || 0`: the value of the longest numeral after the leading
    whitespace; 0 when there is none (JavaScript's NaN, which `|| 0` turns into 0).
   */
  function ParseFloatOr0(s: string): real
  {
    match SignedDecimal(TrimStart(s))
    case None => 0.0
    case Some(sc) => sc.value
  }

  /** The value the JavaScript `Number` conversion gives a whole string, when it gives a number. */
  function NumberValue(s: string): Option<real>
  {
    var t := Trim(s);
    if t == [] then Some(0.0)
    else match SignedDecimal(t)
      case Some(sc) => if sc.end == |t| then Some(sc.value) else None
      case None => None
  }

  /** `Number(s) || 0`: the whole trimmed string must be a numeral; anything else gives 0. */
  function NumberOr0(s: string): real
  {
    match NumberValue(s)
    case Some(v) => v
    case None => 0.0
  }

  /** An empty cell reads as 0 under both conversions. */
  lemma EmptyReadsZero()
    ensures ParseFloatOr0("") == 0.0 && NumberOr0("") == 0.0
  {
    TrimUnchanged("");
  }

  /** A string of digits is read as its decimal value. */
  lemma DecimalOfDigits(ds: string)
    requires ds != [] && AllDigits(ds)
    ensures DecimalAt(ds, 0) == Some(Scan(|ds|, DigitsValue(ds) as real))
  {
    DigitsEndAll(ds, 0);
    assert ds[0..|ds|] == ds;
  }

  /** Both parsers read a plain string of digits as its decimal value. */
  lemma NumeralsOfDigits(ds: string)
    requires ds != [] && AllDigits(ds)
    ensures NumberOr0(ds) == DigitsValue(ds) as real
    ensures ParseFloatOr0(ds) == DigitsValue(ds) as real
  {
    DecimalOfDigits(ds);
    assert IsDigit(ds[0]) && IsDigit(ds[|ds| - 1]);
    TrimUnchanged(ds);
    assert SignedDecimal(ds) == DecimalAt(ds, 0);
  }

  /** `parseFloat` stops at the first character that cannot continue the numeral; `Number` rejects it. */
  lemma TrailingGarbage()
    ensures ParseFloatOr0("12a") == 12.0
    ensures NumberOr0("12a") == 0.0
  {
    var s := "12a";
    assert !IsJsWhitespace(s[0]) && !IsJsWhitespace(s[2]);
    TrimUnchanged(s);
    assert DigitsEnd(s, 2) == 2;
    assert DigitsEnd(s, 0) == 2;
    assert s[0..2] == "12";
    assert DigitsValue("12") == 12 by {
      assert "12"[..1] == "1";
    }
  }

  /**
    Whenever `Number` reads a string as a number, `parseFloat` reads the same
    value from it: the two parsers differ only on strings `Number` rejects.
   */
  lemma NumberAgreesWithParseFloat(s: string)
    requires NumberValue(s).Some? && Trim(s) != []
    ensures ParseFloatOr0(s) == NumberOr0(s)
  {
    var u := TrimStart(s);
    var t := TrimEnd(u);
    assert t == Trim(s);
    var sc := SignedDecimal(t).value;
    assert sc.end == |t| && NumberOr0(s) == sc.value;
    var rest := u[|t|..];
    assert u == t + rest;
    SpaceStartSkipsBlanks(u, |u|);
    assert forall i :: 0 <= i < |rest| ==> rest[i] == u[|t| + i];
    ScanIgnoresTrailingWhitespace(t, rest);
    assert SignedDecimal(u) == Some(sc);
  }

  /** Appending whitespace after a complete numeral does not change how it is scanned. */
  lemma ScanIgnoresTrailingWhitespace(t: string, rest: string)
    requires SignedDecimal(t).Some? && SignedDecimal(t).value.end == |t|
    requires forall i :: 0 <= i < |rest| ==> IsJsWhitespace(rest[i])
    ensures SignedDecimal(t + rest) == SignedDecimal(t)
  {
    if rest == [] {
      assert t + rest == t;
    } else {
      assert !IsDigit(rest[0]) && rest[0] != '.';
      assert (t + rest)[0] == t[0];
      if t[0] == '+' || t[0] == '-' {
        DecimalAtTail(t, rest, 1);
      } else {
        DecimalAtTail(t, rest, 0);
      }
    }
  }

  lemma DecimalAtTail(t: string, rest: string, i: nat)
    requires i <= |t|
    requires DecimalAt(t, i).Some? && DecimalAt(t, i).value.end == |t|
    requires rest != [] && !IsDigit(rest[0]) && rest[0] != '.'
    ensures DecimalAt(t + rest, i) == DecimalAt(t, i)
  {
    var s := t + rest;
    var n := DigitsEnd(t, i);
    DigitsEndTail(t, rest, i);
    assert s[i..n] == t[i..n];
    if n < |t| && t[n] == '.' {
      DigitsEndTail(t, rest, n + 1);
      var e := DigitsEnd(t, n + 1);
      assert s[n + 1..e] == t[n + 1..e];
    }
  }

  predicate IsHexDigit(c: char) { IsDigit(c) || 'a' <= c <= 'f' || 'A' <= c <= 'F' }

  /** The value of a hexadecimal digit (only ever applied to hexadecimal digits). */
  function HexDigitValue(c: char): (d: nat)
    ensures d < 16
    ensures IsDigit(c) ==> d == DigitValue(c)
  {
    if IsDigit(c) then DigitValue(c)
    else if 'a' <= c <= 'f' then c as int - 'a' as int + 10
    else if 'A' <= c <= 'F' then c as int - 'A' as int + 10
    else 0
  }

  /** The value of a string of hexadecimal digits, read most significant digit first. */
  function HexValue(ds: string): nat
  {
    if ds == [] then 0 else HexValue(ds[..|ds| - 1]) * 16 + HexDigitValue(ds[|ds| - 1])
  }

  /** The end of the run of hexadecimal digits that starts at index i of s. */
  function HexEnd(s: string, i: nat): (j: nat)
    requires i <= |s|
    ensures i <= j <= |s|
    ensures j == |s| || !IsHexDigit(s[j])
    decreases |s| - i
  {
    if i < |s| && IsHexDigit(s[i]) then HexEnd(s, i + 1) else i
  }

  /** A run of hexadecimal digits reaching the end of the string ends there. */
  lemma {:induction false} HexEndAll(s: string, i: nat)
    requires i <= |s|
    requires forall k :: i <= k < |s| ==> IsHexDigit(s[k])
    ensures HexEnd(s, i) == |s|
    decreases |s| - i
  {
    if i < |s| {
      HexEndAll(s, i + 1);
    }
  }

  lemma HexDigitNotBlank(c: char)
    requires IsHexDigit(c)
    ensures !IsJsWhitespace(c)
  {
  }

  /** The text after the sign starts with the prefix `0x` or `0X`. */
  predicate HexPrefixAt(t: string, i: nat)
  {
    i + 2 <= |t| && t[i] == '0' && (t[i + 1] == 'x' || t[i + 1] == 'X')
  }

  /**
    `parseInt(s)` with no radix, on a string: leading whitespace is skipped,
    one sign is read, a `0x` or `0X` prefix selects base 16 and otherwise the
    base is 10; the value is that of the longest run of digits of the base
    that follows, and None (NaN) when that run is empty.
   */
  function ParseIntPrefix(s: string): Option<int>
  {
    var t := TrimStart(s);
    var start := if t != [] && (t[0] == '+' || t[0] == '-') then 1 else 0;
    var negative := start == 1 && t[0] == '-';
    if HexPrefixAt(t, start) then
      var e := HexEnd(t, start + 2);
      if e == start + 2 then None
      else
        var v := HexValue(t[start + 2..e]) as int;
        Some(if negative then -v else v)
    else
      var e := DigitsEnd(t, start);
      if e == start then None
      else
        var v := DigitsValue(t[start..e]) as int;
        Some(if negative then -v else v)
  }

  /** A numeral written `0x` followed by hexadecimal digits reads in base 16. */
  lemma ParseIntHex(h: string)
    requires h != [] && forall k :: 0 <= k < |h| ==> IsHexDigit(h[k])
    ensures ParseIntPrefix("0x" + h) == Some(HexValue(h) as int)
  {
    var s := "0x" + h;
    assert s[2..] == h;
    ParseIntHexAt(s);
  }

  lemma ParseIntHexAt(s: string)
    requires |s| > 2 && s[0] == '0' && s[1] == 'x'
    requires forall k :: 2 <= k < |s| ==> IsHexDigit(s[k])
    ensures ParseIntPrefix(s) == Some(HexValue(s[2..]) as int)
  {
    HexDigitNotBlank(s[|s| - 1]);
    TrimUnchanged(s);
    HexEndAll(s, 2);
    assert s[2..|s|] == s[2..];
  }

  /** The prefix `0x` with no hexadecimal digit after it is NaN, not 0. */
  lemma ParseIntBareHexPrefix()
    ensures ParseIntPrefix("0x") == None
  {
    var s := "0x";
    assert !IsJsWhitespace(s[0]) && !IsJsWhitespace(s[1]);
    TrimUnchanged(s);
    assert HexPrefixAt(s, 0);
    assert HexEnd(s, 2) == 2;
  }

  /** `parseInt(q) || d` for a query parameter that may be absent. */
  function ParseIntOr(q: Option<string>, d: int): (r: int)
    ensures q.None? ==> r == d
    ensures q.Some? && ParseIntPrefix(q.value).None? ==> r == d
    ensures q.Some? && ParseIntPrefix(q.value) == Some(0) ==> r == d
    ensures q.Some? && ParseIntPrefix(q.value).Some? && ParseIntPrefix(q.value).value != 0
            ==> r == ParseIntPrefix(q.value).value
  {
    match q
    case None => d
    case Some(s) =>
      match ParseIntPrefix(s)
      case None => d
      case Some(v) => if v == 0 then d else v
  }

  // ---------------------------------------------------------------------------
  // startsWith, includes, split

  predicate StartsWith(s: string, prefix: string)
  {
    |prefix| <= |s| && s[..|prefix|] == prefix
  }

  /** `s.includes(p)`. */
  predicate Contains(s: string, p: string)
    decreases |s|
  {
    StartsWith(s, p) || (s != [] && Contains(s[1..], p))
  }

  lemma {:induction false} ContainsAt(s: string, p: string, i: nat)
    requires i + |p| <= |s| && s[i..i + |p|] == p
    ensures Contains(s, p)
  {
    if i > 0 {
      assert s[1..][i - 1..i - 1 + |p|] == p;
      ContainsAt(s[1..], p, i - 1);
    } else {
      assert s[..|p|] == p;
    }
  }

  /** `s.split(sep)` for a one-character separator. */
  function SplitOn(s: string, sep: char): (parts: seq<string>)
    ensures |parts| >= 1
    ensures forall i, j :: 0 <= i < |parts| && 0 <= j < |parts[i]| ==> parts[i][j] != sep
    decreases |s|
  {
    if s == [] then [[]]
    else
      var rest := SplitOn(s[1..], sep);
      if s[0] == sep then [[]] + rest
      else [[s[0]] + rest[0]] + rest[1..]
  }

  /** `parts.join(sep)`. */
  function JoinWith(parts: seq<string>, sep: char): string
    requires |parts| >= 1
  {
    if |parts| == 1 then parts[0] else parts[0] + [sep] + JoinWith(parts[1..], sep)
  }

  /** Splitting loses nothing: joining the parts back gives the string. */
  lemma {:induction false} SplitJoin(s: string, sep: char)
    ensures JoinWith(SplitOn(s, sep), sep) == s
    decreases |s|
  {
    if s != [] {
      var rest := SplitOn(s[1..], sep);
      SplitJoin(s[1..], sep);
      if s[0] == sep {
        assert SplitOn(s, sep)[1..] == rest;
      } else {
        var parts := SplitOn(s, sep);
        assert parts[1..] == rest[1..];
        if |rest| > 1 {
          assert rest[1..] == rest[1..];
          assert JoinWith(rest, sep) == rest[0] + [sep] + JoinWith(rest[1..], sep);
        }
      }
    }
  }

  /** A string with no separator in it splits into itself alone. */
  lemma {:induction false} SplitNoSeparator(s: string, sep: char)
    requires forall i :: 0 <= i < |s| ==> s[i] != sep
    ensures SplitOn(s, sep) == [s]
    decreases |s|
  {
    if s != [] {
      SplitNoSeparator(s[1..], sep);
      assert [s[0]] + s[1..] == s;
    }
  }

  /** Splitting a + [sep] + b, where a has no separator, gives a followed by the parts of b. */
  lemma {:induction false} SplitAtFirst(a: string, b: string, sep: char)
    requires forall i :: 0 <= i < |a| ==> a[i] != sep
    ensures SplitOn(a + [sep] + b, sep) == [a] + SplitOn(b, sep)
    decreases |a|
  {
    if a == [] {
      assert a + [sep] + b == [sep] + b;
      assert ([sep] + b)[1..] == b;
    } else {
      assert (a + [sep] + b)[1..] == a[1..] + [sep] + b;
      SplitAtFirst(a[1..], b, sep);
      assert [a[0]] + a[1..] == a;
    }
  }
}
