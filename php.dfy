/**
 * The few pieces of PHP value semantics the worker relies on: null-able values,
 * string truthiness, `explode`/`implode` on ',', `substr`, the decimal rendering of
 * an integer, the cast of a string array key to an integer key, and PHP 8's loose
 * comparison of an integer with a string.
 */
module Php {

  /** A value that may be PHP's null (a missing array key read with `?? null`). */
  datatype Option<+T> = None | Some(value: T) {
    function GetOr(default: T): T {
      if Some? then value else default
    }
  }

  /** `!$s` / `empty($s)` for a string: only "" and "0" are falsy. */
  predicate Falsy(s: string) {
    s == "" || s == "0"
  }

  /** `!$x` for a string that may be null. */
  predicate FalsyOrNull(s: Option<string>) {
    s.None? || Falsy(s.value)
  }

  /** `str_starts_with($s, $prefix)`. */
  predicate StartsWith(s: string, prefix: string) {
    |prefix| <= |s| && s[..|prefix|] == prefix
  }

  /** PHP 8 `substr($s, $start)` for a non-negative start: the tail, or "" past the end. */
  function Substr(s: string, start: nat): (r: string)
    ensures start <= |s| ==> s == s[..start] + r
    ensures |s| <= start ==> r == ""
  {
    if start <= |s| then s[start..] else ""
  }

  // ---------------------------------------------------------------------------
  // explode(',', $s) and implode(',', $parts)

  /** `explode(',', $s)`: the maximal comma-free pieces, in order; never empty. */
  function Explode(s: string): (parts: seq<string>)
    ensures |parts| >= 1
    ensures forall i :: 0 <= i < |parts| ==> ',' !in parts[i]
    decreases |s|
  {
    if s == [] then [""]
    else
      var rest := Explode(s[1..]);
      if s[0] == ',' then [""] + rest
      else [[s[0]] + rest[0]] + rest[1..]
  }

  /** `implode(',', $parts)`. */
  function Implode(parts: seq<string>): string
    requires |parts| >= 1
    decreases |parts|
  {
    if |parts| == 1 then parts[0] else parts[0] + "," + Implode(parts[1..])
  }

  /** Joining the pieces again gives back the original string. */
  lemma {:induction false} ImplodeExplode(s: string)
    ensures Implode(Explode(s)) == s
    decreases |s|
  {
    if s != [] {
      var rest := Explode(s[1..]);
      ImplodeExplode(s[1..]);
      if s[0] == ',' {
        assert ([""] + rest)[1..] == rest;
      } else if |rest| > 1 {
        assert ([[s[0]] + rest[0]] + rest[1..])[1..] == rest[1..];
        assert s == [s[0]] + s[1..];
      } else {
        assert s == [s[0]] + s[1..];
      }
    }
  }

  /** A comma-free prefix joins the first piece of what follows it. */
  lemma {:induction false} ExplodeCommaFreePrefix(a: string, rest: string)
    requires ',' !in a
    ensures Explode(a + rest) == [a + Explode(rest)[0]] + Explode(rest)[1..]
    decreases |a|
  {
    if a == [] {
      assert a + rest == rest;
      var e := Explode(rest);
      assert e == [e[0]] + e[1..];
      assert a + e[0] == e[0];
    } else {
      assert (a + rest)[1..] == a[1..] + rest;
      assert (a + rest)[0] == a[0];
      ExplodeCommaFreePrefix(a[1..], rest);
      assert [a[0]] + (a[1..] + Explode(rest)[0]) == a + Explode(rest)[0];
    }
  }

  /** Splitting a join of comma-free pieces gives back the pieces. */
  lemma {:induction false} ExplodeImplode(parts: seq<string>)
    requires |parts| >= 1
    requires forall i :: 0 <= i < |parts| ==> ',' !in parts[i]
    ensures Explode(Implode(parts)) == parts
    decreases |parts|
  {
    if |parts| == 1 {
      ExplodeCommaFreePrefix(parts[0], "");
      assert parts[0] + "" == parts[0];
    } else {
      var tail := Implode(parts[1..]);
      ExplodeImplode(parts[1..]);
      assert "," + tail == [','] + tail;
      assert ("," + tail)[1..] == tail;
      assert Explode("," + tail) == [""] + parts[1..];
      assert parts[0] + "," + tail == parts[0] + ("," + tail);
      ExplodeCommaFreePrefix(parts[0], "," + tail);
      assert parts[0] + "" == parts[0];
      assert ([""] + parts[1..])[1..] == parts[1..];
    }
  }

  // ---------------------------------------------------------------------------
  // Decimal digits

  predicate IsDigit(c: char) {
    '0' <= c <= '9'
  }

  predicate AllDigits(s: string) {
    forall i :: 0 <= i < |s| ==> IsDigit(s[i])
  }

  function DigitValue(c: char): (d: nat)
    requires IsDigit(c)
    ensures d < 10
  {
    (c as int) - ('0' as int)
  }

  function DigitChar(d: nat): (c: char)
    requires d < 10
    ensures IsDigit(c) && DigitValue(c) == d
  {
    (('0' as int) + d) as char
  }

  /** The value of a string of decimal digits (leading zeros allowed). */
  function DigitsValue(s: string): nat
    requires AllDigits(s)
    decreases |s|
  {
    if s == [] then 0 else 10 * DigitsValue(s[..|s| - 1]) + DigitValue(s[|s| - 1])
  }

  /** The shortest decimal rendering of a natural number. */
  function NatString(n: nat): (s: string)
    ensures |s| >= 1 && AllDigits(s)
    ensures s[0] == '0' ==> n == 0
    decreases n
  {
    if n < 10 then [DigitChar(n)] else NatString(n / 10) + [DigitChar(n % 10)]
  }

  /** PHP's `(string)$n`, as used by `'ChatId：' . $chatId` and `'model_' . $id`. */
  function DecimalString(n: int): (s: string)
    ensures |s| >= 1
    ensures s[0] == '-' <==> n < 0
    ensures n < 0 ==> |s| >= 2 && AllDigits(s[1..]) && DigitsValue(s[1..]) == -n
    ensures n >= 0 ==> AllDigits(s) && DigitsValue(s) == n
  {
    NatStringValue(if n < 0 then -n else n);
    if n < 0 then "-" + NatString(-n) else NatString(n)
  }

  lemma {:induction false} NatStringValue(n: nat)
    ensures DigitsValue(NatString(n)) == n
    decreases n
  {
    if n >= 10 {
      var s := NatString(n);
      assert s[..|s| - 1] == NatString(n / 10);
      NatStringValue(n / 10);
    }
  }

  /** A digit string without a leading zero has a positive value, unless it is "0". */
  lemma {:induction false} LeadingDigitPositive(s: string)
    requires |s| >= 1 && AllDigits(s) && s[0] != '0'
    ensures DigitsValue(s) >= 1
    decreases |s|
  {
    if |s| > 1 {
      LeadingDigitPositive(s[..|s| - 1]);
    }
  }

  /** "0", or a digit string with no leading zero. */
  predicate CanonicalDigits(s: string) {
    |s| >= 1 && AllDigits(s) && (s[0] == '0' ==> |s| == 1)
  }

  /** A canonical digit string is the rendering of its own value. */
  lemma {:induction false} CanonicalDigitsRender(s: string)
    requires CanonicalDigits(s)
    ensures NatString(DigitsValue(s)) == s
    decreases |s|
  {
    if |s| > 1 {
      var p := s[..|s| - 1];
      LeadingDigitPositive(p);
      CanonicalDigitsRender(p);
      var v := DigitsValue(s);
      assert v / 10 == DigitsValue(p) && v % 10 == DigitValue(s[|s| - 1]);
      assert DigitChar(v % 10) == s[|s| - 1];
      assert s == p + [s[|s| - 1]];
    } else {
      assert DigitChar(DigitValue(s[0])) == s[0];
    }
  }

  // ---------------------------------------------------------------------------
  // Array keys: a string key that is a canonical decimal integer becomes an int key

  /**
   * The integer a string array key is cast to (`$a["2"]` is `$a[2]`), or None when the
   * string stays a string key ("02", " 2", "+2", "-0", "").
   */
  function ArrayKey(s: string): (k: Option<int>)
    ensures k.Some? ==> s == DecimalString(k.value)
  {
    if CanonicalDigits(s) then
      CanonicalDigitsRender(s);
      Some(DigitsValue(s))
    else if |s| >= 2 && s[0] == '-' && s[1] != '0' && CanonicalDigits(s[1..]) then
      CanonicalDigitsRender(s[1..]);
      LeadingDigitPositive(s[1..]);
      assert s == "-" + s[1..];
      var v: int := DigitsValue(s[1..]);
      var k: int := -v;
      Some(k)
    else None
  }

  /** The rendering of an integer is the key of that integer. */
  lemma ArrayKeyOfDecimal(n: int)
    ensures ArrayKey(DecimalString(n)) == Some(n)
  {
    var m: nat := if n < 0 then -n else n;
    NatStringValue(m);
    var s := NatString(m);
    if n < 0 {
      assert DecimalString(n) == "-" + s;
      assert ("-" + s)[1..] == s;
      assert !CanonicalDigits("-" + s);
    }
  }

  // ---------------------------------------------------------------------------
  // PHP 8 loose comparison `$int == $string`

  /** The whitespace PHP 8 allows around a numeric string. */
  predicate IsNumericWhitespace(c: char) {
    c == ' ' || c == '\t' || c == '\n' || c == '\r' || c == '\U{000B}' || c == '\U{000C}'
  }

  /** The string without its leading white space. */
  function TrimLeading(s: string): (r: string)
    ensures |r| <= |s|
    ensures r == [] || !IsNumericWhitespace(r[0])
    decreases |s|
  {
    if s != [] && IsNumericWhitespace(s[0]) then TrimLeading(s[1..]) else s
  }

  /** The string without its trailing white space. */
  function TrimTrailing(s: string): (r: string)
    ensures |r| <= |s|
    ensures r == [] || !IsNumericWhitespace(r[|r| - 1])
    decreases |s|
  {
    if s != [] && IsNumericWhitespace(s[|s| - 1]) then TrimTrailing(s[..|s| - 1]) else s
  }

  /** Trimming the front keeps every character that is not white space, at a shifted place. */
  lemma {:induction false} TrimLeadingKeeps(s: string, i: int)
    requires 0 <= i < |s| && !IsNumericWhitespace(s[i])
    ensures var r := TrimLeading(s); |s| - |r| <= i && r[i - (|s| - |r|)] == s[i]
    decreases |s|
  {
    if IsNumericWhitespace(s[0]) {
      TrimLeadingKeeps(s[1..], i - 1);
    }
  }

  /** Trimming the back keeps every character that is not white space, in place. */
  lemma {:induction false} TrimTrailingKeeps(s: string, i: int)
    requires 0 <= i < |s| && !IsNumericWhitespace(s[i])
    ensures var r := TrimTrailing(s); i < |r| && r[i] == s[i]
    decreases |s|
  {
    if IsNumericWhitespace(s[|s| - 1]) {
      TrimTrailingKeeps(s[..|s| - 1], i);
    }
  }

  /**
   * The integer value of an integer numeric string (optional surrounding whitespace,
   * an optional sign, at least one digit), or None when the string is not one.
   */
  function NumericInt(s: string): (r: Option<int>)
    ensures |s| >= 1 && AllDigits(s) ==> r == Some(DigitsValue(s))
    ensures |s| >= 2 && s[0] == '-' && AllDigits(s[1..]) ==> var v: int := DigitsValue(s[1..]); r == Some(-v)
  {
    assert |s| >= 2 && AllDigits(s[1..]) ==> IsDigit(s[1..][|s| - 2]);
    var t := TrimTrailing(TrimLeading(s));
    if |t| >= 2 && (t[0] == '-' || t[0] == '+') && AllDigits(t[1..]) then
      var v: int := DigitsValue(t[1..]);
      Some(if t[0] == '-' then -v else v)
    else if |t| >= 1 && AllDigits(t) then Some(DigitsValue(t))
    else None
  }

  /**
   * `$n == $s` in PHP 8: a numeric string is compared by value; otherwise the integer is
   * rendered and the two strings are compared.
   */
  predicate LooseEqualsInt(n: int, s: string)
    ensures LooseEqualsInt(n, s) <==> NumericInt(s) == Some(n)
  {
    NumericIntOfDecimal(n);
    match NumericInt(s)
    case Some(v) => v == n
    case None => DecimalString(n) == s
  }

  /** The rendering of an integer is read back as that integer. */
  lemma NumericIntOfDecimal(n: int)
    ensures NumericInt(DecimalString(n)) == Some(n)
  {
    var s := DecimalString(n);
    if n < 0 {
      var v: int := DigitsValue(s[1..]);
      assert -v == n;
    }
  }

  /** PHP 8's `int == string` allows white space around the number. */
  lemma LooseEqualsIntPadded()
    ensures LooseEqualsInt(42, " 42")
  {
    DigitsOf42();
    assert TrimLeading(" 42") == "42" by { assert " 42"[1..] == "42"; }
    assert TrimTrailing("42") == "42";
  }

  /** In PHP 8 a string that is not numeric equals no integer, not even 0. */
  lemma LooseEqualsIntRefusesText()
    ensures !LooseEqualsInt(0, "abc") && !LooseEqualsInt(0, "") && !LooseEqualsInt(4, "4a")
  {
    NotNumericWithLetter("abc", 0);
    NotNumericWithLetter("4a", 1);
  }

  lemma DigitsOf42()
    ensures DigitsValue("42") == 42
  {
    assert "42"[..1] == "4";
    assert DigitsValue("4") == 4 by { assert "4"[..0] == ""; }
  }

  /** A string with a character that is no digit, sign or white space is not numeric. */
  lemma NotNumericWithLetter(s: string, i: int)
    requires 0 <= i < |s|
    requires !IsDigit(s[i]) && !IsNumericWhitespace(s[i]) && s[i] != '-' && s[i] != '+'
    ensures NumericInt(s).None?
  {
    var a := TrimLeading(s);
    TrimLeadingKeeps(s, i);
    var k := i - (|s| - |a|);
    var t := TrimTrailing(a);
    TrimTrailingKeeps(a, k);
    assert !AllDigits(t);
    if k > 0 && |t| >= 2 {
      assert t[1..][k - 1] == s[i];
    }
  }

  /** `$a == $b` for two strings in PHP 8: two numeric strings compare by value, others as strings. */
  predicate LooseEqualsStrings(a: string, b: string) {
    if NumericInt(a).Some? && NumericInt(b).Some? then NumericInt(a) == NumericInt(b) else a == b
  }

  /** Equal strings are loosely equal; distinct ones only when both read as the same integer. */
  lemma LooseEqualsStringsSpec(a: string, b: string)
    ensures LooseEqualsStrings(a, b) <==> a == b || (NumericInt(a).Some? && NumericInt(a) == NumericInt(b))
    ensures LooseEqualsStrings("01", "1") && !LooseEqualsStrings("ja", "JA")
  {
    assert DigitsValue("01") == 1 by {
      assert "01"[..1] == "0";
      assert DigitsValue("0") == 0 by { assert "0"[..0] == ""; }
    }
    assert DigitsValue("1") == 1 by { assert "1"[..0] == ""; }
    NotNumericWithLetter("ja", 0);
    NotNumericWithLetter("JA", 0);
  }
}
