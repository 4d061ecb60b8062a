/**
 * Amount parsing of fintrack/utils.py: characters that cannot be part of an
 * amount are dropped, the configured decimal separator becomes '.', and the
 * rest is read as an exact decimal literal.
 */
module Amounts {
  import opened Wrappers
  import opened Values

  predicate IsDigit(c: char) { '0' <= c <= '9' }

  predicate AllDigits(s: string) { forall i :: 0 <= i < |s| ==> IsDigit(s[i]) }

  /** The characters the filtering regular expression keeps for separator `sep`. */
  predicate Kept(c: char, sep: char) {
    IsDigit(c) || c == sep || c == '-'
  }

  /** One input character's contribution to the residue. */
  function ResidueChar(c: char, sep: char): string {
    if !Kept(c, sep) then "" else if c == sep then "." else [c]
  }

  /**
   * The text left after filtering: with separator '.' every character but
   * digits, '.' and '-' is removed; with any other separator every character
   * but digits, the separator and '-' is removed and each separator becomes '.'.
   */
  function Residue(s: string, sep: char): (r: string)
    ensures |r| <= |s|
    ensures forall i :: 0 <= i < |r| ==> IsDigit(r[i]) || r[i] == '.' || r[i] == '-'
  {
    if s == [] then [] else ResidueChar(s[0], sep) + Residue(s[1..], sep)
  }

  function DigitValue(c: char): nat
    requires IsDigit(c)
  {
    (c as int - '0' as int) as nat
  }

  /** The number a string of decimal digits denotes. */
  function DigitsValue(s: string): nat
    requires AllDigits(s)
  {
    if s == [] then 0 else DigitsValue(s[..|s| - 1]) * 10 + DigitValue(s[|s| - 1])
  }

  /** The value of digits written after a decimal point: "25" stands for 0.25. */
  function FracValue(s: string): (r: real)
    requires AllDigits(s)
    ensures 0.0 <= r < 1.0
  {
    if s == [] then 0.0 else (DigitValue(s[0]) as real + FracValue(s[1..])) / 10.0
  }

  /** Index of the first '.', if any. */
  function PointIndex(s: string): (r: Option<nat>)
    ensures r.Some? ==> r.value < |s| && s[r.value] == '.' && '.' !in s[..r.value]
    ensures r.None? ==> '.' !in s
  {
    if s == [] then None
    else if s[0] == '.' then Some(0)
    else match PointIndex(s[1..])
      case None => None
      case Some(i) => assert s[..i + 1] == [s[0]] + s[1..][..i]; Some(i + 1)
  }

  /** An unsigned literal: digits, optionally a point and more digits, at least one digit. */
  function ParseUnsigned(s: string): (r: Option<real>)
    ensures r.Some? ==> s != [] && '-' !in s && r.value >= 0.0
  {
    match PointIndex(s)
    case None =>
      if s != [] && AllDigits(s) then Some(DigitsValue(s) as real) else None
    case Some(i) =>
      var whole, frac := s[..i], s[i + 1..];
      if AllDigits(whole) && AllDigits(frac) && (whole != [] || frac != []) then
        assert s == whole + [s[i]] + frac;
        Some(DigitsValue(whole) as real + FracValue(frac))
      else None
  }

  /**
   * `Decimal(t)` for a text made of digits, '.' and '-': an optional leading
   * minus sign, then an unsigned literal; anything else is not a decimal.
   */
  function ParseDecimal(t: string): (r: Option<real>)
    ensures r.Some? ==> t != [] && '-' !in t[1..]
    ensures r.Some? && t[0] == '-' ==> r.value <= 0.0
    ensures r.Some? && t[0] != '-' ==> r.value >= 0.0
  {
    if t != [] && t[0] == '-' then
      match ParseUnsigned(t[1..])
      case None => None
      case Some(v) => Some(-v)
    else ParseUnsigned(t)
  }

  /** The text branch of `parse_amount`, as a pure function of the text. */
  function ParseAmountText(s: string, sep: char): Option<real> {
    ParseDecimal(Residue(s, sep))
  }

  /**
   * `parse_amount(amount)`: a number goes straight to `Decimal` without any
   * filtering; a string is filtered and then parsed, failing with
   * InvalidOperation when the residue is not a decimal literal; any other
   * value makes the regular expression substitution raise TypeError.
   */
  function ParseAmount(v: Value, sep: char): (r: Result<real>)
    ensures v.DecimalV? ==> r == Ok(v.d)
    ensures v.NumberV? ==> r == Ok(v.x)
    ensures v.StrV? ==> (r.Ok? <==> ParseDecimal(Residue(v.s, sep)).Some?)
    ensures v.StrV? && r.Ok? ==> Some(r.value) == ParseDecimal(Residue(v.s, sep))
    ensures v.StrV? && r.Err? ==> r.error == InvalidOperation
    ensures !IsNumber(v) && !v.StrV? ==> r == Err(TypeError)
  {
    match v
    case DecimalV(d) => Ok(d)
    case NumberV(x) => Ok(x)
    case StrV(s) =>
      (match ParseAmountText(s, sep)
       case Some(d) => Ok(d)
       case None => Err(InvalidOperation))
    case _ => Err(TypeError)
  }

  // ---------------------------------------------------------------------
  // The residue, character by character

  lemma {:induction false} ResidueAppend(a: string, b: string, sep: char)
    ensures Residue(a + b, sep) == Residue(a, sep) + Residue(b, sep)
  {
    if a == [] {
      assert a + b == b;
    } else {
      assert (a + b)[0] == a[0];
      assert (a + b)[1..] == a[1..] + b;
      ResidueAppend(a[1..], b, sep);
    }
  }

  /** Characters that the filter drops, whatever the separator's role. */
  predicate Noise(p: string, sep: char) {
    forall i :: 0 <= i < |p| ==> !Kept(p[i], sep) && p[i] != '.'
  }

  lemma {:induction false} ResidueOfNoise(p: string, sep: char)
    requires Noise(p, sep)
    ensures Residue(p, sep) == []
  {
    if p != [] { ResidueOfNoise(p[1..], sep); }
  }

  lemma {:induction false} ResidueOfDigits(d: string, sep: char)
    requires AllDigits(d) && !IsDigit(sep)
    ensures Residue(d, sep) == d
  {
    if d != [] {
      ResidueOfDigits(d[1..], sep);
      assert d == [d[0]] + d[1..];
    }
  }

  /** Filtering works character by character: the residue of a text is that of a prefix followed by that of the rest. */
  lemma {:induction false} ResidueSplits(s: string, sep: char, i: nat)
    requires i <= |s|
    ensures Residue(s, sep) == Residue(s[..i], sep) + Residue(s[i..], sep)
  {
    assert s == s[..i] + s[i..];
    ResidueAppend(s[..i], s[i..], sep);
  }

  /** The first substitution: every character the character class does not keep is removed. */
  function Filter(s: string, sep: char): string {
    if s == [] then [] else (if Kept(s[0], sep) then [s[0]] else []) + Filter(s[1..], sep)
  }

  /** The second substitution: every occurrence of the separator becomes '.'. */
  function ReplaceSep(s: string, sep: char): string {
    if s == [] then [] else (if s[0] == sep then "." else [s[0]]) + ReplaceSep(s[1..], sep)
  }

  /**
   * The residue is the two substitutions one after the other; with
   * separator '.' the second changes nothing, so it is the filter alone.
   */
  lemma {:induction false} ResidueIsFilterThenReplace(s: string, sep: char)
    ensures Residue(s, sep) == ReplaceSep(Filter(s, sep), sep)
    ensures sep == '.' ==> Residue(s, sep) == Filter(s, sep)
    decreases |s|
  {
    if s != [] {
      ResidueIsFilterThenReplace(s[1..], sep);
      var rest := Filter(s[1..], sep);
      if Kept(s[0], sep) {
        var f := [s[0]] + rest;
        assert Filter(s, sep) == f;
        assert f[0] == s[0] && f[1..] == rest;
      } else {
        assert Filter(s, sep) == rest;
      }
    }
    if sep == '.' {
      ReplaceDotUnchanged(Filter(s, sep));
    }
  }

  lemma {:induction false} ReplaceDotUnchanged(s: string)
    ensures ReplaceSep(s, '.') == s
    decreases |s|
  {
    if s != [] {
      ReplaceDotUnchanged(s[1..]);
      assert s == [s[0]] + s[1..];
    }
  }

  // ---------------------------------------------------------------------
  // Round trip: an amount in cents, written with separator `sep`, parses back

  function DigitChar(d: nat): (c: char)
    requires d < 10
    ensures IsDigit(c) && DigitValue(c) == d
  {
    ('0' as int + d) as char
  }

  /** Decimal digits of `n`, most significant first, without leading zeros. */
  function NatText(n: nat): (s: string)
    ensures s != [] && AllDigits(s)
    decreases n
  {
    if n < 10 then [DigitChar(n)] else NatText(n / 10) + [DigitChar(n % 10)]
  }

  lemma {:induction false} NatTextValue(n: nat)
    ensures DigitsValue(NatText(n)) == n
    decreases n
  {
    if n >= 10 {
      NatTextValue(n / 10);
      var s := NatText(n);
      assert s[..|s| - 1] == NatText(n / 10);
    }
  }

  /** Cents written as a locale amount: optional '-', units, separator, two digits. */
  function CentsText(c: int, sep: char): string {
    var m := if c < 0 then -c else c;
    (if c < 0 then "-" else "") + NatText(m / 100) + [sep] + [DigitChar(m % 100 / 10), DigitChar(m % 10)]
  }

  lemma {:induction false} ParseUnsignedCents(m: nat)
    ensures ParseUnsigned(NatText(m / 100) + "." + [DigitChar(m % 100 / 10), DigitChar(m % 10)])
         == Some(m as real / 100.0)
  {
    var whole := NatText(m / 100);
    var frac := [DigitChar(m % 100 / 10), DigitChar(m % 10)];
    var s := whole + "." + frac;
    assert '.' !in whole by {
      forall k | 0 <= k < |whole| ensures whole[k] != '.' { assert IsDigit(whole[k]); }
    }
    assert PointIndex(whole + "." + frac) == Some(|whole|) by { PointAfterDigits(whole, frac); }
    assert s[..|whole|] == whole;
    assert s[|whole| + 1..] == frac;
    NatTextValue(m / 100);
    assert frac[1..] == [DigitChar(m % 10)];
    assert frac[1..][1..] == [];
    assert FracValue(frac[1..][1..]) == 0.0;
    assert FracValue(frac[1..]) == (m % 10) as real / 10.0;
    assert FracValue(frac) == ((m % 100 / 10) as real + (m % 10) as real / 10.0) / 10.0;
    assert m == (m / 100) * 100 + (m % 100 / 10) * 10 + m % 10;
  }

  lemma {:induction false} PointAfterDigits(whole: string, rest: string)
    requires AllDigits(whole)
    ensures PointIndex(whole + "." + rest) == Some(|whole|)
  {
    if whole != [] {
      assert (whole + "." + rest)[1..] == whole[1..] + "." + rest;
      PointAfterDigits(whole[1..], rest);
    }
  }

  /** The residue of a written amount is the same amount written with '.'. */
  lemma {:induction false} ResidueOfCents(c: int, sep: char)
    requires !IsDigit(sep) && sep != '-'
    ensures Residue(CentsText(c, sep), sep) == CentsText(c, '.')
  {
    var m := if c < 0 then -c else c;
    var whole := NatText(m / 100);
    var frac := [DigitChar(m % 100 / 10), DigitChar(m % 10)];
    var sign: string := if c < 0 then "-" else "";
    assert CentsText(c, sep) == sign + whole + [sep] + frac;
    assert CentsText(c, '.') == sign + whole + "." + frac;
    ResidueAppend(sign + whole + [sep], frac, sep);
    ResidueAppend(sign + whole, [sep], sep);
    ResidueAppend(sign, whole, sep);
    ResidueOfDigits(whole, sep);
    ResidueOfDigits(frac, sep);
    assert Residue([sep], sep) == ".";
    assert Residue(sign, sep) == sign;
  }

  lemma {:induction false} ParseCents(c: int)
    ensures ParseDecimal(CentsText(c, '.')) == Some(c as real / 100.0)
  {
    var m := if c < 0 then -c else c;
    var whole := NatText(m / 100);
    var frac := [DigitChar(m % 100 / 10), DigitChar(m % 10)];
    var t := CentsText(c, '.');
    ParseUnsignedCents(m);
    if c < 0 {
      assert t[1..] == whole + "." + frac;
    } else {
      assert t == whole + "." + frac;
      assert t[0] != '-' by { assert IsDigit(whole[0]); }
    }
  }

  /**
   * An amount in cents, written with separator `sep` and surrounded by
   * characters the filter drops (currency signs, spaces), parses to the
   * amount: "-€ 32,34"-style inputs round-trip.
   */
  lemma {:induction false} CentsRoundTrip(p: string, c: int, q: string, sep: char)
    requires !IsDigit(sep) && sep != '-'
    requires Noise(p, sep) && Noise(q, sep)
    ensures ParseAmount(StrV(p + CentsText(c, sep) + q), sep) == Ok(c as real / 100.0)
  {
    var x := CentsText(c, sep);
    ResidueAppend(p + x, q, sep);
    ResidueAppend(p, x, sep);
    ResidueOfNoise(p, sep);
    ResidueOfNoise(q, sep);
    ResidueOfCents(c, sep);
    assert Residue(p + x + q, sep) == CentsText(c, '.');
    ParseCents(c);
  }

  lemma {:induction false} ResidueDetachedSign(p: string, c: nat, sep: char)
    requires !IsDigit(sep) && sep != '-'
    requires Noise(p, sep)
    ensures Residue("-" + p + CentsText(c, sep), sep) == "-" + CentsText(c, '.')
  {
    var x := CentsText(c, sep);
    ResidueAppend("-" + p, x, sep);
    ResidueAppend("-", p, sep);
    ResidueOfNoise(p, sep);
    ResidueOfCents(c, sep);
    assert Residue("-", sep) == "-";
  }

  /** A leading minus negates an unsigned literal. */
  lemma NegatedLiteral(w: string, v: real)
    requires w != [] && w[0] != '-' && ParseDecimal(w) == Some(v)
    ensures ParseDecimal("-" + w) == Some(-v)
  {
    assert ("-" + w)[1..] == w;
  }

  /** A minus sign may stand apart from the digits, as in "-€ 32,34". */
  lemma {:induction false} DetachedSignRoundTrip(p: string, c: nat, sep: char)
    requires !IsDigit(sep) && sep != '-'
    requires Noise(p, sep)
    ensures ParseAmount(StrV("-" + p + CentsText(c, sep)), sep) == Ok(-(c as real) / 100.0)
  {
    ResidueDetachedSign(p, c, sep);
    var w := CentsText(c, '.');
    ParseCents(c);
    assert w[0] != '-' by { assert IsDigit(NatText(c / 100)[0]); }
    NegatedLiteral(w, c as real / 100.0);
  }

  /** An empty residue is not a decimal. */
  lemma EmptyResidueRejected(s: string, sep: char)
    requires Residue(s, sep) == []
    ensures ParseAmount(StrV(s), sep) == Err(InvalidOperation)
  {
  }

  /** A doubled minus sign is not a decimal: "--1" fails. */
  lemma {:induction false} DoubleMinusRejected(t: string)
    requires |t| >= 2 && t[0] == '-' && t[1] == '-'
    ensures ParseDecimal(t) == None
  {
    var u := t[1..];
    assert u[0] == '-';
    match PointIndex(u)
    case None =>
      assert !AllDigits(u);
    case Some(i) =>
      assert i != 0;
      assert u[..i][0] == '-';
      assert !AllDigits(u[..i]);
  }

  /** "600,21" of the slurp example, with the default separator ','. */
  lemma {:induction false} SlurpExamplePositive()
    ensures ParseAmount(StrV("600,21"), ',') == Ok(600.21)
  {
    assert NatText(6) == "6";
    assert NatText(60) == NatText(6) + "0";
    assert NatText(600) == NatText(60) + "0";
    assert CentsText(60021, ',') == "600,21";
    CentsRoundTrip("", 60021, "", ',');
    assert "" + "600,21" + "" == "600,21";
  }

  /** "-€ 32,34" of the slurp example, with the default separator ','. */
  lemma {:induction false} SlurpExampleNegative()
    ensures ParseAmount(StrV("-€ 32,34"), ',') == Ok(-32.34)
  {
    assert NatText(3) == "3";
    assert NatText(32) == NatText(3) + "2";
    assert CentsText(3234, ',') == "32,34";
    assert "-€ 32,34" == "-" + "€ " + CentsText(3234, ',');
    DetachedSignRoundTrip("€ ", 3234, ',');
  }
}
