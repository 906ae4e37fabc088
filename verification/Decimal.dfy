/** Decimal normalisation of canonical-hash.ts: which spellings of a number count as the same. */
module Decimal {
  import opened JsText

  predicate IsDigit(c: char) {
    '0' <= c <= '9'
  }

  predicate Digits(s: string) {
    forall i :: 0 <= i < |s| ==> IsDigit(s[i])
  }

  // ---- the code

  predicate Negative(s: string) {
    s != "" && s[0] == '-'
  }

  function Unsigned(s: string): string {
    if Negative(s) then s[1..] else s
  }

  function Whole(u: string): string {
    var dot := IndexOfChar(u, '.');
    if dot < 0 then u else u[..dot]
  }

  function Fraction(u: string): string {
    var dot := IndexOfChar(u, '.');
    if dot < 0 then "" else u[dot + 1..]
  }

  /** DECIMAL_RE: an optional sign, digits, and an optional point followed by digits. */
  predicate IsDecimal(s: string) {
    var u := Unsigned(s);
    && Whole(u) != "" && Digits(Whole(u)) && Digits(Fraction(u))
    && ('.' in u ==> Fraction(u) != "")
  }

  /** replace(/^0+(?=\d)/, ''): the last digit always stays. */
  function StripLeading(s: string): string {
    if |s| > 1 && s[0] == '0' then StripLeading(s[1..]) else s
  }

  /** replace(/0+$/, ''). */
  function StripTrailing(s: string): string {
    if s != "" && s[|s| - 1] == '0' then StripTrailing(s[..|s| - 1]) else s
  }

  function Assemble(whole: string, fraction: string): string {
    if fraction == "" then whole else whole + "." + fraction
  }

  function Signed(negative: bool, magnitude: string): string {
    if magnitude == "0" then "0" else if negative then "-" + magnitude else magnitude
  }

  function NormalizeDecimal(s: string): string {
    if !IsDecimal(s) then Trim(s)
    else
      var u := Unsigned(s);
      Signed(Negative(s), Assemble(StripLeading(Whole(u)), StripTrailing(Fraction(u))))
  }

  /** What norm does to a string leaf. */
  function NormString(s: string): string {
    NormalizeDecimal(Trim(s))
  }

  // ---- the numbers

  function DigitOf(c: char): nat
    requires IsDigit(c)
    ensures DigitOf(c) <= 9
  {
    c as int - '0' as int
  }

  /** Positional value, most significant digit first. */
  function WholeValue(s: string): nat
    requires Digits(s)
  {
    if s == "" then 0 else 10 * WholeValue(s[..|s| - 1]) + DigitOf(s[|s| - 1])
  }

  function FractionValue(s: string): (r: real)
    requires Digits(s)
    ensures 0.0 <= r < 1.0
  {
    if s == "" then 0.0 else (DigitOf(s[0]) as real + FractionValue(s[1..])) / 10.0
  }

  function Magnitude(u: string): (r: real)
    requires Digits(Whole(u)) && Digits(Fraction(u))
    ensures r >= 0.0
  {
    WholeValue(Whole(u)) as real + FractionValue(Fraction(u))
  }

  /** The number a decimal string denotes. */
  function Value(s: string): real
    requires IsDecimal(s)
  {
    if Negative(s) then -Magnitude(Unsigned(s)) else Magnitude(Unsigned(s))
  }

  // ---- canonical digit strings

  predicate CanonicalWhole(s: string) {
    s != "" && Digits(s) && (|s| > 1 ==> s[0] != '0')
  }

  predicate CanonicalFraction(s: string) {
    Digits(s) && (s != "" ==> s[|s| - 1] != '0')
  }

  /** No superfluous zero and no negative zero. */
  predicate Canonical(s: string) {
    var u := Unsigned(s);
    && IsDecimal(s) && CanonicalWhole(Whole(u)) && CanonicalFraction(Fraction(u))
    && s != "-0"
  }

  lemma {:induction false} LeadingZero(s: string)
    requires Digits(s)
    ensures Digits("0" + s) && WholeValue("0" + s) == WholeValue(s)
    decreases |s|
  {
    var z := "0" + s;
    assert forall i :: 0 <= i < |z| ==> z[i] == '0' || z[i] in s;
    if s != "" {
      LeadingZero(s[..|s| - 1]);
      assert z[..|z| - 1] == "0" + s[..|s| - 1] && z[|z| - 1] == s[|s| - 1];
    } else {
      assert z[..0] == "" && z[|z| - 1] == '0';
    }
  }

  lemma {:induction false} StripLeadingKeepsValue(s: string)
    requires Digits(s) && s != ""
    ensures CanonicalWhole(StripLeading(s)) && WholeValue(StripLeading(s)) == WholeValue(s)
    decreases |s|
  {
    if |s| > 1 && s[0] == '0' {
      StripLeadingKeepsValue(s[1..]);
      LeadingZero(s[1..]);
      assert s == "0" + s[1..];
    }
  }

  lemma {:induction false} TrailingZero(s: string)
    requires Digits(s)
    ensures Digits(s + "0") && FractionValue(s + "0") == FractionValue(s)
    decreases |s|
  {
    var z := s + "0";
    assert forall i :: 0 <= i < |z| ==> z[i] == '0' || z[i] in s;
    if s != "" {
      TrailingZero(s[1..]);
      assert z[1..] == s[1..] + "0" && z[0] == s[0];
    } else {
      assert z[1..] == "" && z[0] == '0';
    }
  }

  lemma {:induction false} StripTrailingKeepsValue(s: string)
    requires Digits(s)
    ensures CanonicalFraction(StripTrailing(s)) && FractionValue(StripTrailing(s)) == FractionValue(s)
    decreases |s|
  {
    if s != "" && s[|s| - 1] == '0' {
      StripTrailingKeepsValue(s[..|s| - 1]);
      TrailingZero(s[..|s| - 1]);
      assert s == s[..|s| - 1] + "0";
    }
  }

  lemma {:induction false} CanonicalWholePositive(s: string)
    requires CanonicalWhole(s) && s[0] != '0'
    ensures WholeValue(s) >= 1
    decreases |s|
  {
    if |s| > 1 {
      CanonicalWholePositive(s[..|s| - 1]);
    } else {
      assert s[|s| - 1] == s[0];
    }
  }

  /** A whole number has one canonical spelling. */
  lemma {:induction false} WholeInjective(a: string, b: string)
    requires CanonicalWhole(a) && CanonicalWhole(b) && WholeValue(a) == WholeValue(b)
    ensures a == b
    decreases |a|
  {
    var a', b' := a[..|a| - 1], b[..|b| - 1];
    assert a == a' + [a[|a| - 1]] && b == b' + [b[|b| - 1]];
    if |a| > 1 && |b| > 1 {
      WholeInjective(a', b');
    } else if |a| > 1 {
      CanonicalWholePositive(a');
    } else if |b| > 1 {
      CanonicalWholePositive(b');
    }
  }

  lemma {:induction false} CanonicalFractionPositive(s: string)
    requires CanonicalFraction(s) && s != ""
    ensures FractionValue(s) > 0.0
    decreases |s|
  {
    if |s| > 1 {
      CanonicalFractionPositive(s[1..]);
    } else {
      assert s[|s| - 1] == s[0];
    }
  }

  /** A whole part and a fraction below one are determined by their sum. */
  lemma SumDecides(m: int, n: int, r: real, t: real)
    requires 0.0 <= r < 1.0 && 0.0 <= t < 1.0 && m as real + r == n as real + t
    ensures m == n && r == t
  {
    assert m as real - n as real == (m - n) as real;
    assert -1.0 < (m - n) as real < 1.0;
  }

  /** A fraction has one canonical spelling. */
  lemma {:induction false} FractionInjective(a: string, b: string)
    requires CanonicalFraction(a) && CanonicalFraction(b) && FractionValue(a) == FractionValue(b)
    ensures a == b
    decreases |a|
  {
    if a == "" || b == "" {
      if a != "" { CanonicalFractionPositive(a); }
      if b != "" { CanonicalFractionPositive(b); }
    } else {
      SumDecides(DigitOf(a[0]), DigitOf(b[0]), FractionValue(a[1..]), FractionValue(b[1..]));
      FractionInjective(a[1..], b[1..]);
      assert a == [a[0]] + a[1..] && b == [b[0]] + b[1..];
    }
  }

  // ---- assembling and taking apart

  lemma PartsOfAssembled(whole: string, fraction: string)
    requires whole != "" && Digits(whole) && Digits(fraction)
    ensures var u := Assemble(whole, fraction);
      && Whole(u) == whole && Fraction(u) == fraction && !Negative(u) && ('.' in u <==> fraction != "")
  {
    var u := Assemble(whole, fraction);
    assert forall k :: 0 <= k < |whole| ==> u[k] == whole[k] && IsDigit(u[k]);
    var dot := IndexOfChar(u, '.');
    if fraction != "" {
      assert u[|whole|] == '.';
      assert dot == |whole|;
    }
  }

  lemma AssembleParts(u: string)
    requires '.' in u ==> Fraction(u) != ""
    ensures Assemble(Whole(u), Fraction(u)) == u
  {
  }

  lemma MinusIsSign(u: string)
    ensures Negative("-" + u) && Unsigned("-" + u) == u
  {
    assert ("-" + u)[1..] == u;
  }

  /** Taking a signed, assembled magnitude apart again. */
  lemma PartsOfSigned(negative: bool, whole: string, fraction: string)
    requires CanonicalWhole(whole) && CanonicalFraction(fraction)
    ensures var s := Signed(negative, Assemble(whole, fraction));
      && Canonical(s) && Whole(Unsigned(s)) == whole && Fraction(Unsigned(s)) == fraction
      && (Negative(s) <==> negative && !(whole == "0" && fraction == ""))
  {
    var m := Assemble(whole, fraction);
    PartsOfAssembled(whole, fraction);
    PartsOfAssembled("0", "");
    MinusIsSign(m);
    assert m == "0" <==> whole == "0" && fraction == "";
    var s := Signed(negative, m);
    assert Unsigned(s) == m;
    assert s == "-0" ==> Unsigned(s) == "0" by { MinusIsSign("0"); assert "-0" == "-" + "0"; }
  }

  lemma MagnitudeDecides(a: string, b: string)
    requires Canonical(a) && Canonical(b) && Magnitude(Unsigned(a)) == Magnitude(Unsigned(b))
    ensures Unsigned(a) == Unsigned(b)
  {
    var u, v := Unsigned(a), Unsigned(b);
    SumDecides(WholeValue(Whole(u)), WholeValue(Whole(v)), FractionValue(Fraction(u)), FractionValue(Fraction(v)));
    WholeInjective(Whole(u), Whole(v));
    FractionInjective(Fraction(u), Fraction(v));
    AssembleParts(u);
    AssembleParts(v);
  }

  lemma ZeroMagnitude(s: string)
    requires Canonical(s) && Magnitude(Unsigned(s)) == 0.0
    ensures s == "0"
  {
    var u := Unsigned(s);
    PartsOfAssembled("0", "");
    assert WholeValue(Whole(u)) == 0 && FractionValue(Fraction(u)) == 0.0;
    if Fraction(u) != "" { CanonicalFractionPositive(Fraction(u)); }
    if Whole(u)[0] != '0' { CanonicalWholePositive(Whole(u)); }
    assert Whole(u) == "0";
    AssembleParts(u);
    assert u == "0";
    assert Negative(s) ==> s == "-" + u;
    assert "-" + "0" == "-0";
  }

  lemma SignedUnsigned(s: string)
    ensures s == if Negative(s) then "-" + Unsigned(s) else Unsigned(s)
  {
  }

  /** A number has one canonical spelling. */
  lemma CanonicalIsUnique(a: string, b: string)
    requires Canonical(a) && Canonical(b) && Value(a) == Value(b)
    ensures a == b
  {
    if Negative(a) != Negative(b) {
      assert Magnitude(Unsigned(a)) == Magnitude(Unsigned(b)) == 0.0;
      ZeroMagnitude(a);
      ZeroMagnitude(b);
    } else {
      MagnitudeDecides(a, b);
      SignedUnsigned(a);
      SignedUnsigned(b);
    }
  }

  // ---- the main results

  lemma NormalFormParts(s: string)
    requires IsDecimal(s)
    ensures var n := NormalizeDecimal(s);
      && Canonical(n) && Magnitude(Unsigned(n)) == Magnitude(Unsigned(s))
      && (Negative(n) ==> Negative(s)) && (Negative(s) && !Negative(n) ==> n == "0")
  {
    var u := Unsigned(s);
    var whole, fraction := StripLeading(Whole(u)), StripTrailing(Fraction(u));
    StripLeadingKeepsValue(Whole(u));
    StripTrailingKeepsValue(Fraction(u));
    PartsOfSigned(Negative(s), whole, fraction);
  }

  lemma ZeroIsZero()
    ensures Canonical("0") && Magnitude(Unsigned("0")) == 0.0
  {
    PartsOfAssembled("0", "");
    assert "0"[..0] == "";
    assert WholeValue("0") == 0;
  }

  lemma ValueOfParts(s: string, n: string)
    requires IsDecimal(s) && IsDecimal(n) && Magnitude(Unsigned(n)) == Magnitude(Unsigned(s))
    requires Negative(s) == Negative(n) || Magnitude(Unsigned(n)) == 0.0
    ensures Value(n) == Value(s)
  {
  }

  /** The normal form of a decimal is a decimal of the same value with no superfluous zero. */
  lemma NormalFormKeepsValue(s: string)
    requires IsDecimal(s)
    ensures IsDecimal(NormalizeDecimal(s)) && Value(NormalizeDecimal(s)) == Value(s)
    ensures Canonical(NormalizeDecimal(s))
  {
    NormalFormParts(s);
    ZeroIsZero();
    ValueOfParts(s, NormalizeDecimal(s));
  }

  /** Two decimals are spelled the same after normalising exactly when they are the same number. */
  lemma SameNormalFormIffSameValue(a: string, b: string)
    requires IsDecimal(a) && IsDecimal(b)
    ensures NormalizeDecimal(a) == NormalizeDecimal(b) <==> Value(a) == Value(b)
  {
    NormalFormKeepsValue(a);
    NormalFormKeepsValue(b);
    if Value(a) == Value(b) {
      CanonicalIsUnique(NormalizeDecimal(a), NormalizeDecimal(b));
    }
  }

  /** The normal forms are exactly the canonical spellings. */
  lemma CanonicalIffFixed(s: string)
    requires IsDecimal(s)
    ensures Canonical(s) <==> NormalizeDecimal(s) == s
  {
    NormalFormKeepsValue(s);
    if Canonical(s) {
      CanonicalIsUnique(NormalizeDecimal(s), s);
    }
  }

  /** On its own normalizeDecimal is not idempotent, since it only trims a padded decimal:
      a second pass changes nothing exactly when what was trimmed needs no further work. */
  lemma NormalizeTwice(s: string)
    ensures NormalizeDecimal(NormalizeDecimal(s)) == NormalizeDecimal(s) <==>
            (IsDecimal(s) || !IsDecimal(Trim(s)) || Canonical(Trim(s)))
  {
    TrimIsIdempotent(s);
    if IsDecimal(s) {
      NormalFormKeepsValue(s);
      CanonicalIffFixed(NormalizeDecimal(s));
    } else if IsDecimal(Trim(s)) {
      CanonicalIffFixed(Trim(s));
    }
  }

  lemma PaddedIsNoDecimal(s: string)
    requires s != "" && IsSpace(s[0])
    ensures !IsDecimal(s)
  {
    assert Unsigned(s) == s && (Whole(s) == "" || Whole(s)[0] == s[0]);
  }

  lemma PaddedDecimalNeedsTwoPasses()
    ensures NormalizeDecimal(" 1.0") == "1.0" && NormalizeDecimal("1.0") == "1"
  {
    assert " 1.0"[0] == ' ';
    PaddedIsNoDecimal(" 1.0");
    assert " 1.0" == " " + "1.0";
    TrimIgnoresLeadingBlank("1.0");
    TrimFacts("1.0");
    PartsOfAssembled("1", "0");
    assert "1.0" == Assemble("1", "0");
    assert "0"[..0] == "";
    assert StripTrailing("0") == StripTrailing("");
  }

  lemma DecimalsAreTrimmed(s: string)
    requires IsDecimal(s)
    ensures Trimmed(s)
  {
    var u := Unsigned(s);
    AssembleParts(u);
    var last := s[|s| - 1];
    assert last == u[|u| - 1];
    assert IsDigit(last) by {
      if Fraction(u) == "" {
        assert u == Whole(u);
      } else {
        assert last == Fraction(u)[|Fraction(u)| - 1];
      }
    }
    assert s[0] == '-' || s[0] == Whole(u)[0];
  }

  /** What norm does to a string, it does once and for all. */
  lemma NormStringIdempotent(s: string)
    ensures NormString(NormString(s)) == NormString(s)
  {
    var t := Trim(s);
    TrimIsIdempotent(s);
    if IsDecimal(t) {
      NormalFormKeepsValue(t);
      DecimalsAreTrimmed(NormString(s));
      TrimFacts(NormString(s));
      CanonicalIffFixed(NormString(s));
    }
  }

  lemma SameNormTrimmed(a: string, b: string)
    ensures NormString(a) == NormString(b) <==>
            if IsDecimal(Trim(a)) && IsDecimal(Trim(b)) then Value(Trim(a)) == Value(Trim(b)) else Trim(a) == Trim(b)
  {
    TrimIsIdempotent(a);
    TrimIsIdempotent(b);
    if IsDecimal(Trim(a)) && IsDecimal(Trim(b)) {
      SameNormalFormIffSameValue(Trim(a), Trim(b));
    } else {
      if IsDecimal(Trim(a)) { NormalFormKeepsValue(Trim(a)); }
      if IsDecimal(Trim(b)) { NormalFormKeepsValue(Trim(b)); }
    }
  }

  /** Both strings are one text with white space around it, or two spellings of one number. */
  ghost predicate SameSpelling(a: string, b: string) {
    || (exists t :: Trimmed(t) && Pads(a, t) && Pads(b, t))
    || (exists x, y :: IsDecimal(x) && IsDecimal(y) && Pads(a, x) && Pads(b, y) && Value(x) == Value(y))
  }

  /** When two string leaves hash alike: exactly when one is a respelling of the other. */
  lemma SameNormString(a: string, b: string)
    ensures NormString(a) == NormString(b) <==> SameSpelling(a, b)
  {
    SameNormTrimmed(a, b);
    TrimIffPads(a, Trim(a));
    TrimIffPads(b, Trim(b));
    if t :| Trimmed(t) && Pads(a, t) && Pads(b, t) {
      TrimIffPads(a, t);
      TrimIffPads(b, t);
    }
    if x, y :| IsDecimal(x) && IsDecimal(y) && Pads(a, x) && Pads(b, y) && Value(x) == Value(y) {
      DecimalsAreTrimmed(x);
      DecimalsAreTrimmed(y);
      TrimIffPads(a, x);
      TrimIffPads(b, y);
    }
  }

  // ---- which texts are decimals

  predicate Sign(s: string) {
    s == "" || s == "-"
  }

  predicate SomeDigits(s: string) {
    s != "" && Digits(s)
  }

  /** A sign or none, then digits. */
  ghost predicate WithoutPoint(s: string) {
    exists sign, whole :: Sign(sign) && SomeDigits(whole) && s == sign + whole
  }

  /** A sign or none, then digits, a point, and digits again. */
  ghost predicate WithPoint(s: string) {
    exists sign, whole, fraction :: Sign(sign) && SomeDigits(whole) && SomeDigits(fraction) && s == sign + (whole + "." + fraction)
  }

  lemma UnsignedOf(sign: string, u: string)
    requires Sign(sign) && u != "" && u[0] != '-'
    ensures Unsigned(sign + u) == u
  {
    if sign == "-" {
      MinusIsSign(u);
    }
  }

  lemma AssembledIsDecimal(sign: string, whole: string, fraction: string)
    requires Sign(sign) && SomeDigits(whole) && Digits(fraction)
    ensures IsDecimal(sign + Assemble(whole, fraction))
  {
    PartsOfAssembled(whole, fraction);
    UnsignedOf(sign, Assemble(whole, fraction));
  }

  lemma WithoutPointIsDecimal(s: string)
    requires WithoutPoint(s)
    ensures IsDecimal(s)
  {
    var sign, whole :| Sign(sign) && SomeDigits(whole) && s == sign + whole;
    AssembledIsDecimal(sign, whole, "");
  }

  lemma WithPointIsDecimal(s: string)
    requires WithPoint(s)
    ensures IsDecimal(s)
  {
    var sign, whole, fraction :| Sign(sign) && SomeDigits(whole) && SomeDigits(fraction) && s == sign + (whole + "." + fraction);
    AssembledIsDecimal(sign, whole, fraction);
  }

  lemma PartsSpelledOut(sign: string, whole: string, fraction: string)
    requires Sign(sign) && SomeDigits(whole) && Digits(fraction)
    ensures var s := sign + Assemble(whole, fraction); WithoutPoint(s) || WithPoint(s)
  {
    var s := sign + Assemble(whole, fraction);
    if fraction == "" {
      assert s == sign + whole;
    } else {
      assert SomeDigits(fraction) && s == sign + (whole + "." + fraction);
      assert WithPoint(s);
    }
  }

  /** DECIMAL_RE accepts exactly such texts. */
  lemma DecimalsAreSpelledOut(s: string)
    ensures IsDecimal(s) <==> WithoutPoint(s) || WithPoint(s)
  {
    if IsDecimal(s) {
      var u := Unsigned(s);
      var sign := if Negative(s) then "-" else "";
      AssembleParts(u);
      PartsSpelledOut(sign, Whole(u), Fraction(u));
      assert s == sign + u;
    } else {
      if WithoutPoint(s) { WithoutPointIsDecimal(s); }
      if WithPoint(s) { WithPointIsDecimal(s); }
    }
  }
}
