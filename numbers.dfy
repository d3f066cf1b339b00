/**
 * Reading the numeric fields of a player payload. The program parses each
 * field as a floating-point number and substitutes 0.0 when parsing fails,
 * so a corrupt field degrades to zero instead of dropping the event.
 *
 * Numbers are modelled as exact reals. The accepted text is an optional
 * sign followed by decimal digits with at most one decimal point and at
 * least one digit ("10", "10.00", ".5", "7.", "-3.25").
 */
module Numbers {

  import opened Wrappers

  predicate IsDigit(c: char) {
    '0' <= c <= '9'
  }

  predicate AllDigits(s: string) {
    forall i | 0 <= i < |s| :: IsDigit(s[i])
  }

  predicate HasDigit(s: string) {
    exists i | 0 <= i < |s| :: IsDigit(s[i])
  }

  function DigitValue(c: char): (d: nat)
    requires IsDigit(c)
    ensures d <= 9
  {
    c as int - '0' as int
  }

  /** The digits read as a whole number in base ten. */
  function NaturalValue(ds: string): nat
    requires AllDigits(ds)
  {
    if ds == "" then 0
    else 10 * NaturalValue(ds[..|ds| - 1]) + DigitValue(ds[|ds| - 1])
  }

  /** The digits read as the part after a decimal point: "25" is 0.25. */
  function FractionValue(ds: string): (f: real)
    requires AllDigits(ds)
    ensures 0.0 <= f < 1.0
  {
    if ds == "" then 0.0
    else (DigitValue(ds[0]) as real + FractionValue(ds[1..])) / 10.0
  }

  /** The position of the first decimal point, or |s| when there is none. */
  function FirstDot(s: string): (i: nat)
    ensures i <= |s|
    ensures i < |s| ==> s[i] == '.'
    ensures forall j | 0 <= j < i :: s[j] != '.'
  {
    if s == "" || s[0] == '.' then 0 else 1 + FirstDot(s[1..])
  }

  /** An unsigned decimal: digits, at most one point, at least one digit. */
  function ParseUnsigned(s: string): (r: Option<real>)
    ensures r.Some? ==> r.value >= 0.0 && HasDigit(s)
  {
    var i := FirstDot(s);
    var whole := s[..i];
    var frac := if i < |s| then s[i + 1..] else "";
    if (whole != "" || frac != "") && AllDigits(whole) && AllDigits(frac) then
      assert whole != "" ==> IsDigit(s[0]);
      assert whole == "" ==> IsDigit(s[i + 1]);
      Some(NaturalValue(whole) as real + FractionValue(frac))
    else
      None
  }

  /** A decimal with an optional leading '+' or '-'. */
  function ParseDecimal(s: string): (r: Option<real>)
    ensures r.Some? ==> HasDigit(s)
    ensures r.Some? && r.value < 0.0 ==> s[0] == '-'
  {
    if s != "" && (s[0] == '-' || s[0] == '+') then
      var tail := ParseUnsigned(s[1..]);
      assert tail.Some? ==> HasDigit(s) by {
        if tail.Some? {
          var i :| 0 <= i < |s[1..]| && IsDigit(s[1..][i]);
          assert IsDigit(s[i + 1]);
        }
      }
      if tail.None? then None
      else if s[0] == '-' then Some(-tail.value)
      else tail
    else
      ParseUnsigned(s)
  }

  /**
   * A numeric payload field: its decimal value, or 0.0 when the text is not
   * a decimal number.
   */
  function ParseNum(s: string): (v: real)
    ensures !HasDigit(s) ==> v == 0.0
    ensures v < 0.0 ==> s[0] == '-'
  {
    match ParseDecimal(s)
    case Some(v) => v
    case None => 0.0
  }

  /**
   * A sign in front of an unsigned decimal: '-' negates its value and '+'
   * keeps it.
   */
  lemma NegatedDecimal(u: string)
    requires ParseUnsigned(u).Some?
    ensures ParseNum("-" + u) == -ParseUnsigned(u).value
    ensures ParseNum("+" + u) == ParseUnsigned(u).value
  {
    assert ("-" + u)[1..] == u;
    assert ("+" + u)[1..] == u;
  }

  /** A character that is neither a digit nor a point makes an unsigned decimal fail. */
  lemma UnsignedRejectsStray(t: string, j: nat)
    requires j < |t| && !IsDigit(t[j]) && t[j] != '.'
    ensures ParseUnsigned(t).None?
  {
    var d := FirstDot(t);
    if j < d {
      assert t[..d][j] == t[j];
    } else {
      assert t[d + 1..][j - d - 1] == t[j];
    }
  }

  /** A second decimal point makes an unsigned decimal fail. */
  lemma UnsignedRejectsTwoPoints(t: string, i: nat, j: nat)
    requires i < j < |t| && t[i] == '.' && t[j] == '.'
    ensures ParseUnsigned(t).None?
  {
    var d := FirstDot(t);
    assert t[d + 1..][j - d - 1] == t[j];
  }

  /**
   * A field with a character that is neither a digit nor a point, anywhere
   * but in the place of a leading sign ("1abc", "10 USD"), is not a number
   * and reads as 0.0.
   */
  lemma StrayCharReadsAsZero(s: string, i: nat)
    requires i < |s| && !IsDigit(s[i]) && s[i] != '.'
    requires i == 0 ==> s[0] != '-' && s[0] != '+'
    ensures ParseNum(s) == 0.0
  {
    if s[0] == '-' || s[0] == '+' {
      assert s[1..][i - 1] == s[i];
      UnsignedRejectsStray(s[1..], i - 1);
    } else {
      UnsignedRejectsStray(s, i);
    }
  }

  /** A field with two decimal points ("1.2.3") is not a number and reads as 0.0. */
  lemma TwoPointsReadAsZero(s: string, i: nat, j: nat)
    requires i < j < |s| && s[i] == '.' && s[j] == '.'
    ensures ParseNum(s) == 0.0
  {
    if s[0] == '-' || s[0] == '+' {
      assert s[1..][i - 1] == s[i] && s[1..][j - 1] == s[j];
      UnsignedRejectsTwoPoints(s[1..], i - 1, j - 1);
    } else {
      UnsignedRejectsTwoPoints(s, i, j);
    }
  }

  lemma {:induction false} FirstDotAfter(w: string, t: string)
    requires AllDigits(w)
    requires t != "" && t[0] == '.'
    ensures FirstDot(w + t) == |w|
  {
    if w != "" {
      assert (w + t)[1..] == w[1..] + t;
      FirstDotAfter(w[1..], t);
    } else {
      assert w + t == t;
    }
  }

  /** Digits, a point and digits read as the whole part plus the fraction. */
  lemma PointDecimal(w: string, f: string)
    requires w != "" && AllDigits(w) && AllDigits(f)
    ensures ParseNum(w + "." + f) == NaturalValue(w) as real + FractionValue(f)
  {
    var s := w + "." + f;
    assert s == w + ("." + f);
    FirstDotAfter(w, "." + f);
    assert s[..|w|] == w;
    assert s[|w| + 1..] == f;
    assert IsDigit(s[0]);
  }

  /** Digits without a point read as the whole number they spell. */
  lemma {:induction false} WholeDecimal(w: string)
    requires w != "" && AllDigits(w)
    ensures ParseNum(w) == NaturalValue(w) as real
  {
    assert FirstDot(w) == |w| by {
      if FirstDot(w) < |w| {
        assert false;
      }
    }
    assert w[..|w|] == w;
    assert IsDigit(w[0]);
  }
}
