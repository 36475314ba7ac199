/**
 * Fare computation in integer paise, and the two-decimal text the booking
 * table stores. The source computes in floating point:
 * distance × rate × (1 − 0.2 if age ≥ 60); because distances are integers
 * and rates are multiples of 0.5, the exact result is always a whole number
 * of paise, which is what this module computes.
 */
module Fare {
  import opened Wrappers
  import opened Text

  const SENIOR_AGE: int := 60

  /** Base fare in paise: distance × rate (rate in tenths of a rupee per km). */
  function BasePaise(distanceKm: int, rateTenths: nat): int {
    distanceKm * rateTenths * 10
  }

  /** The senior discount in paise: 20% of the base fare. */
  function SeniorDiscountPaise(distanceKm: int, rateTenths: nat): int {
    distanceKm * rateTenths * 2
  }

  /** The fare in paise, with the senior discount applied from age 60. */
  function FarePaise(distanceKm: int, rateTenths: nat, age: int): (r: int)
    ensures distanceKm >= 0 ==> 0 <= r <= BasePaise(distanceKm, rateTenths)
  {
    distanceKm * rateTenths * (if age >= SENIOR_AGE then 8 else 10)
  }

  /** The source's formula over exact rationals, in rupees. */
  function FareRupees(distanceKm: int, rateTenths: nat, age: int): real {
    var ratePerKm := rateTenths as real / 10.0;
    var discount := if age >= SENIOR_AGE then 0.2 else 0.0;
    (distanceKm as real) * ratePerKm * (1.0 - discount)
  }

  /** The integer fare is the exact value of the source's formula, scaled to paise. */
  lemma FarePaiseIsExactFare(distanceKm: int, rateTenths: nat, age: int)
    ensures FarePaise(distanceKm, rateTenths, age) as real == 100.0 * FareRupees(distanceKm, rateTenths, age)
  {
    var d := distanceKm as real;
    var rt := rateTenths as real;
    var f := if age >= SENIOR_AGE then 8 else 10;
    var discount := if age >= SENIOR_AGE then 0.2 else 0.0;
    assert 10.0 * (1.0 - discount) == f as real;
    calc {
      100.0 * FareRupees(distanceKm, rateTenths, age);
      100.0 * (d * (rt / 10.0) * (1.0 - discount));
      d * rt * (10.0 * (1.0 - discount));
      d * rt * (f as real);
      (distanceKm * rateTenths * f) as real;
    }
  }

  /** The senior total is the base fare minus its 20% discount; other passengers pay the base. */
  lemma FareIsBaseLessDiscount(distanceKm: int, rateTenths: nat, age: int)
    ensures age >= SENIOR_AGE ==>
      FarePaise(distanceKm, rateTenths, age) == BasePaise(distanceKm, rateTenths) - SeniorDiscountPaise(distanceKm, rateTenths)
    ensures age < SENIOR_AGE ==> FarePaise(distanceKm, rateTenths, age) == BasePaise(distanceKm, rateTenths)
  {
  }

  function TwoDigits(n: nat): (s: string)
    requires n < 100
    ensures |s| == 2 && AllDigits(s)
  {
    [DigitChar(n / 10), DigitChar(n % 10)]
  }

  /** `toFixed(2)` of a rupee amount given in paise: optional sign, integer part, '.', two decimals. */
  function FormatFare(paise: int): (s: string)
    ensures |s| >= 4 && s[|s| - 3] == '.' && AllDigits(s[|s| - 2..])
  {
    var a := if paise < 0 then -paise else paise;
    (if paise < 0 then "-" else "") + NatToString(a / 100) + "." + TwoDigits(a % 100)
  }

  /**
   * Reads back a fare in the stored two-decimal form: an optional minus
   * sign, digits, a point and exactly two digits. Anything else, "NaN"
   * included, is no amount.
   */
  function ParseFare(s: string): (r: Option<int>)
    ensures r.Some? ==> |s| >= 4 && s[|s| - 3] == '.' && AllDigits(s[|s| - 2..])
    ensures r.Some? ==> (r.value < 0 ==> s[0] == '-')
  {
    if |s| < 4 || s[|s| - 3] != '.' || !AllDigits(s[|s| - 2..]) then None
    else
      var whole := s[..|s| - 3];
      var cents := ParseDigits(s[|s| - 2..]);
      if |whole| >= 2 && whole[0] == '-' && AllDigits(whole[1..]) then
        Some(-(ParseDigits(whole[1..]) * 100 + cents))
      else if AllDigits(whole) then
        Some(ParseDigits(whole) * 100 + cents)
      else None
  }

  lemma DigitRoundTrip(d: nat)
    requires d < 10
    ensures DigitValue(DigitChar(d)) == d
  {
  }

  lemma ParseTwoDigits(n: nat)
    requires n < 100
    ensures ParseDigits(TwoDigits(n)) == n
  {
    var s := TwoDigits(n);
    DigitRoundTrip(n / 10);
    DigitRoundTrip(n % 10);
    assert s[..1][..0] == [];
    assert ParseDigits(s[..1]) == n / 10;
  }

  /** The integer and decimal parts of a string shaped like a formatted fare. */
  lemma FareShape(whole: string, t: string)
    requires |whole| >= 1 && |t| == 2 && AllDigits(t)
    ensures var s := whole + "." + t;
      && |s| >= 4 && s[|s| - 3] == '.' && s[..|s| - 3] == whole && s[|s| - 2..] == t
  {
  }

  /** Reading back a formatted fare gives the amount that was formatted. */
  lemma ParseFormatFare(paise: int)
    ensures ParseFare(FormatFare(paise)) == Some(paise)
  {
    var a := if paise < 0 then -paise else paise;
    var n := NatToString(a / 100);
    var t := TwoDigits(a % 100);
    ParseTwoDigits(a % 100);
    ParseNatToString(a / 100);
    if paise < 0 {
      var whole := "-" + n;
      assert FormatFare(paise) == whole + "." + t;
      FareShape(whole, t);
      assert whole[1..] == n;
    } else {
      assert FormatFare(paise) == n + "." + t;
      FareShape(n, t);
      assert IsDigit(n[0]);
    }
  }

  /** What the bookings page shows for a stored fare: `parseFloat(fare).toFixed(2)`. */
  function DisplayFare(stored: string): (shown: string)
    ensures ParseFare(stored).Some? ==> ParseFare(shown) == ParseFare(stored)
    ensures ParseFare(stored).None? ==> shown == "NaN"
  {
    match ParseFare(stored)
    case Some(p) =>
      ParseFormatFare(p);
      FormatFare(p)
    case None => "NaN"
  }

  /** Re-displaying a stored fare shows exactly the text the server stored. */
  lemma DisplayShowsStoredFare(paise: int)
    ensures DisplayFare(FormatFare(paise)) == FormatFare(paise)
  {
    ParseFormatFare(paise);
  }

  /** A fare fits the table's `decimal(10, 2)` column: at most 8 integer digits. */
  predicate FareFits(paise: int) {
    -10_000_000_000 < paise < 10_000_000_000
  }

  /** 1400 km in Economy (2.0/km) at age 30 is "2800.00"; 575 km in Business (5.0/km) at 65 is "2300.00". */
  lemma FareExamples()
    ensures FormatFare(FarePaise(1400, 20, 30)) == "2800.00"
    ensures FormatFare(FarePaise(575, 50, 65)) == "2300.00"
  {
    assert FarePaise(1400, 20, 30) == 280000;
    assert NatToString(28) == "28";
    assert NatToString(280) == "280";
    assert NatToString(2800) == "2800";
    assert TwoDigits(0) == "00";
    assert FarePaise(575, 50, 65) == 230000;
    assert NatToString(23) == "23";
    assert NatToString(230) == "230";
    assert NatToString(2300) == "2300";
  }
}
