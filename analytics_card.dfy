/**
 * `defaultGetXAxisLabels` of the analytics card: the x-axis labels for a time
 * range and a number of data points.
 */
module AnalyticsCard {

  function Digit(d: nat): (c: char)
    requires d < 10
  {
    "0123456789"[d]
  }

  function DigitValue(c: char): nat
  {
    if '0' <= c <= '9' then (c - '0') as nat else 0
  }

  /** A natural number in decimal, as a template literal prints it. */
  function Decimal(n: nat): (s: string)
    ensures |s| > 0 && forall i :: 0 <= i < |s| ==> '0' <= s[i] <= '9'
    decreases n
  {
    if n < 10 then [Digit(n)] else Decimal(n / 10) + [Digit(n % 10)]
  }

  /** Reading decimal digits back, most significant first. */
  function ParseDecimal(s: string): nat
    decreases |s|
  {
    if s == [] then 0 else ParseDecimal(s[..|s| - 1]) * 10 + DigitValue(s[|s| - 1])
  }

  lemma DigitRoundTrip(d: nat)
    requires d < 10
    ensures DigitValue(Digit(d)) == d
  {
  }

  /** Printing then reading a number gives it back. */
  lemma {:induction false} DecimalRoundTrip(n: nat)
    ensures ParseDecimal(Decimal(n)) == n
    decreases n
  {
    var s := Decimal(n);
    if n < 10 {
      assert s[..0] == [];
      DigitRoundTrip(n);
    } else {
      assert s[..|s| - 1] == Decimal(n / 10);
      DecimalRoundTrip(n / 10);
      DigitRoundTrip(n % 10);
    }
  }

  lemma DecimalInjective(m: nat, n: nat)
    requires Decimal(m) == Decimal(n)
    ensures m == n
  {
    DecimalRoundTrip(m);
    DecimalRoundTrip(n);
  }

  const WeekLabels := ["Mon", "Tue", "Wed", "Thu", "Fri", "Sat", "Sun"]
  const YearLabels := ["Jan", "Feb", "Mar", "Apr", "May", "Jun", "Jul", "Aug", "Sep", "Oct", "Nov", "Dec"]

  /** `Array.from({length: n})` makes no elements for a negative length. */
  function ArrayLength(dataLength: int): nat
  {
    if dataLength < 0 then 0 else dataLength
  }

  /** Label i of the day range: the hour `2 * i` followed by "h". */
  function HourLabel(i: nat): string
  {
    Decimal(2 * i) + "h"
  }

  /** Label i of the month range: "Day " followed by `i + 1`. */
  function DayLabel(i: nat): string
  {
    "Day " + Decimal(i + 1)
  }

  /**
   * The range arrives as a string: "day" and "month" give one label per data
   * point, "week" and "year" give fixed lists, anything else gives none.
   */
  function DefaultXAxisLabels(range: string, dataLength: int): (labels: seq<string>)
    ensures range == "day" ==>
      |labels| == ArrayLength(dataLength) && forall i :: 0 <= i < |labels| ==> labels[i] == HourLabel(i)
    ensures range == "month" ==>
      |labels| == ArrayLength(dataLength) && forall i :: 0 <= i < |labels| ==> labels[i] == DayLabel(i)
    ensures range == "week" ==> labels == WeekLabels
    ensures range == "year" ==> labels == YearLabels
    ensures range !in {"day", "week", "month", "year"} ==> labels == []
  {
    if range == "day" then seq(ArrayLength(dataLength), (i: int) requires 0 <= i => HourLabel(i))
    else if range == "week" then WeekLabels
    else if range == "month" then seq(ArrayLength(dataLength), (i: int) requires 0 <= i => DayLabel(i))
    else if range == "year" then YearLabels
    else []
  }

  lemma HourLabelInjective(i: nat, j: nat)
    requires HourLabel(i) == HourLabel(j)
    ensures i == j
  {
    var a, b := Decimal(2 * i), Decimal(2 * j);
    assert a == (a + "h")[..|a|];
    assert b == (b + "h")[..|b|];
    DecimalInjective(2 * i, 2 * j);
  }

  lemma DayLabelInjective(i: nat, j: nat)
    requires DayLabel(i) == DayLabel(j)
    ensures i == j
  {
    var a, b := Decimal(i + 1), Decimal(j + 1);
    assert a == ("Day " + a)[4..];
    assert b == ("Day " + b)[4..];
    DecimalInjective(i + 1, j + 1);
  }

  /** No two labels on an axis are the same, whatever the range and the number of points. */
  lemma LabelsDistinct(range: string, dataLength: int)
    ensures var labels := DefaultXAxisLabels(range, dataLength);
      forall i, j :: 0 <= i < j < |labels| ==> labels[i] != labels[j]
  {
    var labels := DefaultXAxisLabels(range, dataLength);
    forall i, j | 0 <= i < j < |labels|
      ensures labels[i] != labels[j]
    {
      if range == "day" {
        if labels[i] == labels[j] { HourLabelInjective(i, j); }
      } else if range == "month" {
        if labels[i] == labels[j] { DayLabelInjective(i, j); }
      }
    }
  }
}
