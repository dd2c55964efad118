/**
  The dashboard's sales chart: each monthly data point becomes a chart point
  whose label is the point's own month name, else the calendar month of its
  position, else "Month" and its one-based position.
 */
module SalesChart {

  /** A monthly data point as the chart receives it. A missing month and an empty one are
      both the empty string: the label is chosen with `||`, which skips both. */
  datatype MonthlyPoint = MonthlyPoint(month: string, orders: int, sales: int)

  /** A point as the chart draws it. */
  datatype ChartPoint = ChartPoint(month: string, sales: int, orders: int)

  const MonthNames: seq<string> := ["Jan", "Feb", "Mar", "Apr", "May", "Jun", "Jul", "Aug", "Sep", "Oct", "Nov", "Dec"]

  // ---------------------------------------------------------------------------
  // Decimal rendering of a position
  // ---------------------------------------------------------------------------

  predicate IsDigit(c: char)
  {
    '0' <= c <= '9'
  }

  function DigitChar(d: nat): (c: char)
    requires d < 10
    ensures IsDigit(c)
  {
    ('0' as int + d) as char
  }

  function DigitValue(c: char): (d: nat)
    requires IsDigit(c)
  {
    c as int - '0' as int
  }

  /** The number a string of decimal digits stands for, read most significant digit first. */
  function DigitsValue(s: string): (v: nat)
    requires forall i :: 0 <= i < |s| ==> IsDigit(s[i])
  {
    if s == [] then 0 else DigitsValue(s[..|s| - 1]) * 10 + DigitValue(s[|s| - 1])
  }

  /** The decimal digits of `n`, as a template literal renders a non-negative integer: read
      back as a number they give `n`. */
  function Decimal(n: nat): (r: string)
    ensures |r| >= 1 && (n < 10 <==> |r| == 1)
    ensures forall i :: 0 <= i < |r| ==> IsDigit(r[i])
    ensures DigitsValue(r) == n
  {
    if n < 10 then [DigitChar(n)]
    else
      var r := Decimal(n / 10) + [DigitChar(n % 10)];
      assert r[..|r| - 1] == Decimal(n / 10);
      r
  }

  /** Different numbers are rendered differently. */
  lemma DecimalInjective(a: nat, b: nat)
    requires Decimal(a) == Decimal(b)
    ensures a == b
  {
  }

  // ---------------------------------------------------------------------------
  // Chart data
  // ---------------------------------------------------------------------------

  /** `item.month || monthNames[index] || "Month " + (index + 1)` */
  function Label(item: MonthlyPoint, index: nat): (r: string)
  {
    if item.month != "" then item.month
    else if index < |MonthNames| then MonthNames[index]
    else "Month " + Decimal(index + 1)
  }

  /** `monthlyData.map((item, index) => ({ month: Label(item, index), sales, orders }))` */
  function ChartData(data: seq<MonthlyPoint>): (r: seq<ChartPoint>)
  {
    seq(|data|, i requires 0 <= i < |data| => ChartPoint(Label(data[i], i), data[i].sales, data[i].orders))
  }

  /** One chart point per data point, with sales and orders copied unchanged; the label is
      never empty; an explicit month wins at any position, the first twelve positions fall
      back to their calendar month, and later ones to "Month " and their one-based position. */
  lemma ChartDataSpec(data: seq<MonthlyPoint>)
    ensures |ChartData(data)| == |data|
    ensures forall i :: 0 <= i < |data| ==>
      ChartData(data)[i].sales == data[i].sales && ChartData(data)[i].orders == data[i].orders
    ensures forall i :: 0 <= i < |data| ==> ChartData(data)[i].month != ""
    ensures forall i :: 0 <= i < |data| && data[i].month != "" ==> ChartData(data)[i].month == data[i].month
    ensures forall i :: 0 <= i < |data| && i < 12 && data[i].month == "" ==> ChartData(data)[i].month == MonthNames[i]
    ensures forall i :: 12 <= i < |data| && data[i].month == "" ==>
      ChartData(data)[i].month == "Month " + Decimal(i + 1)
  {
  }

  /** Twelve points without a month are labelled Jan to Dec, in order. */
  lemma CalendarLabels(data: seq<MonthlyPoint>)
    requires |data| == 12
    requires forall i :: 0 <= i < |data| ==> data[i].month == ""
    ensures seq(12, i requires 0 <= i < 12 => ChartData(data)[i].month) == MonthNames
  {
  }

  /** When no point carries a month, no two points share a label. */
  lemma FallbackLabelsDistinct(data: seq<MonthlyPoint>)
    requires forall i :: 0 <= i < |data| ==> data[i].month == ""
    ensures forall i, j :: 0 <= i < j < |data| ==> ChartData(data)[i].month != ChartData(data)[j].month
  {
    forall i, j | 0 <= i < j < |data| ensures ChartData(data)[i].month != ChartData(data)[j].month {
      var li, lj := ChartData(data)[i].month, ChartData(data)[j].month;
      if j < 12 {
        MonthNamesDistinct(i, j);
      } else if i < 12 {
        assert |li| == 3 && |lj| >= 7;
      } else {
        assert li[6..] == Decimal(i + 1) && lj[6..] == Decimal(j + 1);
      }
    }
  }

  /** The twelve names differ: each three-letter name is read as one number, and the twelve
      numbers differ. */
  lemma MonthNamesDistinct(i: nat, j: nat)
    requires i < j < 12
    ensures MonthNames[i] != MonthNames[j]
  {
    var codes := seq(12, k requires 0 <= k < 12 => MonthNames[k][0] as int * 65536 + MonthNames[k][1] as int * 256 + MonthNames[k][2] as int);
    assert codes == [
      'J' as int * 65536 + 'a' as int * 256 + 'n' as int, 'F' as int * 65536 + 'e' as int * 256 + 'b' as int,
      'M' as int * 65536 + 'a' as int * 256 + 'r' as int, 'A' as int * 65536 + 'p' as int * 256 + 'r' as int,
      'M' as int * 65536 + 'a' as int * 256 + 'y' as int, 'J' as int * 65536 + 'u' as int * 256 + 'n' as int,
      'J' as int * 65536 + 'u' as int * 256 + 'l' as int, 'A' as int * 65536 + 'u' as int * 256 + 'g' as int,
      'S' as int * 65536 + 'e' as int * 256 + 'p' as int, 'O' as int * 65536 + 'c' as int * 256 + 't' as int,
      'N' as int * 65536 + 'o' as int * 256 + 'v' as int, 'D' as int * 65536 + 'e' as int * 256 + 'c' as int];
  }

}
