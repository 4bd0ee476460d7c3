/** The command line's default month: the calendar month before today's, written `YYYY-MM`.
    Today's date is a parameter. */
module Run {
  import opened Base
  import opened Strings

  /** A calendar date as Python's `date` holds it. */
  datatype Date = Date(year: int, month: int, day: int)

  predicate ValidDate(d: Date) {
    1 <= d.year <= 9999 && 1 <= d.month <= 12 && 1 <= d.day <= 31
  }

  /** The month before `year`-`month`, counting months from year 0. */
  function PreviousMonth(year: int, month: int): (p: (int, int))
    requires 1 <= month <= 12
    ensures 1 <= p.1 <= 12
    ensures 12 * p.0 + p.1 == 12 * year + month - 1
  {
    if month == 1 then (year - 1, 12) else (year, month - 1)
  }

  /** January steps back to December of the year before; any other month stays in its year. */
  lemma PreviousOfJanuary(year: int)
    ensures PreviousMonth(year, 1) == (year - 1, 12)
  {
    var p := PreviousMonth(year, 1);
    assert 12 * p.0 + p.1 == 12 * (year - 1) + 12;
    assert p.1 == 12;
  }

  function Pow10(k: nat): nat {
    if k == 0 then 1 else 10 * Pow10(k - 1)
  }

  /** A number below 10^k has at most k digits. */
  lemma {:induction false} NatTextWidth(n: nat, k: nat)
    requires 1 <= k && n < Pow10(k)
    ensures |NatText(n)| <= k
    decreases k
  {
    if n >= 10 {
      assert k >= 2;
      assert n / 10 < Pow10(k - 1);
      NatTextWidth(n / 10, k - 1);
    }
  }

  /** `default_month`: the first of this month minus one month, as `{year:04d}-{month:02d}`.
      Stepping back from January of year 1 leaves the range of dates and raises. */
  function DefaultMonth(today: Date): (r: Result<string>)
    requires ValidDate(today)
    ensures r.Err? <==> today.year == 1 && today.month == 1
    ensures r.Ok? ==> |r.value| == 7 && r.value[4] == '-'
    ensures r.Ok? ==> AllDigits(r.value[..4]) && AllDigits(r.value[5..])
    ensures r.Ok? ==> 12 * DigitsValue(r.value[..4]) + DigitsValue(r.value[5..]) == 12 * today.year + today.month - 1
    ensures r.Ok? ==> 1 <= DigitsValue(r.value[5..]) <= 12
  {
    var (y, m) := PreviousMonth(today.year, today.month);
    if y < 1 then Err(Exc("ValueError", "year 0 is out of range", false))
    else
      NatTextWidth(y, 4);
      NatTextWidth(m, 2);
      var year := ZeroPad(y, 4);
      var month := ZeroPad(m, 2);
      ZeroPadValue(y, 4);
      ZeroPadValue(m, 2);
      var s := year + "-" + month;
      assert s[..4] == year && s[5..] == month;
      Ok(s)
  }

  /** The day of the month plays no part. */
  lemma DefaultMonthIgnoresDay(year: int, month: int, d1: int, d2: int)
    requires ValidDate(Date(year, month, d1)) && ValidDate(Date(year, month, d2))
    ensures DefaultMonth(Date(year, month, d1)) == DefaultMonth(Date(year, month, d2))
  {
  }

  /** In January the default is December of the year before. */
  lemma {:induction false} DefaultMonthInJanuary(year: int, day: int)
    requires ValidDate(Date(year, 1, day)) && year > 1
    ensures DefaultMonth(Date(year, 1, day)) == Ok(ZeroPad(year - 1, 4) + "-12")
  {
    PreviousOfJanuary(year);
    assert ZeroPad(12, 2) == "12" by {
      assert NatText(1) == [DigitChar(1)] == "1";
      assert NatText(12) == NatText(1) + [DigitChar(2)] == "12";
    }
    assert ZeroPad(year - 1, 4) + "-" + "12" == ZeroPad(year - 1, 4) + "-12";
  }
}
