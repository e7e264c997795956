/**
 * Calendar dates of the genealogy database.
 *
 * A date is kept as its proleptic Gregorian ordinal (day 1 is 0001-01-01, as
 * Python's `date.toordinal()`), so that `(a - b).days` is plain subtraction,
 * together with the Gramps quality flag.
 */
module Dates {
  import opened Wrappers

  const MinYear := 1
  const MaxYear := 9999

  predicate IsLeap(y: int) {
    y % 4 == 0 && (y % 100 != 0 || y % 400 == 0)
  }

  function DaysInMonth(y: int, m: int): (n: int)
    requires 1 <= m <= 12
    ensures 28 <= n <= 31
  {
    if m == 2 then (if IsLeap(y) then 29 else 28)
    else if m == 4 || m == 6 || m == 9 || m == 11 then 30
    else 31
  }

  function DaysInYear(y: int): int {
    if IsLeap(y) then 366 else 365
  }

  /** What Python's `date(year, month, day)` accepts without raising ValueError. */
  predicate IsValidDate(y: int, m: int, d: int) {
    MinYear <= y <= MaxYear && 1 <= m <= 12 && 1 <= d <= DaysInMonth(y, m)
  }

  function DaysBeforeYear(y: int): int
    requires y >= 1
  {
    var p := y - 1;
    p * 365 + p / 4 - p / 100 + p / 400
  }

  function DaysBeforeMonth(y: int, m: int): int
    requires 1 <= m <= 12
  {
    var table := [0, 31, 59, 90, 120, 151, 181, 212, 243, 273, 304, 334];
    table[m - 1] + (if m > 2 && IsLeap(y) then 1 else 0)
  }

  /** Python's `date(y, m, d).toordinal()`. */
  function Ordinal(y: int, m: int, d: int): int
    requires IsValidDate(y, m, d)
  {
    DaysBeforeYear(y) + DaysBeforeMonth(y, m) + d
  }

  /** The ordinal of `date.min`, 0001-01-01; subtracting days below it raises OverflowError. */
  const MinOrdinal := 1
  /** The ordinal of `date.max`, 9999-12-31; adding days past it raises OverflowError. */
  const MaxOrdinal := 3652059

  lemma MaxOrdinalIsLastDay()
    ensures IsValidDate(MaxYear, 12, 31) && Ordinal(MaxYear, 12, 31) == MaxOrdinal
  {
  }

  lemma MonthStep(y: int, m: int)
    requires 1 <= m < 12
    ensures DaysBeforeMonth(y, m + 1) == DaysBeforeMonth(y, m) + DaysInMonth(y, m)
  {
  }

  lemma YearStep(y: int)
    requires y >= 1
    ensures DaysBeforeYear(y + 1) == DaysBeforeYear(y) + DaysInYear(y)
  {
    var p := y - 1;
    assert y / 4 == p / 4 + (if y % 4 == 0 then 1 else 0);
    assert y / 100 == p / 100 + (if y % 100 == 0 then 1 else 0);
    assert y / 400 == p / 400 + (if y % 400 == 0 then 1 else 0);
  }

  lemma {:induction false} DayWithinYear(y: int, m: int, d: int)
    requires IsValidDate(y, m, d)
    ensures 1 <= DaysBeforeMonth(y, m) + d <= DaysInYear(y)
    decreases 12 - m
  {
    if m < 12 {
      MonthStep(y, m);
      DayWithinYear(y, m + 1, 1);
    }
  }

  lemma {:induction false} YearsAscend(y1: int, y2: int)
    requires 1 <= y1 <= y2
    ensures DaysBeforeYear(y1) + (y2 - y1) * 365 <= DaysBeforeYear(y2)
    decreases y2 - y1
  {
    if y1 < y2 {
      YearStep(y1);
      YearsAscend(y1 + 1, y2);
    }
  }

  lemma {:induction false} MonthsAscend(y: int, m1: int, m2: int)
    requires 1 <= m1 < m2 <= 12
    ensures DaysBeforeMonth(y, m1) + DaysInMonth(y, m1) <= DaysBeforeMonth(y, m2)
    decreases m2 - m1
  {
    MonthStep(y, m1);
    if m1 + 1 < m2 {
      MonthsAscend(y, m1 + 1, m2);
    }
  }

  /** Ordinals follow calendar order, so day differences measure elapsed time. */
  lemma OrdinalAscends(y1: int, m1: int, d1: int, y2: int, m2: int, d2: int)
    requires IsValidDate(y1, m1, d1) && IsValidDate(y2, m2, d2)
    requires y1 < y2 || (y1 == y2 && (m1 < m2 || (m1 == m2 && d1 < d2)))
    ensures Ordinal(y1, m1, d1) < Ordinal(y2, m2, d2)
  {
    if y1 < y2 {
      DayWithinYear(y1, m1, d1);
      YearStep(y1);
      YearsAscend(y1 + 1, y2);
    } else if m1 < m2 {
      MonthsAscend(y1, m1, m2);
    }
  }

  datatype Quality = Exactly | Estimated

  /** `DateQuality(code)`: only the codes 0 and 1 exist. */
  function QualityFromCode(code: int): (r: Result<Quality>)
    ensures r.Ok? <==> code == 0 || code == 1
    ensures r.Ok? ==> (r.value == Exactly <==> code == 0)
  {
    if code == 0 then Ok(Exactly)
    else if code == 1 then Ok(Estimated)
    else Err(ValueError)
  }

  /** `str(DateQuality)`: the prefix shown before a date. */
  function QualityMark(q: Quality): (s: string)
    ensures s == "" <==> q == Exactly
  {
    match q
    case Exactly => ""
    case Estimated => "≈ "
  }

  datatype Date = Date(ordinal: int, quality: Quality)

  /** Gramps stores an unknown day or month as 0; the loaders read it as the first. */
  function OrFirst(v: int): int {
    if v == 0 then 1 else v
  }

  /** The shared tail of every date loader: normalise zeros, build the date, read the quality. */
  function MakeDate(day: int, month: int, year: int, qualityCode: int): (r: Result<Date>)
    ensures r.Ok? <==> IsValidDate(year, OrFirst(month), OrFirst(day)) && (qualityCode == 0 || qualityCode == 1)
    ensures r.Err? ==> r.error == ValueError
    ensures r.Ok? ==> r.value.ordinal == Ordinal(year, OrFirst(month), OrFirst(day))
                      && r.value.quality == QualityFromCode(qualityCode).value
  {
    var d := OrFirst(day);
    var m := OrFirst(month);
    if !IsValidDate(year, m, d) then Err(ValueError)
    else
      var q :- QualityFromCode(qualityCode);
      Ok(Date(Ordinal(year, m, d), q))
  }

  /** A date as the JSON columns of the newer Gramps schema hold it. */
  datatype JsonDate = JsonDate(dateval: seq<int>, quality: int)

  /** `Date.from_gramps_json_date`: `dateval` is read as [day, month, year, ...]. */
  function FromGrampsJson(raw: JsonDate): (r: Result<Date>)
    ensures |raw.dateval| < 3 ==> r == Err(IndexError)
    ensures |raw.dateval| >= 3 ==> r == MakeDate(raw.dateval[0], raw.dateval[1], raw.dateval[2], raw.quality)
  {
    if |raw.dateval| < 3 then Err(IndexError)
    else MakeDate(raw.dateval[0], raw.dateval[1], raw.dateval[2], raw.quality)
  }

  /** A date as the pickled tuples of the older Gramps schema hold it: only the quality (index 2) and dateval (index 3) are read. */
  datatype DbDate = DbDate(quality: int, dateval: seq<int>)

  /** `Date.from_gramps_db` of content_generator/entities.py: dateval of length 4 or 8. */
  function FromGrampsDb(raw: DbDate): (r: Result<Date>)
    ensures |raw.dateval| != 4 && |raw.dateval| != 8 ==> r == Err(ValueError)
    ensures |raw.dateval| == 4 || |raw.dateval| == 8 ==>
              r == MakeDate(raw.dateval[0], raw.dateval[1], raw.dateval[2], raw.quality)
  {
    if |raw.dateval| == 4 || |raw.dateval| == 8 then
      MakeDate(raw.dateval[0], raw.dateval[1], raw.dateval[2], raw.quality)
    else Err(ValueError)
  }

  /** `Date.from_gramps_db` of gramps_parser/db.py: unpacking into four names fails on any other length. */
  function FromGrampsDbFour(raw: DbDate): (r: Result<Date>)
    ensures |raw.dateval| != 4 ==> r == Err(ValueError)
    ensures |raw.dateval| == 4 ==> r == MakeDate(raw.dateval[0], raw.dateval[1], raw.dateval[2], raw.quality)
  {
    if |raw.dateval| == 4 then MakeDate(raw.dateval[0], raw.dateval[1], raw.dateval[2], raw.quality)
    else Err(ValueError)
  }

  /** Day 0 and month 0 are read exactly as day 1 and month 1. */
  lemma ZeroIsFirst(day: int, month: int, year: int, qualityCode: int)
    ensures FromGrampsJson(JsonDate([day, month, year], qualityCode))
         == FromGrampsJson(JsonDate([OrFirst(day), OrFirst(month), year], qualityCode))
  {
  }

  /** Two readings of the same tuple agree wherever both accept it. */
  lemma LoadersAgree(raw: DbDate)
    requires FromGrampsDbFour(raw).Ok?
    ensures FromGrampsDb(raw) == FromGrampsDbFour(raw)
  {
  }
}
