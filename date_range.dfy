/** `getDateRange` (utils/fun.ts): classifies a date by how many whole
    days before today it falls. Instants are milliseconds since the epoch;
    the local time zone is a fixed offset in milliseconds (daylight-saving
    changes are not modelled), and an unparsable date is None. */
module DateRange {
  import opened Base

  const OneDay := 24 * 60 * 60 * 1000
  const OneWeek := 7 * OneDay
  const OneMonth := 30 * OneDay

  const RangeError := "时间范围错误"
  const Today := "今天"
  const WithinWeek := "一周内"
  const WithinMonth := "一月内"
  const Earlier := "更早"

  /** `setHours(0, 0, 0, 0)`: the instant of local midnight starting the
      day that holds `t`. */
  function DayStart(t: int, offset: int): (r: int)
    ensures r <= t < r + OneDay
    ensures (r + offset) % OneDay == 0
  {
    t - (t + offset) % OneDay
  }

  /** The label for a difference of day starts. */
  function Bucket(diff: int): string {
    if diff < 0 then RangeError
    else if diff == 0 then Today
    else if diff < OneWeek then WithinWeek
    else if diff < OneMonth then WithinMonth
    else Earlier
  }

  /** `getDateRange(date)` evaluated at instant `now`. */
  function GetDateRange(now: int, target: Option<int>, offset: int): string {
    if target.None? then RangeError
    else Bucket(DayStart(now, offset) - DayStart(target.value, offset))
  }

  /** The label depends only on the difference of the two day starts, and
      that difference is a whole number of days. */
  lemma OnlyDayDifference(now: int, target: int, offset: int)
    ensures GetDateRange(now, Some(target), offset) == Bucket(DayStart(now, offset) - DayStart(target, offset))
    ensures (DayStart(now, offset) - DayStart(target, offset)) % OneDay == 0
  {
    var a, b := DayStart(now, offset) + offset, DayStart(target, offset) + offset;
    assert a == (a / OneDay) * OneDay && b == (b / OneDay) * OneDay;
    assert a - b == (a / OneDay - b / OneDay) * OneDay;
  }

  /** The labels in order of age. */
  function Rank(name: string): int {
    if name == Today then 0
    else if name == WithinWeek then 1
    else if name == WithinMonth then 2
    else 3
  }

  /** Older never reads as newer: for non-negative differences the rank of
      the label grows with the difference. */
  lemma BucketMonotone(d1: int, d2: int)
    requires 0 <= d1 <= d2
    ensures Rank(Bucket(d1)) <= Rank(Bucket(d2))
    ensures Bucket(d1) != RangeError && Bucket(d2) != RangeError
  {
  }

  /** In whole days: the same day is today, one to six days back is within
      a week, seven to twenty-nine within a month, and a later day or an
      unparsable date is an error. */
  lemma DayCounts(days: int)
    ensures Bucket(days * OneDay) ==
      if days < 0 then RangeError
      else if days == 0 then Today
      else if days <= 6 then WithinWeek
      else if days <= 29 then WithinMonth
      else Earlier
    ensures forall now, offset :: GetDateRange(now, None, offset) == RangeError
  {
  }

  /** Two instants of the same local day read as today. */
  lemma SameDayIsToday(now: int, target: int, offset: int)
    requires DayStart(now, offset) <= target <= now
    ensures GetDateRange(now, Some(target), offset) == Today
  {
    var s := DayStart(now, offset);
    var k := (s + offset) / OneDay;
    assert s + offset == k * OneDay;
    assert target + offset - k * OneDay < OneDay;
    assert (target + offset) % OneDay == target + offset - k * OneDay;
  }
}
