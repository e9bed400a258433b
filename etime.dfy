/**
 * The arithmetic half of `get_start_time`: turning the `etime` column of
 * `ps` (`[[dd-]hh:]mm:ss`) into elapsed seconds. Every `int()` or unpacking
 * failure escapes as a `ValueError`, written `None` here.
 */
module Etime {
  import opened Text

  /** `[int(part) for part in parts]`: `None` as soon as one part is not an integer. */
  function ParseAll(parts: seq<string>): (r: Option<seq<int>>)
    ensures r.Some? <==> forall i :: 0 <= i < |parts| ==> ParseInt(parts[i]).Some?
    ensures r.Some? ==> |r.value| == |parts|
    ensures r.Some? ==> forall i :: 0 <= i < |parts| ==> r.value[i] == ParseInt(parts[i]).value
  {
    if parts == [] then Some([])
    else
      var head, tail := ParseInt(parts[0]), ParseAll(parts[1..]);
      if head.None? || tail.None? then None else Some([head.value] + tail.value)
  }

  /** `(3 - len(fields)) * [0] + fields`: zeros in front up to three
      fields; multiplying a list by a negative count gives the empty list, so
      a longer list is left as it is. */
  function Padded(fields: seq<int>): seq<int>
    decreases 3 - |fields|
  {
    if |fields| >= 3 then fields else Padded([0] + fields)
  }

  /** `hours, minutes, seconds = fields` after padding, weighted: `None`
      when there are more than three fields to unpack. */
  function ClockValue(fields: seq<int>): Option<int> {
    var f := Padded(fields);
    if |f| != 3 then None else Some(f[0] * 3600 + f[1] * 60 + f[2])
  }

  /** The `[[hh:]mm:]ss` part: up to three `:`-separated fields, missing
      leading ones counting as 0; more than three fail to unpack. */
  function ClockSeconds(rest: string): Option<int> {
    var fields := ParseAll(SplitOn(rest, ':'));
    if fields.None? then None else ClockValue(fields.value)
  }

  /** `days*24*3600 + hours*3600 + minutes*60 + seconds`, once both parts
      have been read. */
  function WithDays(days: Option<int>, clock: Option<int>): Option<int> {
    if days.None? || clock.None? then None else Some(days.value * 86400 + clock.value)
  }

  /** Seconds since the process started, from its `etime` text: whole days
      before a `-` (0 without one), then the clock part. */
  function ElapsedSeconds(etime: string): Option<int> {
    if '-' in etime then
      var (days, rest) := Partition(etime, '-');
      WithDays(ParseInt(days), ClockSeconds(rest))
    else WithDays(Some(0), ClockSeconds(etime))
  }

  /** The clock part fails to read exactly when one of its fields is not
      an integer or there are more than three fields to unpack. */
  lemma ClockFails(rest: string)
    ensures var parts := SplitOn(rest, ':');
            ClockSeconds(rest).None? <==>
              (exists i :: 0 <= i < |parts| && ParseInt(parts[i]).None?) || |parts| > 3
  {
    var fields := ParseAll(SplitOn(rest, ':'));
    if fields.Some? {
      PaddedLength(fields.value);
    }
  }

  /** Padding only ever lengthens the fields to three. */
  lemma {:induction false} PaddedLength(fields: seq<int>)
    ensures |Padded(fields)| == if |fields| >= 3 then |fields| else 3
    decreases 3 - |fields|
  {
    if |fields| < 3 {
      PaddedLength([0] + fields);
    }
  }

  /** A day count that is not an integer makes the whole `etime` fail to
      read, whatever the clock part holds. */
  lemma DayFieldFails(etime: string)
    requires '-' in etime && ParseInt(Partition(etime, '-').0).None?
    ensures ElapsedSeconds(etime).None?
  {
  }

  /** Digits contain no separator character. */
  lemma DigitsAvoid(t: string, sep: char)
    requires AllDigits(t) && !IsDigit(sep)
    ensures sep !in t
  {
  }

  /** A field of digits reads as its value. */
  lemma ParseAllCons(p: string, rest: seq<string>)
    requires AllDigits(p) && ParseAll(rest).Some?
    ensures ParseAll([p] + rest) == Some([DigitsValue(p) as int] + ParseAll(rest).value)
  {
    assert ([p] + rest)[0] == p && ([p] + rest)[1..] == rest;
  }

  /** Splitting at the first separator peels off the text before it. */
  lemma SplitCons(a: string, sep: char, b: string)
    requires sep !in a
    ensures SplitOn(a + [sep] + b, sep) == [a] + SplitOn(b, sep)
  {
    PartitionFirst(a, sep, b);
    assert (a + [sep] + b)[|a|] == sep;
  }

  /** `ss` alone. */
  lemma OneField(s: string)
    requires AllDigits(s)
    ensures ParseAll(SplitOn(s, ':')) == Some([DigitsValue(s) as int])
  {
    DigitsAvoid(s, ':');
    var none: seq<string> := [];
    assert ParseAll(none) == Some([]);
    ParseAllCons(s, none);
    assert [s] + none == [s];
    var v: int := DigitsValue(s);
    assert [v] + [] == [v];
  }

  /** `mm:ss` with digit fields. */
  lemma TwoFields(m: string, s: string)
    requires AllDigits(m) && AllDigits(s)
    ensures ParseAll(SplitOn(m + ":" + s, ':')) == Some([DigitsValue(m) as int, DigitsValue(s) as int])
  {
    DigitsAvoid(m, ':');
    assert m + ":" + s == m + [':'] + s;
    SplitCons(m, ':', s);
    OneField(s);
    ParseAllCons(m, SplitOn(s, ':'));
    var vm: int, vs: int := DigitsValue(m), DigitsValue(s);
    assert [vm] + [vs] == [vm, vs];
  }

  /** `hh:mm:ss` with digit fields. */
  lemma ThreeFields(h: string, m: string, s: string)
    requires AllDigits(h) && AllDigits(m) && AllDigits(s)
    ensures ParseAll(SplitOn(h + ":" + m + ":" + s, ':'))
            == Some([DigitsValue(h) as int, DigitsValue(m) as int, DigitsValue(s) as int])
  {
    DigitsAvoid(h, ':');
    assert h + ":" + m + ":" + s == h + [':'] + (m + ":" + s);
    SplitCons(h, ':', m + ":" + s);
    TwoFields(m, s);
    ParseAllCons(h, SplitOn(m + ":" + s, ':'));
    var vh: int, vm: int, vs: int := DigitsValue(h), DigitsValue(m), DigitsValue(s);
    assert [vh] + [vm, vs] == [vh, vm, vs];
  }

  /** The seconds in `days` days, `hours` hours, `minutes` minutes and
      `seconds` seconds. */
  function Duration(days: int, hours: int, minutes: int, seconds: int): int {
    days * 86400 + hours * 3600 + minutes * 60 + seconds
  }

  /** Fields read from the clock part are weighted as hours, minutes and
      seconds from the right. */
  lemma ClockWeights(h: int, m: int, s: int)
    ensures ClockValue([s]) == Some(Duration(0, 0, 0, s))
    ensures ClockValue([m, s]) == Some(Duration(0, 0, m, s))
    ensures ClockValue([h, m, s]) == Some(Duration(0, h, m, s))
  {
    assert [0] + [s] == [0, s] && [0] + [0, s] == [0, 0, s];
    assert Padded([s]) == Padded([0, s]) == Padded([0, 0, s]) == [0, 0, s];
    assert [0] + [m, s] == [0, m, s];
    assert Padded([m, s]) == [0, m, s];
  }

  /** Whole days count 86400 seconds each on top of the clock. */
  lemma DaysWeighted(days: int, h: int, m: int, s: int)
    ensures WithDays(Some(days), Some(Duration(0, h, m, s))) == Some(Duration(days, h, m, s))
    ensures WithDays(Some(0), Some(Duration(0, h, m, s))) == Some(Duration(0, h, m, s))
  {
  }

  /** A day count in front of a clock part adds a day's seconds per day. */
  lemma DayField(d: string, rest: string)
    requires AllDigits(d)
    ensures ElapsedSeconds(d + "-" + rest) == WithDays(Some(DigitsValue(d) as int), ClockSeconds(rest))
  {
    DigitsAvoid(d, '-');
    var etime := d + "-" + rest;
    assert etime == d + ['-'] + rest;
    PartitionFirst(d, '-', rest);
    assert '-' in etime by { assert etime[|d|] == '-'; }
  }

  /** `hh:mm:ss`, `mm:ss` and `ss` with digit fields read as a clock does,
      missing leading fields counting as 0. */
  lemma ClockFields(h: string, m: string, s: string)
    requires AllDigits(h) && AllDigits(m) && AllDigits(s)
    ensures ClockSeconds(h + ":" + m + ":" + s) == Some(Duration(0, DigitsValue(h), DigitsValue(m), DigitsValue(s)))
    ensures ClockSeconds(m + ":" + s) == Some(Duration(0, 0, DigitsValue(m), DigitsValue(s)))
    ensures ClockSeconds(s) == Some(Duration(0, 0, 0, DigitsValue(s)))
  {
    ThreeFields(h, m, s);
    TwoFields(m, s);
    OneField(s);
    ClockWeights(DigitsValue(h), DigitsValue(m), DigitsValue(s));
  }

  /** Digit fields joined with `:` contain no `-`. */
  lemma NoDayMark(h: string, m: string, s: string)
    requires AllDigits(h) && AllDigits(m) && AllDigits(s)
    ensures '-' !in h + ":" + m + ":" + s && '-' !in m + ":" + s && '-' !in s
  {
    DigitsAvoid(h, '-');
    DigitsAvoid(m, '-');
    DigitsAvoid(s, '-');
  }

  /** Without a `-` the day count is 0. */
  lemma WithoutDays(etime: string)
    requires '-' !in etime
    ensures ElapsedSeconds(etime) == WithDays(Some(0), ClockSeconds(etime))
  {
  }

  /** `dd-hh:mm:ss` with digit fields: a day's seconds per day on top of
      the clock. */
  lemma ElapsedWithDays(d: string, h: string, m: string, s: string)
    requires AllDigits(d) && AllDigits(h) && AllDigits(m) && AllDigits(s)
    ensures ElapsedSeconds(d + "-" + (h + ":" + m + ":" + s))
            == Some(Duration(DigitsValue(d), DigitsValue(h), DigitsValue(m), DigitsValue(s)))
  {
    var clock := h + ":" + m + ":" + s;
    assert ClockSeconds(clock) == Some(Duration(0, DigitsValue(h), DigitsValue(m), DigitsValue(s))) by {
      ClockFields(h, m, s);
    }
    DaysThenClock(d, clock, DigitsValue(h), DigitsValue(m), DigitsValue(s));
  }

  /** A day count in front of a clock part that reads as `hours`, `minutes`
      and `seconds`. */
  lemma DaysThenClock(d: string, rest: string, hours: int, minutes: int, seconds: int)
    requires AllDigits(d) && ClockSeconds(rest) == Some(Duration(0, hours, minutes, seconds))
    ensures ElapsedSeconds(d + "-" + rest) == Some(Duration(DigitsValue(d), hours, minutes, seconds))
  {
    DayField(d, rest);
    DaysWeighted(DigitsValue(d), hours, minutes, seconds);
  }

  /** `hh:mm:ss`, `mm:ss` and `ss` with digit fields: no days. */
  lemma ElapsedWithoutDays(h: string, m: string, s: string)
    requires AllDigits(h) && AllDigits(m) && AllDigits(s)
    ensures ElapsedSeconds(h + ":" + m + ":" + s) == Some(Duration(0, DigitsValue(h), DigitsValue(m), DigitsValue(s)))
    ensures ElapsedSeconds(m + ":" + s) == Some(Duration(0, 0, DigitsValue(m), DigitsValue(s)))
    ensures ElapsedSeconds(s) == Some(Duration(0, 0, 0, DigitsValue(s)))
  {
    NoDayMark(h, m, s);
    ClockFields(h, m, s);
    WithoutDays(h + ":" + m + ":" + s);
    WithoutDays(m + ":" + s);
    WithoutDays(s);
    DaysWeighted(0, DigitsValue(h), DigitsValue(m), DigitsValue(s));
    DaysWeighted(0, 0, DigitsValue(m), DigitsValue(s));
    DaysWeighted(0, 0, 0, DigitsValue(s));
  }
}
