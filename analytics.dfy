/** The best-posting-time analytics: time slots per platform ranked by average engagement and
    then post count, at most three kept per platform, and shown with a day name and a 12-hour
    clock. The grouping of the posts into slots is done by the database and is not modelled;
    the slots are the input. */
module Analytics {
  import opened Wrappers
  import opened TextUtil

  // ---- hours ----

  /** JavaScript's `hour % 12`: the remainder takes the sign of the dividend. */
  function Rem12(a: int): (r: int)
    ensures a >= 0 ==> r == a % 12
    ensures a < 0 ==> -12 < r <= 0 && (a - r) % 12 == 0
  {
    if a >= 0 then a % 12 else -((-a) % 12)
  }

  /** `hour % 12 || 12`: the hour on a 12-hour clock. */
  function ClockHour(hour: int): (c: int)
    ensures c != 0
    ensures 0 <= hour ==> 1 <= c <= 12 && c % 12 == hour % 12
  {
    var h := Rem12(hour);
    if h == 0 then 12 else h
  }

  const AM := "AM"
  const PM := "PM"
  const Space := " "

  function Period(hour: int): (r: string)
    ensures r == AM <==> hour < 12
    ensures r == PM <==> hour >= 12
  {
    if hour < 12 then AM else PM
  }

  /** `formatHour`: the clock hour, a space and the period. */
  function FormatHour(hour: int): (r: string)
    ensures 0 <= hour ==> r == Decimal(ClockHour(hour)) + Space + Period(hour)
  {
    NumberText(ClockHour(hour)) + Space + Period(hour)
  }

  /** Reads back a formatted hour: a clock hour from 1 to 12, a space and a period. */
  function ParseClock(s: string): Option<int> {
    if |s| < 3 || s[|s| - 3..|s| - 2] != Space then None
    else
      var period := s[|s| - 2..];
      if period != AM && period != PM then None
      else
        match ParseDecimal(s[..|s| - 3])
        case None => None
        case Some(n) => if 1 <= n <= 12 then Some(n % 12 + (if period == PM then 12 else 0)) else None
  }

  /** Every hour of the day is shown so that it can be read back: the formatted hours of 0..23
      are distinct, midnight is "12 AM" and noon is "12 PM". */
  lemma FormatHourRoundTrip(hour: int)
    requires 0 <= hour < 24
    ensures ParseClock(FormatHour(hour)) == Some(hour)
  {
    var c := ClockHour(hour);
    var s := FormatHour(hour);
    DecimalRoundTrip(c);
    assert s == Decimal(c) + Space + Period(hour);
    assert s[..|s| - 3] == Decimal(c);
    assert s[|s| - 3..|s| - 2] == Space;
    assert s[|s| - 2..] == Period(hour);
  }

  // ---- days ----

  const Days: seq<string> := ["Sunday", "Monday", "Tuesday", "Wednesday", "Thursday", "Friday", "Saturday"]

  /** `getDayName`: 1 is Sunday through 7 Saturday; any other number reads past the array and
      gives `undefined`. */
  function GetDayName(dayOfWeek: int): (r: Option<string>)
    ensures r.Some? <==> 1 <= dayOfWeek <= 7
    ensures r.Some? ==> r.value == Days[dayOfWeek - 1]
  {
    if 1 <= dayOfWeek <= 7 then Some(Days[dayOfWeek - 1]) else None
  }

  /** The position, from 1, of a day name. */
  function DayNumber(name: string): Option<int> {
    IndexFrom(Days, name, 0)
  }

  function IndexFrom(names: seq<string>, name: string, start: nat): (r: Option<int>)
    requires start <= |names|
    ensures r.Some? ==> start < r.value <= |names| && names[r.value - 1] == name
    ensures r.None? ==> forall i :: start <= i < |names| ==> names[i] != name
    decreases |names| - start
  {
    if start == |names| then None
    else if names[start] == name then Some(start + 1)
    else IndexFrom(names, name, start + 1)
  }

  /** The day names tell the days apart: their first two letters already differ. */
  lemma DaysDistinct()
    ensures forall i, j :: 0 <= i < j < |Days| ==> Days[i] != Days[j]
  {
    forall i, j | 0 <= i < j < |Days| ensures Days[i] != Days[j] {
      assert Days[i][0] != Days[j][0] || Days[i][1] != Days[j][1];
    }
  }

  /** The day name gives back the day number. */
  lemma DayNameRoundTrip(dayOfWeek: int)
    requires 1 <= dayOfWeek <= 7
    ensures DayNumber(GetDayName(dayOfWeek).value) == Some(dayOfWeek)
  {
    DaysDistinct();
    var r := DayNumber(Days[dayOfWeek - 1]);
    assert r.Some?;
  }

  // ---- ranking ----

  /** One slot of the aggregation: a platform, an hour and a day of the week, how many posts
      fell in it, and their average engagement. */
  datatype TimeSlot = TimeSlot(platform: string, hour: int, dayOfWeek: int, postCount: int, averageEngagement: real)

  /** `a` ranks at least as high as `b`: higher engagement, or equal engagement and at least as
      many posts. */
  predicate AtLeast(a: TimeSlot, b: TimeSlot) {
    a.averageEngagement > b.averageEngagement
    || (a.averageEngagement == b.averageEngagement && a.postCount >= b.postCount)
  }

  predicate Ranked(s: seq<TimeSlot>) {
    forall i, j :: 0 <= i < j < |s| ==> AtLeast(s[i], s[j])
  }

  /** Puts a slot into a ranked list, after every slot that ranks strictly higher. */
  function Insert(x: TimeSlot, s: seq<TimeSlot>): (r: seq<TimeSlot>)
    ensures multiset(r) == multiset(s) + multiset{x}
  {
    if s == [] || AtLeast(x, s[0]) then
      [x] + s
    else
      assert s == [s[0]] + s[1..];
      [s[0]] + Insert(x, s[1..])
  }

  lemma {:induction false} InsertRanked(x: TimeSlot, s: seq<TimeSlot>)
    requires Ranked(s)
    ensures Ranked(Insert(x, s))
  {
    if s != [] && !AtLeast(x, s[0]) {
      InsertRanked(x, s[1..]);
      var rest := Insert(x, s[1..]);
      forall y <- rest ensures AtLeast(s[0], y) {
        assert y in multiset(rest);
        if y != x {
          assert y in multiset(s[1..]);
          var k :| 0 <= k < |s[1..]| && s[1..][k] == y;
          assert s[k + 1] == y;
        }
      }
      var r := Insert(x, s);
      forall i, j | 0 <= i < j < |r| ensures AtLeast(r[i], r[j]) {
        assert r[j] == rest[j - 1];
        if i > 0 {
          assert r[i] == rest[i - 1];
        }
      }
    }
  }

  /** `$sort: { averageEngagement: -1, postCount: -1 }`: the slots reordered (ties may come in
      any order, as the database does not promise one). */
  function SortSlots(s: seq<TimeSlot>): (r: seq<TimeSlot>)
    ensures multiset(r) == multiset(s)
  {
    if s == [] then []
    else
      assert s == [s[0]] + s[1..];
      Insert(s[0], SortSlots(s[1..]))
  }

  /** The sorted slots are ranked. */
  lemma {:induction false} SortRanked(s: seq<TimeSlot>)
    ensures Ranked(SortSlots(s))
  {
    if s != [] {
      SortRanked(s[1..]);
      InsertRanked(s[0], SortSlots(s[1..]));
    }
  }

  /** The slots of one platform, in their order. */
  function OfPlatform(s: seq<TimeSlot>, platform: string): (r: seq<TimeSlot>)
    ensures forall x <- r :: x.platform == platform
    ensures forall x :: multiset(r)[x] == if x.platform == platform then multiset(s)[x] else 0
  {
    if s == [] then []
    else
      assert s == [s[0]] + s[1..];
      if s[0].platform == platform then [s[0]] + OfPlatform(s[1..], platform) else OfPlatform(s[1..], platform)
  }

  /** Keeping some slots of a ranked list keeps it ranked. */
  lemma {:induction false} OfPlatformRanked(s: seq<TimeSlot>, platform: string)
    requires Ranked(s)
    ensures Ranked(OfPlatform(s, platform))
  {
    if s != [] {
      OfPlatformRanked(s[1..], platform);
      var rest := OfPlatform(s[1..], platform);
      forall y <- rest ensures AtLeast(s[0], y) {
        assert y in multiset(rest);
        var k :| 0 <= k < |s[1..]| && s[1..][k] == y;
        assert s[k + 1] == y;
      }
    }
  }

  /** The slots two lists with the same contents have on a platform are the same, up to order. */
  lemma OfPlatformPermutation(s: seq<TimeSlot>, t: seq<TimeSlot>, platform: string)
    requires multiset(s) == multiset(t)
    ensures multiset(OfPlatform(s, platform)) == multiset(OfPlatform(t, platform))
  {
    var a := multiset(OfPlatform(s, platform));
    var b := multiset(OfPlatform(t, platform));
    assert forall x :: a[x] == b[x];
  }

  const KeptPerPlatform := 3

  /** `$group` after the sort, then `$slice` 3: the best slots of one platform. */
  function BestTimesFor(slots: seq<TimeSlot>, platform: string): seq<TimeSlot> {
    var ranked := OfPlatform(SortSlots(slots), platform);
    if |ranked| <= KeptPerPlatform then ranked else ranked[..KeptPerPlatform]
  }

  /** Cutting a ranked list in two: the front is ranked, the two parts hold the list's slots,
      and everything in the front ranks at least as high as everything in the back. */
  lemma RankedCut(ranked: seq<TimeSlot>, n: nat)
    requires Ranked(ranked) && n <= |ranked|
    ensures Ranked(ranked[..n])
    ensures multiset(ranked[..n]) + multiset(ranked[n..]) == multiset(ranked)
    ensures forall x <- ranked[..n], y <- ranked[n..] :: AtLeast(x, y)
  {
    assert ranked == ranked[..n] + ranked[n..];
    forall x <- ranked[..n], y <- ranked[n..] ensures AtLeast(x, y) {
      var i :| 0 <= i < n && ranked[..n][i] == x;
      var j :| 0 <= j < |ranked[n..]| && ranked[n..][j] == y;
      assert ranked[i] == x && ranked[n + j] == y;
    }
  }

  /** Sorting before filtering ranks a platform's slots without losing or adding any. */
  lemma SortedPlatform(slots: seq<TimeSlot>, platform: string)
    ensures Ranked(OfPlatform(SortSlots(slots), platform))
    ensures multiset(OfPlatform(SortSlots(slots), platform)) == multiset(OfPlatform(slots, platform))
    ensures |OfPlatform(SortSlots(slots), platform)| == |OfPlatform(slots, platform)|
  {
    SortRanked(slots);
    OfPlatformRanked(SortSlots(slots), platform);
    OfPlatformPermutation(SortSlots(slots), slots, platform);
    assert |multiset(OfPlatform(SortSlots(slots), platform))| == |multiset(OfPlatform(slots, platform))|;
  }

  /** At most three slots are kept for a platform, all of that platform and ranked; they are
      the platform's slots, all of them when there are no more than three; and every slot of the
      platform left out ranks no higher than any kept one. */
  lemma TopThree(slots: seq<TimeSlot>, platform: string)
    ensures KeepsBest(BestTimesFor(slots, platform), OfPlatform(slots, platform), platform)
  {
    SortedPlatform(slots, platform);
    KeepFront(OfPlatform(SortSlots(slots), platform), OfPlatform(slots, platform), platform);
  }

  /** `kept` holds the best of `all`, up to three of them, all of `platform`. */
  ghost predicate KeepsBest(kept: seq<TimeSlot>, all: seq<TimeSlot>, platform: string) {
    && |kept| == (if |all| <= KeptPerPlatform then |all| else KeptPerPlatform)
    && Ranked(kept)
    && (forall x <- kept :: x.platform == platform)
    && exists dropped: seq<TimeSlot> ::
         && multiset(kept) + multiset(dropped) == multiset(all)
         && forall x <- kept, y <- dropped :: AtLeast(x, y)
  }

  /** Keeping the front of a ranked list of one platform's slots keeps the best of them. */
  lemma KeepFront(ranked: seq<TimeSlot>, all: seq<TimeSlot>, platform: string)
    requires Ranked(ranked) && multiset(ranked) == multiset(all) && |ranked| == |all|
    requires forall x <- ranked :: x.platform == platform
    ensures KeepsBest(if |ranked| <= KeptPerPlatform then ranked else ranked[..KeptPerPlatform], all, platform)
  {
    var n := if |ranked| <= KeptPerPlatform then |ranked| else KeptPerPlatform;
    assert ranked[..n] == if |ranked| <= KeptPerPlatform then ranked else ranked[..KeptPerPlatform];
    RankedCut(ranked, n);
    var dropped := ranked[n..];
    assert forall x <- ranked[..n] :: x in ranked;
    assert multiset(ranked[..n]) + multiset(dropped) == multiset(all);
  }

  /** The database answer: for every platform with slots, its best times. */
  function BestPostingTimes(slots: seq<TimeSlot>): (r: map<string, seq<TimeSlot>>)
    ensures r.Keys == set x <- slots :: x.platform
    ensures forall p <- r.Keys :: r[p] == BestTimesFor(slots, p)
  {
    map p | p in (set x <- slots :: x.platform) :: BestTimesFor(slots, p)
  }

  /** Every platform of the answer gets the best of its own slots, as `TopThree` states. */
  lemma BestPostingTimesKeepBest(slots: seq<TimeSlot>)
    ensures var r := BestPostingTimes(slots);
      forall p <- r.Keys :: KeepsBest(r[p], OfPlatform(slots, p), p)
  {
    var r := BestPostingTimes(slots);
    forall p | p in r.Keys
      ensures KeepsBest(r[p], OfPlatform(slots, p), p)
    {
      TopThree(slots, p);
    }
  }

  // ---- formatting ----

  /** One group of the answer, in the order the database returns the groups. */
  datatype PlatformTimes = PlatformTimes(platform: string, bestTimes: seq<TimeSlot>)

  datatype FormattedTime = FormattedTime(day: Option<string>, hour: string, postCount: int, averageEngagement: real)

  datatype FormattedPlatform = FormattedPlatform(platform: string, bestTimes: seq<FormattedTime>)

  function FormatTime(t: TimeSlot): FormattedTime {
    FormattedTime(GetDayName(t.dayOfWeek), FormatHour(t.hour), t.postCount, t.averageEngagement)
  }

  /** `formattedData`: one entry per group, in order, each time formatted in place. */
  function FormatBestTimes(groups: seq<PlatformTimes>): (r: seq<FormattedPlatform>)
    ensures |r| == |groups|
    ensures forall i :: 0 <= i < |groups| ==>
      && r[i].platform == groups[i].platform
      && |r[i].bestTimes| == |groups[i].bestTimes|
      && forall j :: 0 <= j < |groups[i].bestTimes| ==> r[i].bestTimes[j] == FormatTime(groups[i].bestTimes[j])
  {
    seq(|groups|, i requires 0 <= i < |groups| =>
      FormattedPlatform(groups[i].platform,
        seq(|groups[i].bestTimes|, j requires 0 <= j < |groups[i].bestTimes| => FormatTime(groups[i].bestTimes[j]))))
  }

  /** Formatting loses nothing for a slot of a real day and hour: the day number and the hour
      can be read back from what is shown, and the counts are copied. */
  lemma FormatTimeRecoverable(t: TimeSlot)
    requires 1 <= t.dayOfWeek <= 7 && 0 <= t.hour < 24
    ensures var f := FormatTime(t);
      && f.day.Some? && DayNumber(f.day.value) == Some(t.dayOfWeek)
      && ParseClock(f.hour) == Some(t.hour)
      && f.postCount == t.postCount && f.averageEngagement == t.averageEngagement
  {
    DayNameRoundTrip(t.dayOfWeek);
    FormatHourRoundTrip(t.hour);
  }
}
