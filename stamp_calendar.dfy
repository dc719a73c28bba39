/** What `StampCalendar` derives from the progress map: the stamp tier and the
    cell shown for each day of the month, the goal banner, and the layout of
    the month grid. */
module StampCalendar {
  import opened Decimal
  import opened DailyProgress

  datatype Tier = NoStamp | Bronze | Silver | Gold

  function TierRank(t: Tier): nat {
    match t
    case NoStamp => 0
    case Bronze => 1
    case Silver => 2
    case Gold => 3
  }

  function Min(x: int, y: int): int { if x <= y then x else y }

  /** The stamp variant for a day's count: gold from 30, silver from 20,
      bronze from 10, none below. Its rank is the number of whole tens,
      capped at three. */
  function StampTier(count: int): (t: Tier)
    ensures TierRank(t) == if count < 0 then 0 else Min(count / 10, 3)
  {
    if count >= 30 then Gold
    else if count >= 20 then Silver
    else if count >= 10 then Bronze
    else NoStamp
  }

  /** A larger count never earns a lower stamp. */
  lemma StampTierMonotone(c1: int, c2: int)
    requires c1 <= c2
    ensures TierRank(StampTier(c1)) <= TierRank(StampTier(c2))
  {
    if c1 >= 0 {
      assert c1 / 10 <= c2 / 10;
    }
  }

  /** What a day's cell shows besides its date number. */
  datatype Cell = Stamp(tier: Tier) | RawCount(n: int) | Blank

  /** A stamp when the count earns one, else the count itself when positive, else nothing. */
  function CellFor(count: int): (c: Cell)
    ensures count <= 0 ==> c == Blank
    ensures 1 <= count <= 9 ==> c == RawCount(count)
    ensures count >= 10 ==> c.Stamp? && c.tier != NoStamp && c.tier == StampTier(count)
  {
    var tier := StampTier(count);
    if tier != NoStamp then Stamp(tier)
    else if count > 0 then RawCount(count)
    else Blank
  }

  /** The key `getDayData` looks up, for the 0-based month being shown: for a
      four-digit year it reads back as that date with the month counted from 1. */
  function DayKey(year: nat, monthIndex: nat, day: nat): (k: string)
    ensures 1000 <= year <= 9999 && monthIndex < 12 && 1 <= day <= 31 ==>
      ParseDateKey(k) == Some((year, monthIndex + 1, day))
  {
    var k := ToDecimal(year) + "-" + Pad2(monthIndex + 1) + "-" + Pad2(day);
    assert k == DateKey(year, monthIndex + 1, day);
    assert 1000 <= year <= 9999 && monthIndex < 12 && 1 <= day <= 31 ==>
      ParseDateKey(k) == Some((year, monthIndex + 1, day)) by {
      if 1000 <= year <= 9999 && monthIndex < 12 && 1 <= day <= 31 {
        DateKeyRoundTrip(year, monthIndex + 1, day);
      }
    }
    k
  }

  /** `data?.count || 0`. */
  function DayCount(progress: ProgressData, key: string): (n: int)
    ensures key !in progress ==> n == 0
    ensures key in progress ==> n == progress[key].count
  {
    if key in progress then progress[key].count else 0
  }

  function DayCell(progress: ProgressData, year: nat, monthIndex: nat, day: nat): Cell {
    CellFor(DayCount(progress, DayKey(year, monthIndex, day)))
  }

  /** Increments under one key leave the count read under any other key as it was. */
  lemma CountElsewhereUnchanged(progress: ProgressData, today: string, n: nat, key: string)
    requires key != today
    ensures DayCount(IncrementedTimes(progress, today, n), key) == DayCount(progress, key)
  {
    IncrementedTimesOtherDays(progress, today, n, key);
  }

  /** The calendar reads the entry the hook writes: both build the same key. */
  lemma DayKeyIsTodayString(year: nat, monthIndex: nat, day: nat)
    ensures DayKey(year, monthIndex, day) == TodayString(year, monthIndex, day)
  {
  }

  /** A day with no entry shows nothing. */
  lemma MissingDayIsBlank(progress: ProgressData, year: nat, monthIndex: nat, day: nat)
    requires DayKey(year, monthIndex, day) !in progress
    ensures DayCell(progress, year, monthIndex, day) == Blank
  {
  }

  /** The cell depends on the stored count alone; the stored `stamped` flag is never read. */
  lemma CellIgnoresStampedFlag(p1: ProgressData, p2: ProgressData, year: nat, monthIndex: nat, day: nat)
    requires var key := DayKey(year, monthIndex, day);
      (key in p1 <==> key in p2) && (key in p1 ==> p1[key].count == p2[key].count)
    ensures DayCell(p1, year, monthIndex, day) == DayCell(p2, year, monthIndex, day)
  {
  }

  /** `todayCount >= dailyGoal`: the banner under the progress bar. With the
      hook's goal it shows exactly when today's count earns a stamp tier. */
  predicate GoalMet(todayCount: int, dailyGoal: int)
    ensures dailyGoal == DAILY_GOAL ==> (GoalMet(todayCount, dailyGoal) <==> StampTier(todayCount) != NoStamp)
  {
    todayCount >= dailyGoal
  }

  /** On a day that starts without an entry, the banner for today's count
      appears exactly when the hook has stamped the day. */
  lemma GoalBannerMatchesStamp(progress: ProgressData, today: string, n: nat)
    requires today !in progress
    ensures var entry := Entry(IncrementedTimes(progress, today, n), today);
      GoalMet(entry.count, DAILY_GOAL) <==> entry.stamped
    ensures GoalMet(Entry(IncrementedTimes(progress, today, n), today).count, DAILY_GOAL) <==> n >= 10
  {
    FreshDayAfterIncrements(progress, today, n);
  }

  /** A day that starts without an entry and gets `n` correct answers shows the
      count `n` while below ten, then the stamp its tier earns. */
  lemma DayAfterIncrements(progress: ProgressData, year: nat, monthIndex: nat, day: nat, n: nat)
    requires TodayString(year, monthIndex, day) !in progress
    ensures DayCell(IncrementedTimes(progress, TodayString(year, monthIndex, day), n), year, monthIndex, day)
         == CellFor(n)
    ensures n < 10 ==> StampTier(n) == NoStamp
    ensures 10 <= n < 20 ==> StampTier(n) == Bronze
    ensures 20 <= n < 30 ==> StampTier(n) == Silver
    ensures 30 <= n ==> StampTier(n) == Gold
  {
    var key := TodayString(year, monthIndex, day);
    FreshDayAfterIncrements(progress, key, n);
    DayKeyIsTodayString(year, monthIndex, day);
  }

  /** Two different days of the shown month are looked up under different keys. */
  lemma DayKeysDiffer(year: nat, monthIndex: nat, today: nat, day: nat)
    requires 1000 <= year <= 9999 && monthIndex < 12 && 1 <= today <= 31 && 1 <= day <= 31
    requires day != today
    ensures DayKey(year, monthIndex, day) != TodayString(year, monthIndex, today)
  {
    DayKeyIsTodayString(year, monthIndex, day);
    DateKeyInjective(year, monthIndex + 1, day, year, monthIndex + 1, today);
  }

  /** Answers recorded today leave every other day of the month showing what it showed. */
  lemma OtherDaysUnchanged(progress: ProgressData, year: nat, monthIndex: nat, today: nat, day: nat, n: nat)
    requires 1000 <= year <= 9999 && monthIndex < 12 && 1 <= today <= 31 && 1 <= day <= 31
    requires day != today
    ensures DayCell(IncrementedTimes(progress, TodayString(year, monthIndex, today), n), year, monthIndex, day)
         == DayCell(progress, year, monthIndex, day)
  {
    var key := DayKey(year, monthIndex, day);
    var todayKey := TodayString(year, monthIndex, today);
    DayKeysDiffer(year, monthIndex, today, day);
    var after := IncrementedTimes(progress, todayKey, n);
    CountElsewhereUnchanged(progress, todayKey, n, key);
    assert DayCell(after, year, monthIndex, day) == CellFor(DayCount(after, key));
  }

  // ---------------------------------------------------------------------------
  // The month grid: seven columns, leading blanks, then the days

  datatype Slot = Empty | Day(day: int)

  /** `Array.from({ length: firstDayOfWeek })`. */
  function Blanks(firstDayOfWeek: nat): (r: seq<Slot>)
    ensures |r| == firstDayOfWeek && forall i :: 0 <= i < |r| ==> r[i] == Empty
  {
    seq(firstDayOfWeek, i => Empty)
  }

  /** `Array.from({ length: daysInMonth }, (_, i) => i + 1)`: one entry per day,
      each a day of the month. */
  function Days(daysInMonth: nat): (r: seq<int>)
    ensures |r| == daysInMonth && forall i :: 0 <= i < |r| ==> 1 <= r[i] <= daysInMonth
  {
    seq(daysInMonth, i => i + 1)
  }

  /** The days run 1..daysInMonth, each once, in increasing order. */
  lemma DaysAreTheMonth(daysInMonth: nat)
    ensures |Days(daysInMonth)| == daysInMonth
    ensures forall i, j :: 0 <= i < j < daysInMonth ==> Days(daysInMonth)[i] < Days(daysInMonth)[j]
    ensures forall d :: 1 <= d <= daysInMonth <==> d in Days(daysInMonth)
  {
    var days := Days(daysInMonth);
    forall d | 1 <= d <= daysInMonth ensures d in days {
      assert days[d - 1] == d;
    }
  }

  /** The grid's slots in reading order: the blanks, then one slot per day. */
  function Grid(firstDayOfWeek: nat, daysInMonth: nat): (g: seq<Slot>)
    ensures |g| == firstDayOfWeek + daysInMonth
    ensures forall i :: 0 <= i < firstDayOfWeek ==> g[i] == Empty
    ensures forall d :: 1 <= d <= daysInMonth ==> g[firstDayOfWeek + d - 1] == Day(d)
  {
    var daySlots := seq(daysInMonth, i requires 0 <= i < daysInMonth => Day(Days(daysInMonth)[i]));
    var g := Blanks(firstDayOfWeek) + daySlots;
    assert forall d :: 1 <= d <= daysInMonth ==> g[firstDayOfWeek + d - 1] == Day(d) by {
      forall d | 1 <= d <= daysInMonth ensures g[firstDayOfWeek + d - 1] == Day(d) {
        assert g[firstDayOfWeek + d - 1] == daySlots[d - 1];
        assert Days(daysInMonth)[d - 1] == d;
      }
    }
    g
  }

  /** With seven columns starting on Sunday, day `d` sits under weekday
      `(firstDayOfWeek + d - 1) % 7`, so day 1 sits under the month's first weekday. */
  lemma DayColumn(firstDayOfWeek: nat, daysInMonth: nat, d: int)
    requires 1 <= d <= daysInMonth
    ensures exists i ::
              0 <= i < |Grid(firstDayOfWeek, daysInMonth)| &&
              Grid(firstDayOfWeek, daysInMonth)[i] == Day(d) && i % 7 == (firstDayOfWeek + d - 1) % 7
    ensures d == 1 ==> Grid(firstDayOfWeek, daysInMonth)[firstDayOfWeek] == Day(1)
  {
    var i := firstDayOfWeek + d - 1;
    assert Grid(firstDayOfWeek, daysInMonth)[i] == Day(d);
  }
}
