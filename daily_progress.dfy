/** The `useDailyProgress` hook: a per-day practice counter keyed by a local
    `YYYY-MM-DD` date string, the fields mirroring today's entry, and the
    storage slot the whole map is written back to. */
module DailyProgress {
  import opened Decimal

  /** Correct answers a day needs before its entry is stamped. */
  const DAILY_GOAL: int := 10

  datatype DailyData = DailyData(count: int, stamped: bool)

  type ProgressData = map<string, DailyData>

  // ---------------------------------------------------------------------------
  // Date keys

  /** `String(n).padStart(2, '0')`. */
  function Pad2(n: nat): (s: string)
    ensures AllDigits(s) && DecimalValue(s) == n
    ensures 1 <= n <= 99 ==> |s| == 2
  {
    var digits := ToDecimal(n);
    DecimalRoundTrip(n);
    ZeroPaddingKeepsValue(digits, 2);
    assert 1 <= n <= 99 ==> |digits| <= 2 by {
      if 1 <= n <= 99 { DecimalLength(n, 2); }
    }
    PadStart(digits, 2, '0')
  }

  /** `${year}-${pad(month)}-${pad(day)}` with a 1-based month. For a month
      and day below 100, whatever the year, the key is the year's digits followed by `-MM-DD`,
      and the two fields read back as the month and the day. */
  function DateKey(year: nat, month: nat, day: nat): (s: string)
    ensures 1 <= month <= 99 && 1 <= day <= 99 ==>
      |s| == |ToDecimal(year)| + 6 && s[..|s| - 6] == ToDecimal(year) &&
      s[|s| - 6] == '-' && s[|s| - 3] == '-' &&
      AllDigits(s[|s| - 5..|s| - 3]) && DecimalValue(s[|s| - 5..|s| - 3]) == month &&
      AllDigits(s[|s| - 2..]) && DecimalValue(s[|s| - 2..]) == day
  {
    var y, m, d := ToDecimal(year), Pad2(month), Pad2(day);
    assert 1 <= month <= 99 && 1 <= day <= 99 ==> |m| == 2 && |d| == 2;
    JoinedSuffix(y, m, d);
    y + "-" + m + "-" + d
  }

  /** Where the year, month and day fields sit in a joined key with two-character month and day. */
  lemma JoinedSuffix(y: string, m: string, d: string)
    ensures var s := y + "-" + m + "-" + d;
      |s| == |y| + |m| + |d| + 2 &&
      (|m| == 2 && |d| == 2 ==>
         s[..|s| - 6] == y && s[|s| - 6] == '-' && s[|s| - 3] == '-' &&
         s[|s| - 5..|s| - 3] == m && s[|s| - 2..] == d)
  {
    var s := y + "-" + m + "-" + d;
    if |m| == 2 && |d| == 2 {
      assert s[..|s| - 6] == y;
      assert s[|s| - 5..|s| - 3] == m;
      assert s[|s| - 2..] == d;
    }
  }

  /** `getTodayString()` for a clock reading whose local `getFullYear()`,
      `getMonth()` (0-based) and `getDate()` are given: for a four-digit year it
      is a ten-character key that reads back with the month counted from 1. */
  function TodayString(year: nat, monthIndex: nat, date: nat): (s: string)
    ensures 1000 <= year <= 9999 && monthIndex < 12 && 1 <= date <= 31 ==>
      |s| == 10 && ParseDateKey(s) == Some((year, monthIndex + 1, date))
  {
    assert 1000 <= year <= 9999 && monthIndex < 12 && 1 <= date <= 31 ==>
      |DateKey(year, monthIndex + 1, date)| == 10 &&
      ParseDateKey(DateKey(year, monthIndex + 1, date)) == Some((year, monthIndex + 1, date)) by {
      if 1000 <= year <= 9999 && monthIndex < 12 && 1 <= date <= 31 {
        DateKeyRoundTrip(year, monthIndex + 1, date);
      }
    }
    DateKey(year, monthIndex + 1, date)
  }

  /** Reads a `YYYY-MM-DD` key back into year, month and day. */
  function ParseDateKey(s: string): Option<(nat, nat, nat)> {
    if |s| == 10 && s[4] == '-' && s[7] == '-' &&
       AllDigits(s[..4]) && AllDigits(s[5..7]) && AllDigits(s[8..])
    then Some((DecimalValue(s[..4]), DecimalValue(s[5..7]), DecimalValue(s[8..])))
    else None
  }

  lemma {:induction false} LeadingZeroKeepsValue(s: string)
    requires AllDigits(s)
    ensures AllDigits(['0'] + s) && DecimalValue(['0'] + s) == DecimalValue(s)
    decreases |s|
  {
    var t := ['0'] + s;
    if s != [] {
      assert t[..|t| - 1] == ['0'] + s[..|s| - 1];
      LeadingZeroKeepsValue(s[..|s| - 1]);
    } else {
      assert t[..0] == [];
    }
  }

  lemma {:induction false} ZeroPaddingKeepsValue(s: string, width: nat)
    requires AllDigits(s)
    ensures AllDigits(PadStart(s, width, '0'))
    ensures DecimalValue(PadStart(s, width, '0')) == DecimalValue(s)
    decreases width - |s|
  {
    if |s| < width {
      LeadingZeroKeepsValue(s);
      ZeroPaddingKeepsValue(['0'] + s, width);
      assert PadStart(s, width, '0') == PadStart(['0'] + s, width, '0');
    }
  }

  /** The three fields of a key made of a 4-digit year and two 2-digit parts read back. */
  lemma ParseJoinedKey(y: string, m: string, d: string)
    requires |y| == 4 && |m| == 2 && |d| == 2 && AllDigits(y) && AllDigits(m) && AllDigits(d)
    ensures |y + "-" + m + "-" + d| == 10
    ensures ParseDateKey(y + "-" + m + "-" + d) == Some((DecimalValue(y), DecimalValue(m), DecimalValue(d)))
  {
    var key := y + "-" + m + "-" + d;
    assert key[..4] == y && key[5..7] == m && key[8..] == d;
    assert key[4] == '-' && key[7] == '-';
  }

  /** A key for a four-digit year and a month and day below 100 is ten
      characters long and reads back to the same date. */
  lemma DateKeyRoundTrip(year: nat, month: nat, day: nat)
    requires 1000 <= year <= 9999 && 1 <= month <= 99 && 1 <= day <= 99
    ensures |DateKey(year, month, day)| == 10
    ensures ParseDateKey(DateKey(year, month, day)) == Some((year, month, day))
  {
    DecimalLength(year, 4);
    DecimalRoundTrip(year);
    ParseJoinedKey(ToDecimal(year), Pad2(month), Pad2(day));
  }

  /** Different dates get different keys. */
  lemma DateKeyInjective(y1: nat, m1: nat, d1: nat, y2: nat, m2: nat, d2: nat)
    requires 1000 <= y1 <= 9999 && 1 <= m1 <= 99 && 1 <= d1 <= 99
    requires 1000 <= y2 <= 9999 && 1 <= m2 <= 99 && 1 <= d2 <= 99
    requires (y1, m1, d1) != (y2, m2, d2)
    ensures DateKey(y1, m1, d1) != DateKey(y2, m2, d2)
  {
    DateKeyRoundTrip(y1, m1, d1);
    DateKeyRoundTrip(y2, m2, d2);
  }

  // ---------------------------------------------------------------------------
  // The progress map and one increment

  /** `prev[today] || { count: 0, stamped: false }`. */
  function Entry(progress: ProgressData, key: string): (d: DailyData)
    ensures key !in progress ==> d == DailyData(0, false)
    ensures key in progress ==> d == progress[key]
  {
    if key in progress then progress[key] else DailyData(0, false)
  }

  /** The map `incrementProgress` builds for `today`. */
  function Incremented(progress: ProgressData, today: string): (r: ProgressData)
    ensures r.Keys == progress.Keys + {today}
    ensures Entry(r, today).count == Entry(progress, today).count + 1
    ensures Entry(r, today).stamped <==>
              Entry(progress, today).stamped || Entry(r, today).count >= DAILY_GOAL
    ensures forall k :: k in progress && k != today ==> r[k] == progress[k]
  {
    var current := Entry(progress, today);
    var newCount := current.count + 1;
    var newStamped := current.stamped || newCount >= DAILY_GOAL;
    progress[today := DailyData(newCount, newStamped)]
  }

  /** `n` increments on the same day. */
  function IncrementedTimes(progress: ProgressData, today: string, n: nat): ProgressData
    decreases n
  {
    if n == 0 then progress else Incremented(IncrementedTimes(progress, today, n - 1), today)
  }

  /** After `n` increments today's count has risen by exactly `n`, and today is
      stamped iff it already was or the count has reached the goal. */
  lemma {:induction false} IncrementedTimesToday(progress: ProgressData, today: string, n: nat)
    ensures Entry(IncrementedTimes(progress, today, n), today).count == Entry(progress, today).count + n
    ensures Entry(IncrementedTimes(progress, today, n), today).stamped <==>
              Entry(progress, today).stamped || (n > 0 && Entry(progress, today).count + n >= DAILY_GOAL)
    decreases n
  {
    if n > 0 {
      IncrementedTimesToday(progress, today, n - 1);
    }
  }

  /** Increments on one day leave every other day's entry, present or absent, as it was. */
  lemma {:induction false} IncrementedTimesOtherDays(progress: ProgressData, today: string, n: nat, k: string)
    requires k != today
    ensures k in IncrementedTimes(progress, today, n) <==> k in progress
    ensures k in progress ==> IncrementedTimes(progress, today, n)[k] == progress[k]
    decreases n
  {
    if n > 0 {
      IncrementedTimesOtherDays(progress, today, n - 1, k);
    }
  }

  /** From a day with no entry, `n` increments give count `n`, stamped iff `n >= 10`. */
  lemma FreshDayAfterIncrements(progress: ProgressData, today: string, n: nat)
    requires today !in progress
    ensures Entry(IncrementedTimes(progress, today, n), today) == DailyData(n, n >= DAILY_GOAL)
  {
    IncrementedTimesToday(progress, today, n);
  }

  /** A stamp, once given, stays. */
  lemma {:induction false} StampIsSticky(progress: ProgressData, today: string, n: nat)
    requires Entry(progress, today).stamped
    ensures Entry(IncrementedTimes(progress, today, n), today).stamped
  {
    IncrementedTimesToday(progress, today, n);
  }

  /** Every entry's stamp agrees with its count reaching the goal. */
  predicate Consistent(progress: ProgressData) {
    forall k :: k in progress ==> (progress[k].stamped <==> progress[k].count >= DAILY_GOAL)
  }

  /** Increments keep a consistent map consistent: the stored flag never
      disagrees with the count when the map starts out agreeing. */
  lemma IncrementKeepsConsistent(progress: ProgressData, today: string)
    requires Consistent(progress)
    ensures Consistent(Incremented(progress, today))
  {
    var r := Incremented(progress, today);
    forall k | k in r ensures r[k].stamped <==> r[k].count >= DAILY_GOAL {
      if k == today {
        assert r[k] == Entry(r, today);
      }
    }
  }

  // ---------------------------------------------------------------------------
  // One instance of the hook

  class Ledger {
    var progress: ProgressData
    var todayCount: int
    var todayStamped: bool
    /** The storage slot `math-app-daily-progress`: `None` when nothing has been written to it. */
    var storage: Option<ProgressData>

    /** The today fields mirror the map's entry for `today`. */
    predicate TodayInSync(today: string)
      reads this
    {
      todayCount == Entry(progress, today).count && todayStamped == Entry(progress, today).stamped
    }

    /** The first render: an empty map and zeroed today fields, over whatever storage holds. */
    constructor (storage: Option<ProgressData>)
      ensures progress == map[] && todayCount == 0 && !todayStamped
      ensures this.storage == storage
    {
      progress := map[];
      todayCount := 0;
      todayStamped := false;
      this.storage := storage;
    }

    /** The mount effect. `today` is what `getTodayString()` returns at that
        moment (`TodayString` of the clock reading); `parses` is false when the
        stored text is not valid JSON. */
    method Load(today: string, parses: bool)
      modifies this
      ensures storage == old(storage)
      ensures old(storage).Some? && parses ==>
        progress == old(storage).value &&
        if today in progress then todayCount == progress[today].count && todayStamped == progress[today].stamped
        else todayCount == old(todayCount) && todayStamped == old(todayStamped)
      ensures !(old(storage).Some? && parses) ==>
        progress == old(progress) && todayCount == old(todayCount) && todayStamped == old(todayStamped)
      ensures old(progress) == map[] && old(todayCount) == 0 && !old(todayStamped) ==> TodayInSync(today)
    {
      if storage.Some? && parses {
        var parsed := storage.value;
        progress := parsed;
        if today in parsed {
          todayCount := parsed[today].count;
          todayStamped := parsed[today].stamped;
        }
      }
    }

    /** `incrementProgress`, with `today` the key `getTodayString()` returns:
        bump today's entry, mirror it in the today fields and write the whole
        map to storage. */
    method IncrementProgress(today: string)
      modifies this
      ensures progress == Incremented(old(progress), today)
      ensures TodayInSync(today)
      ensures storage == Some(progress)
    {
      var current := if today in progress then progress[today] else DailyData(0, false);
      var newCount := current.count + 1;
      var newStamped := current.stamped || newCount >= DAILY_GOAL;
      var newData := progress[today := DailyData(newCount, newStamped)];
      todayCount := newCount;
      todayStamped := newStamped;
      storage := Some(newData);
      progress := newData;
    }
  }

  /** A second instance of the hook mounting over the same storage (the app
      and the home screen each hold one): after an increment has written the
      map, the new instance loads exactly that map, with today's fields in step. */
  method Remount(ledger: Ledger, today: string) returns (other: Ledger)
    requires ledger.storage == Some(ledger.progress)
    ensures fresh(other)
    ensures other.progress == ledger.progress && other.storage == ledger.storage
    ensures other.TodayInSync(today)
  {
    other := new Ledger(ledger.storage);
    other.Load(today, true);
  }
}
