/** The archive of past conversations (internal/secretary/memory.go): one file per user and local day, of
    which only those that a query's period needs are opened. The local calendar is a parameter. */
module MemoryPartition {
  import opened Common
  import opened DayFiles
  import Sorting

  /** Nanoseconds; 0 is the zero time, 1 January of the year 1. */
  type Instant = int

  const MEMORY_RESULT_LIMIT := 8

  // ----- the calendar -----

  /** Days are numbered from 1 January of the year 1, a Monday. */
  datatype Calendar = Calendar(midnight: int -> Instant, day: Instant -> int, addDays: (Instant, int) -> Instant)

  /** Days follow each other and have no gaps; adding days keeps the midnight, and need not keep any other
      time of the day, such as one that the change to summer time skips. */
  ghost predicate IsCalendar(cal: Calendar) {
    && (forall d, e :: d < e ==> cal.midnight(d) < cal.midnight(e))
    && (forall t :: cal.midnight(cal.day(t)) <= t < cal.midnight(cal.day(t) + 1))
    && (forall t, n :: cal.day(cal.addDays(t, n)) == cal.day(t) + n)
    && (forall d, n :: cal.addDays(cal.midnight(d), n) == cal.midnight(d + n))
  }

  const NANOSECONDS_PER_DAY := 86_400_000_000_000

  const UTC := Calendar((d: int) => d * NANOSECONDS_PER_DAY,
                        (t: Instant) => t / NANOSECONDS_PER_DAY,
                        (t: Instant, n: int) => t + n * NANOSECONDS_PER_DAY)

  lemma UtcIsCalendar()
    ensures IsCalendar(UTC)
  {
  }

  lemma InDay(cal: Calendar, t: Instant)
    requires IsCalendar(cal)
    ensures cal.midnight(cal.day(t)) <= t < cal.midnight(cal.day(t) + 1)
  {
  }

  lemma DayAdded(cal: Calendar, t: Instant, n: int)
    requires IsCalendar(cal)
    ensures cal.day(cal.addDays(t, n)) == cal.day(t) + n
  {
  }

  lemma MidnightAdded(cal: Calendar, d: int, n: int)
    requires IsCalendar(cal)
    ensures cal.addDays(cal.midnight(d), n) == cal.midnight(d + n)
  {
  }

  lemma MidnightsAscend(cal: Calendar, d: int, e: int)
    requires IsCalendar(cal) && d < e
    ensures cal.midnight(d) < cal.midnight(e)
  {
  }

  lemma DaysAscend(cal: Calendar, t: Instant, u: Instant)
    requires IsCalendar(cal) && t <= u
    ensures cal.day(t) <= cal.day(u)
  {
    InDay(cal, t);
    InDay(cal, u);
    if cal.day(u) + 1 < cal.day(t) {
      MidnightsAscend(cal, cal.day(u) + 1, cal.day(t));
    }
  }

  lemma DayOfMidnight(cal: Calendar, d: int)
    requires IsCalendar(cal)
    ensures cal.day(cal.midnight(d)) == d
  {
    var t := cal.midnight(d);
    InDay(cal, t);
    if cal.day(t) < d {
      MidnightsAscend(cal, cal.day(t), d);
      if cal.day(t) + 1 < d {
        MidnightsAscend(cal, cal.day(t) + 1, d);
      }
    } else if d < cal.day(t) {
      MidnightsAscend(cal, d, cal.day(t));
    }
  }

  // ----- the period of a query -----

  datatype Period = Period(start: Instant, end: Instant)

  datatype Phrase = LastWeek | ThisWeek | LastSevenDays | Yesterday | Today | NoPhrase

  /** `says` tells whether the query contains a phrase; the first one that it does decides. */
  function PhraseOf(says: string -> bool): Phrase {
    if says("semana pasada") || says("semana anterior") then LastWeek
    else if says("esta semana") then ThisWeek
    else if says("ultimos 7 dias") || says("ultima semana") then LastSevenDays
    else if says("ayer") then Yesterday
    else if says("hoy") || says("esta manana") then Today
    else NoPhrase
  }

  /** `weekAgo` is seven days before `now`, in its own zone. */
  function MemoryDateRange(cal: Calendar, says: string -> bool, now: Instant, weekAgo: Instant): Period {
    var today := cal.midnight(cal.day(now));
    var thisMonday := cal.addDays(today, -(cal.day(now) % 7));
    match PhraseOf(says)
    case LastWeek => Period(cal.addDays(thisMonday, -7), thisMonday)
    case ThisWeek => Period(thisMonday, now)
    case LastSevenDays => Period(weekAgo, now)
    case Yesterday => Period(cal.addDays(today, -1), today)
    case Today => Period(today, now)
    case NoPhrase => Period(cal.addDays(today, -29), now)
  }

  /** The phrases, in the order in which they decide. */
  lemma PhrasesDecide(says: string -> bool)
    ensures PhraseOf(says) == LastWeek <==> says("semana pasada") || says("semana anterior")
    ensures PhraseOf(says) == ThisWeek <==>
              says("esta semana") && !says("semana pasada") && !says("semana anterior")
    ensures PhraseOf(says) == LastSevenDays <==>
              && (says("ultimos 7 dias") || says("ultima semana"))
              && !says("semana pasada") && !says("semana anterior") && !says("esta semana")
    ensures PhraseOf(says) == Yesterday ==> says("ayer")
    ensures PhraseOf(says) == Today ==> (says("hoy") || says("esta manana")) && !says("ayer")
    ensures PhraseOf(says) == NoPhrase ==> !says("ayer") && !says("hoy") && !says("esta manana")
  {
  }

  // ----- the partitions that are opened -----

  /** Day by day from `t`, at its time of the day, as long as that is not after `last`. */
  ghost function Opened(cal: Calendar, t: Instant, last: Instant): seq<int>
    requires IsCalendar(cal)
    decreases cal.day(last) - cal.day(t) + 1
  {
    if t > last then []
    else
      DaysAscend(cal, t, last);
      DayAdded(cal, t, 1);
      [cal.day(t)] + Opened(cal, cal.addDays(t, 1), last)
  }

  ghost function OpenedFor(cal: Calendar, period: Period): seq<int>
    requires IsCalendar(cal)
  {
    Opened(cal, period.start, period.end - 1)
  }

  method PartitionDays(cal: Calendar, period: Period) returns (days: seq<int>)
    requires IsCalendar(cal)
    ensures days == OpenedFor(cal, period)
  {
    hide IsCalendar;
    days := [];
    var lastDay := period.end - 1;
    var day := period.start;
    while day <= lastDay
      invariant days + Opened(cal, day, lastDay) == OpenedFor(cal, period)
      decreases cal.day(lastDay) - cal.day(day) + 1
    {
      DaysAscend(cal, day, lastDay);
      DayAdded(cal, day, 1);
      assert days + [cal.day(day)] + Opened(cal, cal.addDays(day, 1), lastDay)
          == days + ([cal.day(day)] + Opened(cal, cal.addDays(day, 1), lastDay));
      days := days + [cal.day(day)];
      day := cal.addDays(day, 1);
    }
  }

  /** `n` days after `t`, one at a time. */
  function Steps(cal: Calendar, t: Instant, n: nat): Instant
    decreases n
  {
    if n == 0 then t else Steps(cal, cal.addDays(t, 1), n - 1)
  }

  lemma {:induction false} DayOfSteps(cal: Calendar, t: Instant, n: nat)
    requires IsCalendar(cal)
    ensures cal.day(Steps(cal, t, n)) == cal.day(t) + n
    decreases n
  {
    hide IsCalendar;
    if n > 0 {
      DayAdded(cal, t, 1);
      DayOfSteps(cal, cal.addDays(t, 1), n - 1);
    }
  }

  lemma {:induction false} StepsFromMidnight(cal: Calendar, d: int, n: nat)
    requires IsCalendar(cal)
    ensures Steps(cal, cal.midnight(d), n) == cal.midnight(d + n)
    decreases n
  {
    hide IsCalendar;
    if n > 0 {
      MidnightAdded(cal, d, 1);
      StepsFromMidnight(cal, d + 1, n - 1);
    }
  }

  /** All days up to the last one are opened; the last one is if its turn is not after the end. */
  lemma {:induction false} OpenedAre(cal: Calendar, t: Instant, last: Instant, d: int)
    requires IsCalendar(cal) && t <= last
    ensures cal.day(t) <= cal.day(last)
    ensures d in Opened(cal, t, last) <==>
              || cal.day(t) <= d < cal.day(last)
              || (d == cal.day(last) && Steps(cal, t, cal.day(last) - cal.day(t)) <= last)
    decreases cal.day(last) - cal.day(t) + 1
  {
    hide IsCalendar;
    DaysAscend(cal, t, last);
    DayAdded(cal, t, 1);
    var next := cal.addDays(t, 1);
    if next <= last {
      OpenedAre(cal, next, last, d);
    } else {
      DaysAscend(cal, last, next);
      assert Steps(cal, next, 0) == next;
    }
  }

  lemma {:induction false} OpenedAscend(cal: Calendar, t: Instant, last: Instant)
    requires IsCalendar(cal)
    ensures Ascending(Opened(cal, t, last))
    ensures forall d :: d in Opened(cal, t, last) ==> cal.day(t) <= d
    decreases cal.day(last) - cal.day(t) + 1
  {
    hide IsCalendar;
    if t <= last {
      DaysAscend(cal, t, last);
      DayAdded(cal, t, 1);
      var next := cal.addDays(t, 1);
      OpenedAscend(cal, next, last);
      var rest := Opened(cal, next, last);
      forall j | 0 <= j < |rest| ensures cal.day(t) < rest[j] {
        assert rest[j] in rest;
      }
    }
  }

  /** The last day of the period is opened: going from its start day by day, at the same time, one does not
      pass its end. */
  predicate Covers(cal: Calendar, period: Period)
  {
    period.start < period.end && cal.day(period.start) <= cal.day(period.end - 1) ==>
      Steps(cal, period.start, cal.day(period.end - 1) - cal.day(period.start)) < period.end
  }

  lemma DaysOfPeriodAreOpened(cal: Calendar, period: Period, t: Instant)
    requires IsCalendar(cal) && Covers(cal, period) && period.start <= t < period.end
    ensures cal.day(t) in OpenedFor(cal, period)
  {
    hide IsCalendar, Opened, Steps;
    DaysAscend(cal, period.start, t);
    DaysAscend(cal, t, period.end - 1);
    OpenedAre(cal, period.start, period.end - 1, cal.day(t));
  }

  /** A period that starts at midnight is covered. */
  lemma MidnightCovers(cal: Calendar, d: int, end: Instant)
    requires IsCalendar(cal)
    ensures Covers(cal, Period(cal.midnight(d), end))
  {
    hide IsCalendar, Steps;
    var last := end - 1;
    InDay(cal, last);
    if cal.midnight(d) < end {
      DaysAscend(cal, cal.midnight(d), last);
      DayOfMidnight(cal, d);
      StepsFromMidnight(cal, d, cal.day(last) - d);
    }
  }

  /** The other periods are whole local days, or whole days and the part of today up to now: last week is the
      seven days before this week's Monday, and without any phrase it is the last thirty days. */
  lemma PeriodsMean(cal: Calendar, says: string -> bool, now: Instant, weekAgo: Instant) returns (monday: int)
    requires IsCalendar(cal)
    ensures monday % 7 == 0 && monday <= cal.day(now) < monday + 7
    ensures var today := cal.day(now);
      MemoryDateRange(cal, says, now, weekAgo) ==
        match PhraseOf(says)
        case LastWeek => Period(cal.midnight(monday - 7), cal.midnight(monday))
        case ThisWeek => Period(cal.midnight(monday), now)
        case LastSevenDays => Period(weekAgo, now)
        case Yesterday => Period(cal.midnight(today - 1), cal.midnight(today))
        case Today => Period(cal.midnight(today), now)
        case NoPhrase => Period(cal.midnight(today - 29), now)
  {
    hide PhraseOf, IsCalendar;
    var today := cal.day(now);
    monday := today - today % 7;
    MidnightAdded(cal, today, -(today % 7));
    MidnightAdded(cal, monday, -7);
    MidnightAdded(cal, today, -1);
    MidnightAdded(cal, today, -29);
  }

  /** Every period but the one of the last seven days is covered. */
  lemma PeriodsAreCovered(cal: Calendar, says: string -> bool, now: Instant, weekAgo: Instant)
    requires IsCalendar(cal) && PhraseOf(says) != LastSevenDays
    ensures Covers(cal, MemoryDateRange(cal, says, now, weekAgo))
  {
    hide PhraseOf, IsCalendar, Covers;
    var today := cal.day(now);
    var monday := PeriodsMean(cal, says, now, weekAgo);
    var d := match PhraseOf(says)
      case LastWeek => monday - 7
      case ThisWeek => monday
      case Yesterday => today - 1
      case Today => today
      case NoPhrase => today - 29;
    MidnightCovers(cal, d, MemoryDateRange(cal, says, now, weekAgo).end);
  }

  /** The last seven days, from `weekAgo`: today's file is opened, so that the period is covered, if and only
      if today has only just begun, or the local time of the start has come before now today. In an ordinary
      week it comes just now; it has come before when the clocks have changed against each other. */
  lemma SevenDaysCoveredIff(cal: Calendar, says: string -> bool, now: Instant, weekAgo: Instant)
    requires IsCalendar(cal) && PhraseOf(says) == LastSevenDays
    requires cal.day(weekAgo) < cal.day(now)
    ensures Covers(cal, MemoryDateRange(cal, says, now, weekAgo)) <==>
              || cal.midnight(cal.day(now)) == now
              || Steps(cal, weekAgo, cal.day(now) - cal.day(weekAgo)) < now
  {
    hide IsCalendar, Steps, PhraseOf;
    var days := cal.day(now) - cal.day(weekAgo);
    assert MemoryDateRange(cal, says, now, weekAgo) == Period(weekAgo, now);
    DayOfSteps(cal, weekAgo, days - 1);
    EarlierDay(cal, weekAgo, now);
    EarlierDay(cal, Steps(cal, weekAgo, days - 1), now);
    InstantBefore(cal, now);
  }

  lemma EarlierDay(cal: Calendar, t: Instant, u: Instant)
    requires IsCalendar(cal) && cal.day(t) < cal.day(u)
    ensures t < u
  {
    if u <= t {
      DaysAscend(cal, u, t);
    }
  }

  lemma InstantBefore(cal: Calendar, t: Instant)
    requires IsCalendar(cal)
    ensures cal.day(t - 1) == if cal.midnight(cal.day(t)) == t then cal.day(t) - 1 else cal.day(t)
  {
    hide IsCalendar;
    DaysAscend(cal, t - 1, t);
    InDay(cal, t - 1);
    InDay(cal, t);
    if cal.midnight(cal.day(t)) == t {
      var eve := cal.midnight(cal.day(t) - 1);
      MidnightsAscend(cal, cal.day(t) - 1, cal.day(t));
      DayOfMidnight(cal, cal.day(t) - 1);
      DaysAscend(cal, eve, t - 1);
    } else {
      DayOfMidnight(cal, cal.day(t));
      DaysAscend(cal, cal.midnight(cal.day(t)), t - 1);
    }
  }

  // ----- what a query recalls -----

  /** `owner` is the user in whose directory the record is. */
  datatype Memory = Memory(
    owner: int, at: Instant, user: string, assistant: string, channel: string, conversation: string)

  datatype Query = Query(
    terms: seq<string>, termsOf: string -> set<string>, channel: string, recentIfEmpty: bool, period: Period)

  function MemoryPath(cal: Calendar): Memory -> Path {
    (m: Memory) => Path(m.owner, cal.day(m.at))
  }

  function CountTerms(terms: seq<string>, found: set<string>): nat {
    if terms == [] then 0
    else CountTerms(terms[..|terms| - 1], found) + if terms[|terms| - 1] in found then 1 else 0
  }

  function Score(q: Query, m: Memory): nat {
    CountTerms(q.terms, q.termsOf(m.user + " " + m.assistant))
  }

  predicate InPeriod(period: Period, m: Memory) {
    period.start <= m.at < period.end
  }

  function Wanted(q: Query): Memory -> bool {
    (m: Memory) =>
      && m.user != "" && m.assistant != "" && m.at != 0 && InPeriod(q.period, m)
      && (q.channel == "" || m.channel == "" || m.channel == q.channel)
      && (Score(q, m) > 0 || (q.recentIfEmpty && q.terms == []))
  }

  /** Better matches first, and of those the latest. */
  function Better(q: Query): (Memory, Memory) -> bool {
    (a: Memory, b: Memory) => if Score(q, a) != Score(q, b) then Score(q, a) > Score(q, b) else a.at > b.at
  }

  function FirstFew(s: seq<Memory>): seq<Memory> {
    if |s| > MEMORY_RESULT_LIMIT then s[..MEMORY_RESULT_LIMIT] else s
  }

  /** What is recalled of some records: the best few of the wanted ones. */
  function Best(q: Query, records: seq<Memory>): seq<Memory> {
    FirstFew(Sorting.StableSort(Better(q), Sorting.Filter(Wanted(q), records)))
  }

  function OwnedBy(owner: int): Memory -> bool {
    (m: Memory) => m.owner == owner
  }

  lemma BetterIsStrictWeakOrder(q: Query)
    ensures Sorting.StrictWeakOrder(Better(q))
  {
    hide Score;
  }

  lemma {:induction false} FilterConcat<T>(p: T -> bool, a: seq<T>, b: seq<T>)
    ensures Sorting.Filter(p, a + b) == Sorting.Filter(p, a) + Sorting.Filter(p, b)
  {
    if b == [] {
      assert a + b == a;
    } else {
      FilterConcat(p, a, b[..|b| - 1]);
      assert (a + b)[..|a + b| - 1] == a + b[..|b| - 1];
    }
  }

  lemma {:induction false} FilterNothing<T>(p: T -> bool, s: seq<T>)
    requires forall x :: x in s ==> !p(x)
    ensures Sorting.Filter(p, s) == []
  {
    if s != [] {
      FilterNothing(p, s[..|s| - 1]);
    }
  }

  /** What is only on one day is found in the file of that day, if it is opened. */
  lemma {:induction false} ScanOfOneDay(files: Files<Memory>, owner: int, days: seq<int>, p: Memory -> bool, d: int)
    requires Ascending(days)
    requires forall e, m :: e != d && m in At(files, Path(owner, e)) ==> !p(m)
    ensures Sorting.Filter(p, Scan(files, owner, days)) ==
      if d in days then Sorting.Filter(p, At(files, Path(owner, d))) else []
  {
    if days != [] {
      var front, last := days[..|days| - 1], days[|days| - 1];
      ScanOfOneDay(files, owner, front, p, d);
      assert days == front + [last];
      FilterConcat(p, Scan(files, owner, front), At(files, Path(owner, last)));
      if last != d {
        FilterNothing(p, At(files, Path(owner, last)));
      }
    }
  }

  /** The records of one instant that the partitions give are those that the whole log gives, in the same order. */
  lemma InstantFromPartitions(
    cal: Calendar, log: seq<Memory>, owner: int, period: Period, p: Memory -> bool, at: Instant)
    requires IsCalendar(cal) && Covers(cal, period)
    requires forall m :: p(m) ==> m.at == at && InPeriod(period, m)
    ensures Sorting.Filter(p, Scan(Filed(MemoryPath(cal), log), owner, OpenedFor(cal, period))) ==
            Sorting.Filter(p, Sorting.Filter(OwnedBy(owner), log))
  {
    hide IsCalendar, Covers, Scan, Filed, Sorting.Filter, Opened;
    var path, files, days := MemoryPath(cal), Filed(MemoryPath(cal), log), OpenedFor(cal, period);
    var d := cal.day(at);
    OpenedAscend(cal, period.start, period.end - 1);
    FiledHolds(path, log);
    forall e, m | e != d && m in At(files, Path(owner, e)) ensures !p(m) {
      FileOfPath(files, path, log, Path(owner, e));
    }
    ScanOfOneDay(files, owner, days, p, d);
    FileHolds(path, log, Path(owner, d));
    FilterTwice(p, OnPath(path, Path(owner, d)), log);
    FilterTwice(p, OwnedBy(owner), log);
    FilterSame(Both(p, OnPath(path, Path(owner, d))), Both(p, OwnedBy(owner)), log);
    if period.start <= at < period.end {
      DaysOfPeriodAreOpened(cal, period, at);
    } else {
      FilterNothing(p, Sorting.Filter(OwnedBy(owner), log));
      FilterNothing(p, At(files, Path(owner, d)));
    }
  }

  /** When the period is covered, opening only its partitions recalls exactly what going through everything
      that was ever remembered would, down to the order of what is equally good. */
  lemma PartitionScanIsFullScan(cal: Calendar, log: seq<Memory>, legacy: seq<Memory>, owner: int, q: Query)
    requires IsCalendar(cal) && Covers(cal, q.period)
    ensures Best(q, Scan(Filed(MemoryPath(cal), log), owner, OpenedFor(cal, q.period)) + legacy) ==
            Best(q, Sorting.Filter(OwnedBy(owner), log) + legacy)
  {
    hide IsCalendar, Covers, Scan, Filed, Sorting.Filter, Opened, OpenedFor, Wanted, Better, Sorting.StableSort;
    var part := Scan(Filed(MemoryPath(cal), log), owner, OpenedFor(cal, q.period));
    var full := Sorting.Filter(OwnedBy(owner), log);
    forall x: Memory
      ensures Sorting.Filter(Sorting.Alike(Better(q), x), Sorting.Filter(Wanted(q), part + legacy)) ==
              Sorting.Filter(Sorting.Alike(Better(q), x), Sorting.Filter(Wanted(q), full + legacy))
    {
      AlikeFromPartitions(cal, log, legacy, owner, q, x);
    }
    BetterIsStrictWeakOrder(q);
    Sorting.StableSortIsDetermined(
      Better(q), Sorting.Filter(Wanted(q), part + legacy), Sorting.Filter(Wanted(q), full + legacy));
  }

  lemma AlikeFromPartitions(cal: Calendar, log: seq<Memory>, legacy: seq<Memory>, owner: int, q: Query, x: Memory)
    requires IsCalendar(cal) && Covers(cal, q.period)
    ensures var part := Scan(Filed(MemoryPath(cal), log), owner, OpenedFor(cal, q.period));
      var full := Sorting.Filter(OwnedBy(owner), log);
      Sorting.Filter(Sorting.Alike(Better(q), x), Sorting.Filter(Wanted(q), part + legacy)) ==
      Sorting.Filter(Sorting.Alike(Better(q), x), Sorting.Filter(Wanted(q), full + legacy))
  {
    var part := Scan(Filed(MemoryPath(cal), log), owner, OpenedFor(cal, q.period));
    var full := Sorting.Filter(OwnedBy(owner), log);
    var alike := Sorting.Alike(Better(q), x);
    var p := Both(alike, Wanted(q));
    hide IsCalendar, Covers, Scan, Filed, Sorting.Filter, Opened, OpenedFor, Score;
    FilterTwice(alike, Wanted(q), part + legacy);
    FilterTwice(alike, Wanted(q), full + legacy);
    FilterConcat(p, part, legacy);
    FilterConcat(p, full, legacy);
    forall m: Memory | p(m) ensures m.at == x.at && InPeriod(q.period, m) {
    }
    InstantFromPartitions(cal, log, owner, q.period, p, x.at);
  }

  /** The partitions have every record of a period, whatever was remembered, if and only if the period is covered. */
  lemma PartitionsSufficeIff(cal: Calendar, owner: int, period: Period)
    requires IsCalendar(cal)
    ensures Covers(cal, period) <==>
            forall log: seq<Memory>, m: Memory ::
              m in log && m.owner == owner && InPeriod(period, m) ==>
              m in Scan(Filed(MemoryPath(cal), log), owner, OpenedFor(cal, period))
  {
    hide IsCalendar, Scan, Filed, Opened, Steps;
    if Covers(cal, period) {
      forall log: seq<Memory>, m: Memory | m in log && m.owner == owner && InPeriod(period, m)
        ensures m in Scan(Filed(MemoryPath(cal), log), owner, OpenedFor(cal, period))
      {
        DaysOfPeriodAreOpened(cal, period, m.at);
        FiledHolds(MemoryPath(cal), log);
        HeldDays(Filed(MemoryPath(cal), log), MemoryPath(cal), log, m);
        ScanMembers(Filed(MemoryPath(cal), log), owner, OpenedFor(cal, period), m);
      }
    } else {
      LastDayIsMissed(cal, owner, period);
    }
  }

  lemma LastDayIsMissed(cal: Calendar, owner: int, period: Period)
    requires IsCalendar(cal) && !Covers(cal, period)
    ensures var m := Memory(owner, period.end - 1, "u", "a", "", "");
      InPeriod(period, m) && m in [m] && m !in Scan(Filed(MemoryPath(cal), [m]), owner, OpenedFor(cal, period))
  {
    var m := Memory(owner, period.end - 1, "u", "a", "", "");
    hide IsCalendar, Opened, Scan, Steps;
    OpenedAre(cal, period.start, period.end - 1, cal.day(period.end - 1));
    hide Filed;
    if m in Scan(Filed(MemoryPath(cal), [m]), owner, OpenedFor(cal, period)) {
      OnlyInItsFile(cal, owner, m, OpenedFor(cal, period));
    }
  }

  lemma OnlyInItsFile(cal: Calendar, owner: int, m: Memory, days: seq<int>)
    requires m in Scan(Filed(MemoryPath(cal), [m]), owner, days)
    ensures cal.day(m.at) in days
  {
    var files := Filed(MemoryPath(cal), [m]);
    ScanMembers(files, owner, days, m);
    FiledHolds(MemoryPath(cal), [m]);
    hide Scan, Filed;
    var d :| d in days && m in At(files, Path(owner, d));
    FileOfPath(files, MemoryPath(cal), [m], Path(owner, d));
  }

  const SEVEN_DAYS := (phrase: string) => phrase == "ultimos 7 dias"

  lemma SaysSevenDays()
    ensures PhraseOf(SEVEN_DAYS) == LastSevenDays
  {
    assert |"semana pasada"| == 13 && |"semana anterior"| == 15 && |"esta semana"| == 11 && |"ultimos 7 dias"| == 14;
  }

  /** At any time of the day but midnight, with the calendar of UTC, what was remembered today just before is
      not in the files that are opened for the last seven days. */
  lemma TodayIsMissed(owner: int, now: Instant)
    requires now % NANOSECONDS_PER_DAY != 0
    ensures var period := MemoryDateRange(UTC, SEVEN_DAYS, now, UTC.addDays(now, -7));
      var m := Memory(owner, now - 1, "u", "a", "", "");
      && InPeriod(period, m) && UTC.day(m.at) == UTC.day(now) && IsCalendar(UTC)
      && m !in Scan(Filed(MemoryPath(UTC), [m]), owner, OpenedFor(UTC, period))
  {
    UtcIsCalendar();
    hide IsCalendar, Opened, Scan, Filed, PhraseOf, Steps;
    var period := MemoryDateRange(UTC, SEVEN_DAYS, now, UTC.addDays(now, -7));
    SevenDaysBefore(now);
    NotMidnight(now);
    hide MemoryDateRange;
    SevenUtcDays(period.start, 7);
    SevenDaysCoveredIff(UTC, SEVEN_DAYS, now, period.start);
    hide Covers;
    LastDayIsMissed(UTC, owner, period);
  }

  lemma NotMidnight(now: Instant)
    requires now % NANOSECONDS_PER_DAY != 0
    ensures UTC.day(now - 1) == UTC.day(now) && UTC.midnight(UTC.day(now)) != now
    ensures UTC.day(now - 7 * NANOSECONDS_PER_DAY) == UTC.day(now) - 7
  {
  }

  lemma SevenDaysBefore(now: Instant)
    ensures MemoryDateRange(UTC, SEVEN_DAYS, now, UTC.addDays(now, -7)) == Period(now - 7 * NANOSECONDS_PER_DAY, now)
    ensures PhraseOf(SEVEN_DAYS) == LastSevenDays
  {
    SaysSevenDays();
    hide PhraseOf;
  }

  lemma {:induction false} SevenUtcDays(t: Instant, n: nat)
    ensures Steps(UTC, t, n) == t + n * NANOSECONDS_PER_DAY
    decreases n
  {
    if n > 0 {
      SevenUtcDays(UTC.addDays(t, 1), n - 1);
    }
  }

  // ----- what is recalled, in the terms of the query -----

  /** The places of the query's terms that are among the words of a record. */
  function Matched(q: Query, m: Memory): set<int> {
    set i | 0 <= i < |q.terms| && q.terms[i] in q.termsOf(m.user + " " + m.assistant)
  }

  function MatchedUpTo(terms: seq<string>, found: set<string>, n: nat): set<int>
    requires n <= |terms|
  {
    set i | 0 <= i < n && terms[i] in found
  }

  lemma {:induction false} CountIsMatched(terms: seq<string>, found: set<string>, n: nat)
    requires n <= |terms|
    ensures CountTerms(terms[..n], found) == |MatchedUpTo(terms, found, n)|
  {
    if n > 0 {
      CountIsMatched(terms, found, n - 1);
      assert terms[..n][..n - 1] == terms[..n - 1];
      var before := MatchedUpTo(terms, found, n - 1);
      if terms[n - 1] in found {
        assert MatchedUpTo(terms, found, n) == before + {n - 1};
      } else {
        assert MatchedUpTo(terms, found, n) == before;
      }
    }
  }

  lemma ScoreIsMatched(q: Query, m: Memory)
    ensures Score(q, m) == |Matched(q, m)|
    ensures Score(q, m) > 0 <==> exists i :: 0 <= i < |q.terms| && q.terms[i] in q.termsOf(m.user + " " + m.assistant)
  {
    var found := q.termsOf(m.user + " " + m.assistant);
    CountIsMatched(q.terms, found, |q.terms|);
    assert q.terms[..|q.terms|] == q.terms;
    assert MatchedUpTo(q.terms, found, |q.terms|) == Matched(q, m);
    if i :| 0 <= i < |q.terms| && q.terms[i] in found {
      assert i in Matched(q, m);
    }
    if |Matched(q, m)| > 0 {
      var i :| i in Matched(q, m);
    }
  }

  /** A record that answers the query: of its period and channel, and with one of its words, unless it has none
      and may be answered by what is recent. */
  ghost predicate Answers(q: Query, m: Memory) {
    && m.user != "" && m.assistant != "" && m.at != 0 && q.period.start <= m.at < q.period.end
    && (m.channel == q.channel || q.channel == "" || m.channel == "")
    && ((exists i :: 0 <= i < |q.terms| && q.terms[i] in q.termsOf(m.user + " " + m.assistant))
        || (q.recentIfEmpty && |q.terms| == 0))
  }

  /** No worse an answer: it has more of the words, or as many and is no earlier. */
  ghost predicate NoWorse(q: Query, a: Memory, b: Memory) {
    |Matched(q, a)| > |Matched(q, b)| || (|Matched(q, a)| == |Matched(q, b)| && a.at >= b.at)
  }

  /** The result has the best eight answers among the records, best first, or all of them when there are fewer. */
  ghost predicate Recalls(q: Query, records: seq<Memory>, result: seq<Memory>) {
    && |result| <= 8
    && (forall m :: m in result ==> Answers(q, m))
    && (forall m :: multiset(result)[m] <= multiset(records)[m])
    && (forall i, j :: 0 <= i < j < |result| ==> NoWorse(q, result[i], result[j]))
    && (forall m :: Answers(q, m) && multiset(result)[m] < multiset(records)[m] ==>
          |result| == 8 && forall x :: x in result ==> NoWorse(q, x, m))
  }

  lemma WantedMeans(q: Query, m: Memory)
    ensures Wanted(q)(m) <==> Answers(q, m)
  {
    ScoreIsMatched(q, m);
    hide Score;
  }

  lemma NotBetterMeans(q: Query, a: Memory, b: Memory)
    ensures !Better(q)(b, a) <==> NoWorse(q, a, b)
  {
    ScoreIsMatched(q, a);
    ScoreIsMatched(q, b);
    hide Score, Matched;
  }

  /** What `Best` gives are the best answers. */
  lemma BestMeans(q: Query, records: seq<Memory>)
    ensures Recalls(q, records, Best(q, records))
  {
    var wanted := Sorting.Filter(Wanted(q), records);
    var sorted := Sorting.StableSort(Better(q), wanted);
    BetterIsStrictWeakOrder(q);
    Sorting.StableSortSorts(Better(q), wanted);
    forall m ensures multiset(sorted)[m] == if Answers(q, m) then multiset(records)[m] else 0 {
      Sorting.FilterCounts(Wanted(q), records, m);
      WantedMeans(q, m);
    }
    forall i, j | 0 <= i < j < |sorted| ensures NoWorse(q, sorted[i], sorted[j]) {
      NotBetterMeans(q, sorted[i], sorted[j]);
    }
    hide Wanted, Better, Sorting.Filter, Sorting.StableSort, Answers, NoWorse;
    FirstFewRecall(q, records, sorted);
  }

  lemma FirstFewRecall(q: Query, records: seq<Memory>, sorted: seq<Memory>)
    requires forall m :: multiset(sorted)[m] == if Answers(q, m) then multiset(records)[m] else 0
    requires forall i, j :: 0 <= i < j < |sorted| ==> NoWorse(q, sorted[i], sorted[j])
    ensures Recalls(q, records, FirstFew(sorted))
  {
    hide Answers, NoWorse;
    var result := FirstFew(sorted);
    var n := |result|;
    forall m { SplitCounts(sorted, n, m); }
    forall m | Answers(q, m) && multiset(result)[m] < multiset(records)[m]
      ensures |result| == 8 && forall x :: x in result ==> NoWorse(q, x, m)
    {
      LeftOutIsNoBetter(q, sorted, n, m);
    }
  }

  lemma SplitCounts<T>(s: seq<T>, n: nat, x: T)
    requires n <= |s|
    ensures multiset(s)[x] == multiset(s[..n])[x] + multiset(s[n..])[x]
    ensures multiset(s[..n])[x] > 0 <==> x in s[..n]
    ensures multiset(s[n..])[x] > 0 <==> x in s[n..]
  {
    assert s == s[..n] + s[n..];
  }

  lemma LeftOutIsNoBetter(q: Query, sorted: seq<Memory>, n: nat, m: Memory)
    requires n <= |sorted| && m in sorted[n..]
    requires forall i, j :: 0 <= i < j < |sorted| ==> NoWorse(q, sorted[i], sorted[j])
    ensures forall x :: x in sorted[..n] ==> NoWorse(q, x, m)
  {
    hide NoWorse;
    var j :| n <= j < |sorted| && sorted[j] == m;
    forall x | x in sorted[..n] ensures NoWorse(q, x, m) {
      var i :| 0 <= i < n && sorted[i] == x;
    }
  }

  /** Answers that are equally good are recalled in the order of the records. */
  lemma EqualAnswersKeepOrder(q: Query, records: seq<Memory>, x: Memory)
    ensures var same := (m: Memory) => |Matched(q, m)| == |Matched(q, x)| && m.at == x.at;
      Sorting.Filter(same, Best(q, records)) <= Sorting.Filter(Both(same, Wanted(q)), records)
  {
    var same := (m: Memory) => |Matched(q, m)| == |Matched(q, x)| && m.at == x.at;
    var wanted := Sorting.Filter(Wanted(q), records);
    var sorted := Sorting.StableSort(Better(q), wanted);
    forall m { ScoreIsMatched(q, m); }
    hide Score, Matched;
    Sorting.StableSortKeepsOrder(Better(q), same, wanted);
    hide Better, Sorting.StableSort, Sorting.Filter;
    FilterTwice(same, Wanted(q), records);
    FilterConcat(same, Best(q, records), sorted[|Best(q, records)|..]);
    assert sorted == Best(q, records) + sorted[|Best(q, records)|..];
  }

  // ----- the archive -----

  lemma ScanNextDay(files: Files<Memory>, owner: int, days: seq<int>, i: nat)
    requires i < |days|
    ensures Scan(files, owner, days[..i + 1]) == Scan(files, owner, days[..i]) + At(files, Path(owner, days[i]))
  {
    assert days[..i + 1][..i] == days[..i];
  }

  method CountFound(terms: seq<string>, found: set<string>) returns (score: nat)
    ensures score == CountTerms(terms, found)
  {
    score := 0;
    for i := 0 to |terms|
      invariant score == CountTerms(terms[..i], found)
    {
      assert terms[..i + 1][..i] == terms[..i];
      if terms[i] in found {
        score := score + 1;
      }
    }
    assert terms[..|terms|] == terms;
  }

  /** Adds what is wanted of one file. */
  method ReadFile(q: Query, records: seq<Memory>, before: seq<Memory>) returns (all: seq<Memory>)
    ensures all == before + Sorting.Filter(Wanted(q), records)
  {
    all := before;
    for j := 0 to |records|
      invariant all == before + Sorting.Filter(Wanted(q), records[..j])
    {
      var entry := records[j];
      Sorting.FilterOneMore(Wanted(q), records[..j], entry);
      assert records[..j + 1] == records[..j] + [entry];
      if entry.user == "" || entry.assistant == "" {
        continue;
      }
      if entry.at == 0 || entry.at < q.period.start || !(entry.at < q.period.end) {
        continue;
      }
      if q.channel != "" && entry.channel != "" && entry.channel != q.channel {
        continue;
      }
      var score := CountFound(q.terms, q.termsOf(entry.user + " " + entry.assistant));
      if score > 0 || (q.recentIfEmpty && |q.terms| == 0) {
        all := all + [entry];
      }
    }
    assert records[..|records|] == records;
  }

  class Archive {
    const cal: Calendar
    /** File operations do not fail. Otherwise each of them may. */
    const reliable: bool
    var daily: Files<Memory>
    /** The archive from before there were partitions, by user. */
    var legacy: map<int, seq<Memory>>
    /** What has been remembered in the partitions, in order. */
    ghost var log: seq<Memory>

    ghost predicate Valid()
      reads this
    {
      IsCalendar(cal) && daily == Filed(MemoryPath(cal), log)
    }

    ghost function Legacy(user: int): seq<Memory>
      reads this
    {
      if user in legacy then legacy[user] else []
    }

    constructor (cal: Calendar, legacy: map<int, seq<Memory>>, reliable: bool)
      requires IsCalendar(cal)
      ensures this.reliable == reliable
      ensures Valid() && this.cal == cal && this.legacy == legacy && log == []
    {
      this.cal, this.legacy, this.reliable := cal, legacy, reliable;
      daily, log := map[], [];
    }

    /** A failure can come before the memory is written or after. */
    method AppendMemoryAt(user: int, channel: string, conversation: string, question: string, answer: string,
                          at: Instant)
      returns (ok: bool)
      requires Valid()
      modifies this
      ensures Valid() && legacy == old(legacy)
      ensures log == old(log) + [Memory(user, at, question, answer, channel, conversation)] || (!ok && log == old(log))
      ensures reliable ==> ok
    {
      var failed := Fails(reliable);
      if failed {
        return false;
      }
      var entry := Memory(user, at, question, answer, channel, conversation);
      daily := Append(daily, Path(user, cal.day(at)), entry);
      FiledOneMore(MemoryPath(cal), log, entry);
      log := log + [entry];
      failed := Fails(reliable);
      ok := !failed;
    }

    /** The recall of a query is what going through everything would recall, when the period is covered and no
        file fails to be read. */
    method RelevantMemoriesAt(user: int, q: Query) returns (result: seq<Memory>, ok: bool)
      requires Valid()
      ensures reliable ==> ok
      ensures ok ==> result == Best(q, Scan(daily, user, OpenedFor(cal, q.period)) + Legacy(user))
      ensures ok ==> Recalls(q, Scan(daily, user, OpenedFor(cal, q.period)) + Legacy(user), result)
      ensures ok && Covers(cal, q.period) ==> result == Best(q, Sorting.Filter(OwnedBy(user), log) + Legacy(user))
      ensures ok && Covers(cal, q.period) ==> Recalls(q, Sorting.Filter(OwnedBy(user), log) + Legacy(user), result)
    {
      hide IsCalendar, Scan, Filed, Sorting.Filter, Opened, Covers, Recalls;
      var days := PartitionDays(cal, q.period);
      var all: seq<Memory> := [];
      var failed;
      EmptyScan(q, daily, user, days);
      for i := 0 to |days|
        invariant all == Sorting.Filter(Wanted(q), Scan(daily, user, days[..i]))
      {
        failed := Fails(reliable);
        if failed {
          return [], false;
        }
        all := ReadFile(q, At(daily, Path(user, days[i])), all);
        ScanNextDay(daily, user, days, i);
        FilterConcat(Wanted(q), Scan(daily, user, days[..i]), At(daily, Path(user, days[i])));
      }
      assert days[..|days|] == days;
      failed := Fails(reliable);
      if failed {
        return [], false;
      }
      all := ReadFile(q, if user in legacy then legacy[user] else [], all);
      FilterConcat(Wanted(q), Scan(daily, user, days), Legacy(user));
      var sorted := Sorting.StableSort(Better(q), all);
      result := if |sorted| > MEMORY_RESULT_LIMIT then sorted[..MEMORY_RESULT_LIMIT] else sorted;
      ok := true;
      BestMeans(q, Scan(daily, user, days) + Legacy(user));
      if Covers(cal, q.period) {
        PartitionScanIsFullScan(cal, log, Legacy(user), user, q);
        BestMeans(q, Sorting.Filter(OwnedBy(user), log) + Legacy(user));
      }
    }
  }

  lemma EmptyScan(q: Query, files: Files<Memory>, owner: int, days: seq<int>)
    ensures Sorting.Filter(Wanted(q), Scan(files, owner, days[..0])) == []
  {
  }
}
