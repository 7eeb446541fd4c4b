/** The statistics ledger of the Pomodoro timer (stores/statisticsStore.ts):
    minutes per calendar day and phase, a lifetime cycle counter, and one
    open-session slot.

    Calendar days are integers: the number of days since 1970-01-01. The
    wall clock is never read; every operation that needs the time takes
    `now`, a millisecond timestamp, as a parameter. */
module StatisticsStore {
  import opened Options

  /** PhaseType: the three kinds of interval in a Pomodoro cycle. */
  datatype Phase = Work | ShortBreak | LongBreak

  const MsPerMinute: int := 60000
  const MsPerDay: int := 86400000

  // ---------------------------------------------------------------------
  // Calendar helpers (getDateString, getWeekStart, getWeekDates)
  // ---------------------------------------------------------------------

  /** The calendar day of a timestamp: the date part of its ISO string. */
  function DateOf(now: int): (d: int)
    ensures d * MsPerDay <= now < (d + 1) * MsPerDay
  {
    now / MsPerDay
  }

  /** Day of the week as `Date.getDay` numbers it: 0 is Sunday, 1 is Monday.
      Day 0 (1970-01-01) was a Thursday. */
  function Weekday(d: int): (w: int)
    ensures 0 <= w < 7
  {
    (d + 4) % 7
  }

  /** getWeekStart: move back to Monday; a Sunday belongs to the week that
      began six days earlier. */
  function WeekStart(d: int): (r: int)
    ensures Weekday(r) == 1
    ensures d - 6 <= r <= d
    ensures Weekday(d) == 0 ==> r == d - 6
    ensures Weekday(d) == 1 ==> r == d
  {
    var day := Weekday(d);
    d - day + (if day == 0 then -6 else 1)
  }

  /** Two days less than a week apart fall on the same weekday only if they
      are the same day. */
  lemma {:induction false} WeekdayDistinct(a: int, b: int)
    requires a <= b < a + 7
    requires Weekday(a) == Weekday(b)
    ensures a == b
  {
    var qa, qb := (a + 4) / 7, (b + 4) / 7;
    assert a + 4 == 7 * qa + Weekday(a);
    assert b + 4 == 7 * qb + Weekday(b);
    assert 7 * (qb - qa) == b - a;
  }

  /** Weekdays repeat every seven days. */
  lemma {:induction false} WeekdayShift(d: int, k: int)
    ensures Weekday(d + 7 * k) == Weekday(d)
  {
    var q := (d + 4) / 7;
    assert d + 7 * k + 4 == 7 * (q + k) + Weekday(d);
  }

  /** WeekStart(d) is THE Monday on or before d: no other day of the six
      before d is a Monday. */
  lemma WeekStartUnique(d: int, m: int)
    requires d - 6 <= m <= d && Weekday(m) == 1
    ensures m == WeekStart(d)
  {
    var r := WeekStart(d);
    if m <= r { WeekdayDistinct(m, r); } else { WeekdayDistinct(r, m); }
  }

  /** Every day of a week has that week's Monday as its week start, so the
      weeks partition the calendar into buckets of seven. */
  lemma SameWeek(d: int, i: int)
    requires 0 <= i < 7
    ensures WeekStart(WeekStart(d) + i) == WeekStart(d)
  {
    WeekStartUnique(WeekStart(d) + i, WeekStart(d));
  }

  /** Moving a day by k weeks moves its week start by k weeks: the
      `weekOffset * 7` arithmetic of getWeeklyData lands on a Monday. */
  lemma WeekStartShift(d: int, k: int)
    ensures WeekStart(d + 7 * k) == WeekStart(d) + 7 * k
  {
    WeekdayShift(WeekStart(d), k);
    WeekStartUnique(d + 7 * k, WeekStart(d) + 7 * k);
  }

  /** getWeekDates: the seven consecutive dates of the week that starts at
      `weekStart`, built by the source's `for` loop. */
  method GetWeekDates(weekStart: int) returns (dates: seq<int>)
    ensures |dates| == 7
    ensures forall i :: 0 <= i < 7 ==> dates[i] == weekStart + i
  {
    dates := [];
    var i := 0;
    while i < 7
      invariant 0 <= i <= 7
      invariant |dates| == i
      invariant forall j :: 0 <= j < i ==> dates[j] == weekStart + j
    {
      dates := dates + [weekStart + i];
      i := i + 1;
    }
  }

  // ---------------------------------------------------------------------
  // Records and the ledger
  // ---------------------------------------------------------------------

  /** DailyStats: minutes logged on one date, per phase. */
  datatype DailyStats = DailyStats(date: int, work: int, shortBreak: int, longBreak: int)
  {
    function Minutes(p: Phase): int {
      match p
      case Work => work
      case ShortBreak => shortBreak
      case LongBreak => longBreak
    }

    /** `{...existingStats, [phase]: existingStats[phase] + minutes}` */
    function AddTo(p: Phase, m: int): (r: DailyStats)
      ensures r.date == date
      ensures r.Minutes(p) == Minutes(p) + m
      ensures forall q :: q != p ==> r.Minutes(q) == Minutes(q)
    {
      match p
      case Work => this.(work := work + m)
      case ShortBreak => this.(shortBreak := shortBreak + m)
      case LongBreak => this.(longBreak := longBreak + m)
    }
  }

  /** The record synthesised for a date that has none. */
  function Zero(date: int): (r: DailyStats)
    ensures r.date == date
    ensures forall p :: r.Minutes(p) == 0
  {
    DailyStats(date, 0, 0, 0)
  }

  /** The ledger: `dailyStats`, keyed by date. */
  type Ledger = map<int, DailyStats>

  /** Every stored record carries its own key as its date. */
  ghost predicate KeyedByDate(ledger: Ledger) {
    forall d :: d in ledger ==> ledger[d].date == d
  }

  /** `state.dailyStats[date] || { date, work: 0, short_break: 0, long_break: 0 }` */
  function Lookup(ledger: Ledger, date: int): (r: DailyStats)
    ensures date in ledger ==> r == ledger[date]
    ensures date !in ledger ==> r.date == date && forall p :: r.Minutes(p) == 0
    ensures KeyedByDate(ledger) ==> r.date == date
  {
    if date in ledger then ledger[date] else Zero(date)
  }

  /** The ledger after logTime: the record of `d` (created as a zero record
      if absent) gains `m` minutes of phase `p`. */
  function Logged(ledger: Ledger, p: Phase, m: int, d: int): (r: Ledger)
    ensures r.Keys == ledger.Keys + {d}
    ensures r[d].Minutes(p) == Lookup(ledger, d).Minutes(p) + m
    ensures forall q :: q != p ==> r[d].Minutes(q) == Lookup(ledger, d).Minutes(q)
    ensures forall e :: e in ledger && e != d ==> r[e] == ledger[e]
    ensures d !in ledger ==> r[d].date == d
    ensures KeyedByDate(ledger) ==> KeyedByDate(r)
  {
    ledger[d := Lookup(ledger, d).AddTo(p, m)]
  }

  /** Logging is additive: logging a then b minutes equals logging a + b. */
  lemma LoggedAdditive(ledger: Ledger, p: Phase, a: int, b: int, d: int)
    ensures Logged(Logged(ledger, p, a, d), p, b, d) == Logged(ledger, p, a + b, d)
  {
    var x := Logged(Logged(ledger, p, a, d), p, b, d)[d];
    var y := Logged(ledger, p, a + b, d)[d];
    assert x.date == y.date;
    assert x.Minutes(Work) == y.Minutes(Work);
    assert x.Minutes(ShortBreak) == y.Minutes(ShortBreak);
    assert x.Minutes(LongBreak) == y.Minutes(LongBreak);
  }

  /** Logging to two dates, or two phases, in either order gives the same ledger. */
  lemma LoggedCommutes(ledger: Ledger, p: Phase, a: int, d: int, q: Phase, b: int, e: int)
    ensures Logged(Logged(ledger, p, a, d), q, b, e) == Logged(Logged(ledger, q, b, e), p, a, d)
  {
    var l1 := Logged(Logged(ledger, p, a, d), q, b, e);
    var l2 := Logged(Logged(ledger, q, b, e), p, a, d);
    forall k | k in l1.Keys ensures l1[k] == l2[k] {
      var x, y := l1[k], l2[k];
      assert x.date == y.date;
      assert x.Minutes(Work) == y.Minutes(Work);
      assert x.Minutes(ShortBreak) == y.Minutes(ShortBreak);
      assert x.Minutes(LongBreak) == y.Minutes(LongBreak);
    }
  }

  /** Whole minutes between two timestamps, rounded down (`Math.floor`);
      negative when the clock reads earlier than the start. */
  function ElapsedMinutes(start: int, now: int): (m: int)
    ensures m * MsPerMinute <= now - start < (m + 1) * MsPerMinute
    ensures now < start ==> m < 0
    ensures start <= now ==> 0 <= m
  {
    (now - start) / MsPerMinute
  }

  /** The guard of endSession, `currentSessionStart && currentPhase`, with
      JavaScript truthiness: a start timestamp of 0 counts as no session. */
  function SessionOpen(start: Option<int>, phase: Option<Phase>): (open: bool)
    ensures open ==> start.Some? && phase.Some?
    ensures start == Some(0) ==> !open
    ensures start.Some? && start.value != 0 && phase.Some? ==> open
  {
    start.Some? && start.value != 0 && phase.Some?
  }

  // ---------------------------------------------------------------------
  // Phase totals (getTotalTimeByPhase, getWeeklyTimeByPhase)
  // ---------------------------------------------------------------------

  /** `{ work, short_break, long_break }` as the totals functions return it. */
  datatype Totals = Totals(work: int, shortBreak: int, longBreak: int)
  {
    function Minutes(p: Phase): int {
      match p
      case Work => work
      case ShortBreak => shortBreak
      case LongBreak => longBreak
    }

    /** One iteration of the `forEach` body: add a day's minutes. */
    function Add(day: DailyStats): (r: Totals)
      ensures forall p :: r.Minutes(p) == Minutes(p) + day.Minutes(p)
    {
      Totals(work + day.work, shortBreak + day.shortBreak, longBreak + day.longBreak)
    }
  }

  lemma HasKey(ledger: Ledger)
    requires ledger != map[]
    ensures exists d :: d in ledger
  {
    if forall d :: d !in ledger {
      assert false;
    }
  }

  ghost function Pick(ledger: Ledger): (d: int)
    requires ledger != map[]
    ensures d in ledger
  {
    HasKey(ledger);
    var d :| d in ledger; d
  }

  /** The minutes of phase p summed over every record of the ledger, in no
      particular order. */
  ghost function Total(ledger: Ledger, p: Phase): int
    decreases |ledger|
  {
    if ledger == map[] then 0
    else
      var d := Pick(ledger);
      assert |ledger - {d}| < |ledger| by {
        assert (ledger - {d}).Keys == ledger.Keys - {d};
      }
      ledger[d].Minutes(p) + Total(ledger - {d}, p)
  }

  /** Total does not depend on which record is taken first. */
  lemma {:induction false} TotalRemove(ledger: Ledger, d: int, p: Phase)
    requires d in ledger
    ensures Total(ledger, p) == ledger[d].Minutes(p) + Total(ledger - {d}, p)
    decreases |ledger|
  {
    var e := Pick(ledger);
    if e != d {
      var rest := ledger - {e};
      assert (ledger - {e}).Keys == ledger.Keys - {e};
      assert (ledger - {d}).Keys == ledger.Keys - {d};
      TotalRemove(rest, d, p);
      TotalRemove(ledger - {d}, e, p);
      assert rest - {d} == ledger - {d} - {e};
    }
  }

  /** logTime raises the ledger-wide total of its phase by exactly m and
      leaves the totals of the other phases alone. */
  lemma TotalAfterLog(ledger: Ledger, p: Phase, m: int, d: int, q: Phase)
    ensures Total(Logged(ledger, p, m, d), q) == Total(ledger, q) + (if q == p then m else 0)
  {
    var after := Logged(ledger, p, m, d);
    TotalRemove(after, d, q);
    if d in ledger {
      TotalRemove(ledger, d, q);
      assert after - {d} == ledger - {d};
    } else {
      assert after - {d} == ledger;
    }
  }

  /** The records of `n` consecutive dates from `start`, zero-filled. */
  function RecordsFrom(ledger: Ledger, start: int, n: nat): (days: seq<DailyStats>)
    ensures |days| == n
    ensures forall i :: 0 <= i < n ==> days[i] == Lookup(ledger, start + i)
  {
    seq(n, i requires 0 <= i < n => Lookup(ledger, start + i))
  }

  /** The stored records whose dates lie in [start, start + n). */
  function Within(ledger: Ledger, start: int, n: nat): Ledger {
    map d | d in ledger && start <= d < start + n :: ledger[d]
  }

  /** The `forEach` sum of one phase over a list of records. */
  function SumDays(days: seq<DailyStats>, p: Phase): (r: int)
    ensures (forall i :: 0 <= i < |days| ==> days[i].Minutes(p) >= 0) ==> r >= 0
    ensures (forall i :: 0 <= i < |days| ==> days[i].Minutes(p) == 0) ==> r == 0
  {
    if days == [] then 0 else SumDays(days[..|days| - 1], p) + days[|days| - 1].Minutes(p)
  }

  /** Summing the zero-filled records of a date range gives the ledger total
      over the stored records in that range: the zero records add nothing and
      no stored record is counted twice. */
  lemma {:induction false} SumDaysWithin(ledger: Ledger, start: int, n: nat, p: Phase)
    ensures SumDays(RecordsFrom(ledger, start, n), p) == Total(Within(ledger, start, n), p)
  {
    if n > 0 {
      var days := RecordsFrom(ledger, start, n);
      assert days[..n - 1] == RecordsFrom(ledger, start, n - 1);
      SumDaysWithin(ledger, start, n - 1, p);
      var last := start + n - 1;
      var w := Within(ledger, start, n);
      if last in ledger {
        TotalRemove(w, last, p);
        assert w - {last} == Within(ledger, start, n - 1);
      } else {
        assert w == Within(ledger, start, n - 1);
      }
    } else {
      assert Within(ledger, start, n) == map[];
    }
  }

  /** getWeeklyData's `weekStart`: this week's Monday moved by whole weeks. */
  function TargetWeekStart(weekOffset: int, now: int): (ws: int)
    ensures Weekday(ws) == 1
    ensures ws - 7 * weekOffset == WeekStart(DateOf(now))
    ensures weekOffset == 0 ==> ws <= DateOf(now) < ws + 7
  {
    WeekdayShift(WeekStart(DateOf(now)), weekOffset);
    WeekStart(DateOf(now)) + weekOffset * 7
  }

  /** WeeklyStats: the Monday of the week and its seven records. */
  datatype WeeklyStats = WeeklyStats(weekStart: int, days: seq<DailyStats>)

  // ---------------------------------------------------------------------
  // The store
  // ---------------------------------------------------------------------

  /** useStatisticsStore: the store's state and its actions. */
  class Statistics {
    var totalCycles: nat
    var dailyStats: Ledger
    var currentSessionStart: Option<int>
    var currentPhase: Option<Phase>

    /** Records are keyed by their own date, and the session slot's two
        fields are set and cleared together. */
    ghost predicate Valid()
      reads this
    {
      KeyedByDate(dailyStats) && (currentSessionStart.Some? <==> currentPhase.Some?)
    }

    /** initialState */
    constructor ()
      ensures Valid()
      ensures totalCycles == 0 && dailyStats == map[]
      ensures currentSessionStart == None && currentPhase == None
    {
      totalCycles := 0;
      dailyStats := map[];
      currentSessionStart := None;
      currentPhase := None;
    }

    /** incrementCycles */
    method IncrementCycles()
      requires Valid()
      modifies this`totalCycles
      ensures Valid()
      ensures totalCycles == old(totalCycles) + 1
    {
      totalCycles := totalCycles + 1;
    }

    /** startSession: open a session at `now`, replacing any open one
        without logging it. */
    method StartSession(phase: Phase, now: int)
      requires Valid()
      modifies this`currentSessionStart, this`currentPhase
      ensures Valid()
      ensures currentSessionStart == Some(now) && currentPhase == Some(phase)
    {
      currentSessionStart := Some(now);
      currentPhase := Some(phase);
    }

    /** logTime: `date` absent (or empty) means the date of `now`. */
    method LogTime(phase: Phase, minutes: int, date: Option<int>, now: int)
      requires Valid()
      modifies this`dailyStats
      ensures Valid()
      ensures dailyStats == Logged(old(dailyStats), phase, minutes, date.GetOr(DateOf(now)))
    {
      var d := date.GetOr(DateOf(now));
      dailyStats := dailyStats[d := Lookup(dailyStats, d).AddTo(phase, minutes)];
    }

    /** endSession: log the open session's whole minutes to its phase on the
        date of `now`, then clear the slot whether or not it was open. */
    method EndSession(now: int)
      requires Valid()
      modifies this`dailyStats, this`currentSessionStart, this`currentPhase
      ensures Valid()
      ensures currentSessionStart == None && currentPhase == None
      ensures SessionOpen(old(currentSessionStart), old(currentPhase)) ==>
        dailyStats == Logged(old(dailyStats), old(currentPhase).value,
                             ElapsedMinutes(old(currentSessionStart).value, now), DateOf(now))
      ensures !SessionOpen(old(currentSessionStart), old(currentPhase)) ==>
        dailyStats == old(dailyStats)
    {
      if SessionOpen(currentSessionStart, currentPhase) {
        var duration := ElapsedMinutes(currentSessionStart.value, now);
        LogTime(currentPhase.value, duration, None, now);
      }
      currentSessionStart := None;
      currentPhase := None;
    }

    /** resetStatistics: back to initialState. */
    method ResetStatistics()
      modifies this
      ensures Valid()
      ensures totalCycles == 0 && dailyStats == map[]
      ensures currentSessionStart == None && currentPhase == None
    {
      totalCycles := 0;
      dailyStats := map[];
      currentSessionStart := None;
      currentPhase := None;
    }

    /** getDailyData: the stored record or a zero record, always for `date`. */
    function GetDailyData(date: int): (r: DailyStats)
      requires Valid()
      reads this
      ensures r.date == date
      ensures date in dailyStats ==> r == dailyStats[date]
      ensures date !in dailyStats ==> forall p :: r.Minutes(p) == 0
    {
      Lookup(dailyStats, date)
    }

    /** getWeeklyData: the seven records, Monday first, of the week
        `weekOffset` weeks from the week of `now`. */
    method GetWeeklyData(weekOffset: int, now: int) returns (w: WeeklyStats)
      requires Valid()
      ensures w.weekStart == TargetWeekStart(weekOffset, now)
      ensures w.days == RecordsFrom(dailyStats, w.weekStart, 7)
      ensures |w.days| == 7 && w.days[0].date == w.weekStart
      ensures forall i :: 0 <= i < 7 ==> w.days[i].date == w.weekStart + i
      ensures forall i :: 0 <= i < 7 ==> WeekStart(w.days[i].date) == w.weekStart
    {
      var ws := TargetWeekStart(weekOffset, now);
      var dates := GetWeekDates(ws);
      var ledger := dailyStats;
      var days := seq(7, i requires 0 <= i < 7 => Lookup(ledger, dates[i]));
      w := WeeklyStats(ws, days);
      forall i | 0 <= i < 7 ensures WeekStart(w.days[i].date) == w.weekStart {
        WeekStartUnique(ws + i, ws);
      }
    }

    /** getTotalTimeByPhase: each phase summed over every stored record. */
    method GetTotalTimeByPhase() returns (t: Totals)
      ensures forall p :: t.Minutes(p) == Total(dailyStats, p)
    {
      t := Totals(0, 0, 0);
      var rest := dailyStats;
      while rest != map[]
        invariant forall p :: t.Minutes(p) + Total(rest, p) == Total(dailyStats, p)
        decreases rest.Keys
      {
        HasKey(rest);
        var d :| d in rest;
        forall p ensures Total(rest, p) == rest[d].Minutes(p) + Total(rest - {d}, p) {
          TotalRemove(rest, d, p);
        }
        t := t.Add(rest[d]);
        rest := rest - {d};
      }
    }

    /** getWeeklyTimeByPhase: each phase summed over the week's seven
        records, which is the sum over the stored records dated in that week. */
    method GetWeeklyTimeByPhase(weekOffset: int, now: int) returns (t: Totals)
      requires Valid()
      ensures forall p :: t.Minutes(p) == Total(Within(dailyStats, TargetWeekStart(weekOffset, now), 7), p)
    {
      var weekly := GetWeeklyData(weekOffset, now);
      t := Totals(0, 0, 0);
      var i := 0;
      while i < |weekly.days|
        invariant 0 <= i <= |weekly.days|
        invariant forall p :: t.Minutes(p) == SumDays(weekly.days[..i], p)
      {
        assert weekly.days[..i + 1][..i] == weekly.days[..i];
        t := t.Add(weekly.days[i]);
        i := i + 1;
      }
      assert weekly.days[..i] == weekly.days;
      forall p ensures t.Minutes(p) == Total(Within(dailyStats, weekly.weekStart, 7), p) {
        SumDaysWithin(dailyStats, weekly.weekStart, 7, p);
      }
    }
  }

  /** endSession twice in a row logs the session once: the second call finds
      the slot empty. */
  method EndSessionTwice(s: Statistics, now1: int, now2: int)
    requires s.Valid() && SessionOpen(s.currentSessionStart, s.currentPhase)
    modifies s
    ensures s.Valid() && s.currentSessionStart == None
    ensures s.dailyStats == Logged(old(s.dailyStats), old(s.currentPhase).value,
                                   ElapsedMinutes(old(s.currentSessionStart).value, now1), DateOf(now1))
  {
    s.EndSession(now1);
    s.EndSession(now2);
  }
}
