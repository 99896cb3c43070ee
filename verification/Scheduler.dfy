/** The ticker's decision core (agent/scheduler.go): three jobs, each with its own stamp, over
    any nondecreasing sequence of ticks.  Times are whole seconds of one local clock. */
module Schedules {
  import opened Seqs

  const DAY := 86400
  const HOUR := 3600
  const RISK_EVERY := 4 * HOUR
  const REPORT_HOUR := 21

  datatype Stamps = Stamps(lastReportDay: Option<int>, lastCheckAt: Option<int>, lastCleanupHour: int)

  datatype Jobs = Jobs(daily: bool, cleanup: bool, risk: bool)

  /** lastCleanupHour is -1 until the first tick; the zero check time is before every tick. */
  const FRESH := Stamps(None, None, -1)

  function DayOf(t: int): int { t / DAY }

  function HourOf(t: int): int { t % DAY / HOUR }

  /** Hours since the epoch, never repeating. */
  function AbsoluteHour(t: int): int { t / HOUR }

  predicate Evening(t: int) { HourOf(t) >= REPORT_HOUR }

  /** The jobs schedulerStep starts. */
  function JobsAt(st: Stamps, now: int): Jobs {
    Jobs(
      Evening(now) && st.lastReportDay != Some(DayOf(now)),
      HourOf(now) != st.lastCleanupHour,
      st.lastCheckAt.None? || now - st.lastCheckAt.value > RISK_EVERY)
  }

  /** The stamps it leaves. */
  function StampsAfter(st: Stamps, now: int): Stamps {
    var jobs := JobsAt(st, now);
    Stamps(
      if jobs.daily then Some(DayOf(now)) else st.lastReportDay,
      if jobs.risk then Some(now) else st.lastCheckAt,
      HourOf(now))
  }

  function After(ticks: seq<int>): Stamps {
    if ticks == [] then FRESH else StampsAfter(After(ticks[..|ticks| - 1]), ticks[|ticks| - 1])
  }

  /** The jobs of the i-th tick of a run. */
  function Ran(ticks: seq<int>, i: nat): Jobs
    requires i < |ticks|
  {
    JobsAt(After(ticks[..i]), ticks[i])
  }

  predicate Nondecreasing(ticks: seq<int>) {
    forall i, j :: 0 <= i <= j < |ticks| ==> ticks[i] <= ticks[j]
  }

  /** The stamps of a running scheduler, updated in place. */
  class Ticker {
    var lastReportDay: Option<int>
    var lastCheckAt: Option<int>
    var lastCleanupHour: int
    ghost var ticks: seq<int>

    ghost predicate Valid()
      reads this
    {
      Stamps(lastReportDay, lastCheckAt, lastCleanupHour) == After(ticks)
    }

    constructor ()
      ensures Valid() && ticks == []
    {
      lastReportDay, lastCheckAt, lastCleanupHour, ticks := None, None, -1, [];
    }

    /** schedulerStep. */
    method Step(now: int) returns (daily: bool, cleanup: bool, risk: bool)
      requires Valid()
      modifies this
      ensures Valid() && ticks == old(ticks) + [now]
      ensures Jobs(daily, cleanup, risk) == Ran(ticks, |old(ticks)|)
    {
      daily, cleanup, risk := false, false, false;
      var day := DayOf(now);
      if HourOf(now) >= REPORT_HOUR && lastReportDay != Some(day) {
        daily := true;
        lastReportDay := Some(day);
      }
      if lastCheckAt.None? || now - lastCheckAt.value > RISK_EVERY {
        risk := true;
        lastCheckAt := Some(now);
      }
      if HourOf(now) != lastCleanupHour {
        cleanup := true;
        lastCleanupHour := HourOf(now);
      }
      assert (ticks + [now])[..|ticks|] == ticks;
      ticks := ticks + [now];
    }
  }

  lemma Unfold(ticks: seq<int>)
    requires ticks != []
    ensures After(ticks) == StampsAfter(After(ticks[..|ticks| - 1]), ticks[|ticks| - 1])
  {
  }

  // --------------------------------------------------------------- daily report

  /** The report stamp is the day of some evening tick and no evening tick is later. */
  predicate ReportStamp(ticks: seq<int>, stamp: Option<int>) {
    && (stamp.None? ==> forall j :: 0 <= j < |ticks| ==> !Evening(ticks[j]))
    && (stamp.Some? ==>
          && (exists j :: 0 <= j < |ticks| && Evening(ticks[j]) && DayOf(ticks[j]) == stamp.value)
          && (forall j :: 0 <= j < |ticks| && Evening(ticks[j]) ==> DayOf(ticks[j]) <= stamp.value))
  }

  lemma DayMonotone(a: int, b: int)
    requires a <= b
    ensures DayOf(a) <= DayOf(b) && AbsoluteHour(a) <= AbsoluteHour(b)
  {
  }

  lemma {:induction false} ReportStampHolds(ticks: seq<int>)
    requires Nondecreasing(ticks)
    ensures ReportStamp(ticks, After(ticks).lastReportDay)
  {
    hide DayOf, HourOf;
    if ticks != [] {
      var front, now := ticks[..|ticks| - 1], ticks[|ticks| - 1];
      ReportStampHolds(front);
      forall j | 0 <= j < |front|
        ensures ticks[j] == front[j] && DayOf(front[j]) <= DayOf(now)
      {
        DayMonotone(front[j], now);
      }
    }
  }

  /** Evening begins at 21:00 and lasts to midnight. */
  lemma EveningBegins(t: int)
    ensures Evening(t) <==> t % 86400 >= 75600
    ensures DayOf(t) == t / 86400
  {
  }

  /** The report runs on exactly the first tick of each day from 21:00 on. */
  lemma ReportOnFirstEveningTick(ticks: seq<int>, i: nat)
    requires Nondecreasing(ticks) && i < |ticks|
    ensures Ran(ticks, i).daily <==>
            Evening(ticks[i]) && forall j :: 0 <= j < i && Evening(ticks[j]) ==> DayOf(ticks[j]) != DayOf(ticks[i])
    ensures Ran(ticks, i).daily <==>
            && ticks[i] % 86400 >= 75600
            && forall j :: 0 <= j < i && ticks[j] % 86400 >= 75600 ==> ticks[j] / 86400 != ticks[i] / 86400
  {
    hide DayOf, HourOf, Evening, After;
    var before := ticks[..i];
    ReportStampHolds(before);
    forall j | 0 <= j <= i
      ensures (Evening(ticks[j]) <==> ticks[j] % 86400 >= 75600) && DayOf(ticks[j]) == ticks[j] / 86400
    {
      EveningBegins(ticks[j]);
    }
    forall j | 0 <= j < i
      ensures before[j] == ticks[j] && DayOf(ticks[j]) <= DayOf(ticks[i])
    {
      DayMonotone(ticks[j], ticks[i]);
    }
  }

  /** Every day with an evening tick gets its report, by that tick, and no second one. */
  lemma {:induction false} OneReportPerDay(ticks: seq<int>, k: nat)
    requires Nondecreasing(ticks) && k < |ticks| && Evening(ticks[k])
    ensures exists i :: 0 <= i <= k && Ran(ticks, i).daily && DayOf(ticks[i]) == DayOf(ticks[k])
    ensures forall i, j :: 0 <= i < j < |ticks| && Ran(ticks, i).daily && Ran(ticks, j).daily ==>
              DayOf(ticks[i]) != DayOf(ticks[j])
    decreases k
  {
    hide DayOf, HourOf, Ran;
    ReportOnFirstEveningTick(ticks, k);
    if !Ran(ticks, k).daily {
      var j :| 0 <= j < k && Evening(ticks[j]) && DayOf(ticks[j]) == DayOf(ticks[k]);
      OneReportPerDay(ticks, j);
    }
    forall i, j | 0 <= i < j < |ticks| && Ran(ticks, i).daily && Ran(ticks, j).daily
      ensures DayOf(ticks[i]) != DayOf(ticks[j])
    {
      ReportOnFirstEveningTick(ticks, i);
      ReportOnFirstEveningTick(ticks, j);
    }
  }

  // ----------------------------------------------------------------- risk check

  lemma RanPrefix(ticks: seq<int>, n: nat)
    requires n <= |ticks|
    ensures forall k :: 0 <= k < n ==> Ran(ticks[..n], k) == Ran(ticks, k)
  {
    hide JobsAt, After;
    forall k | 0 <= k < n
      ensures Ran(ticks[..n], k) == Ran(ticks, k)
    {
      assert ticks[..n][..k] == ticks[..k];
    }
  }

  /** The check stamp is the last tick that ran the check; no later tick is more than four hours on. */
  lemma {:induction false} CheckStamp(ticks: seq<int>) returns (j: nat)
    requires ticks != []
    ensures j < |ticks| && Ran(ticks, j).risk && After(ticks).lastCheckAt == Some(ticks[j])
    ensures forall k :: j < k < |ticks| ==> !Ran(ticks, k).risk && ticks[k] - ticks[j] <= 14400
  {
    hide DayOf, HourOf, Evening;
    var n := |ticks| - 1;
    var front := ticks[..n];
    Unfold(ticks);
    if Ran(ticks, n).risk {
      j := n;
    } else {
      assert front != [];
      j := CheckStamp(front);
      RanPrefix(ticks, n);
    }
  }

  /** Consecutive checks are more than four hours apart, and at most four hours plus the last
      gap between ticks; the first tick always checks. */
  lemma RiskSpacing(ticks: seq<int>, i: nat, j: nat)
    requires i < j < |ticks| && Ran(ticks, i).risk && Ran(ticks, j).risk
    requires forall k :: i < k < j ==> !Ran(ticks, k).risk
    ensures Ran(ticks, 0).risk
    ensures ticks[j] - ticks[i] > 14400
    ensures ticks[j] - ticks[i] <= 14400 + (ticks[j] - ticks[j - 1])
  {
    hide DayOf, HourOf, After;
    var before := ticks[..j];
    var last := CheckStamp(before);
    RanPrefix(ticks, j);
    assert last == i;
    FirstTickChecks(ticks);
  }

  lemma FirstTickChecks(ticks: seq<int>)
    requires ticks != []
    ensures Ran(ticks, 0).risk
  {
  }

  /** In any run every tick is within four hours of the last check before or at it. */
  lemma NeverUncheckedForLong(ticks: seq<int>, k: nat)
    requires k < |ticks|
    ensures exists j :: 0 <= j <= k && Ran(ticks, j).risk && (j < k ==> ticks[k] - ticks[j] <= 14400)
  {
    hide After;
    var upTo := ticks[..k + 1];
    var j := CheckStamp(upTo);
    assert upTo[..j] == ticks[..j];
  }

  // -------------------------------------------------------------------- cleanup

  lemma CleanupOnHourChange(ticks: seq<int>, i: nat)
    requires i < |ticks|
    ensures Ran(ticks, i).cleanup <==> i == 0 || HourOf(ticks[i]) != HourOf(ticks[i - 1])
  {
    hide DayOf;
    if i > 0 {
      Unfold(ticks[..i]);
    }
  }

  /** No earlier tick of the same absolute hour. */
  predicate FirstOfHour(ticks: seq<int>, i: nat)
    requires i < |ticks|
  {
    forall j :: 0 <= j < i ==> AbsoluteHour(ticks[j]) != AbsoluteHour(ticks[i])
  }

  /** A tick in a new absolute hour also shows a new hour of the day. */
  predicate ShowsNewHour(ticks: seq<int>, i: nat)
    requires i < |ticks|
  {
    i > 0 && AbsoluteHour(ticks[i]) != AbsoluteHour(ticks[i - 1]) ==>
      (AbsoluteHour(ticks[i]) - AbsoluteHour(ticks[i - 1])) % 24 != 0
  }

  /** No two neighbouring ticks are a whole number of days of hours apart. */
  predicate NoHourSkippedFullCircle(ticks: seq<int>) {
    forall i :: 0 <= i < |ticks| ==> ShowsNewHour(ticks, i)
  }

  lemma QuotientUnique(t: int, k: int, m: int)
    requires t == HOUR * k + m && 0 <= m < HOUR
    ensures t / HOUR == k
  {
  }

  lemma HourOfIsModulo(t: int)
    ensures HourOf(t) == AbsoluteHour(t) % 24
  {
    var q, r := t / DAY, t % DAY;
    var h, m := r / HOUR, r % HOUR;
    assert t == HOUR * (24 * q + h) + m;
    QuotientUnique(t, 24 * q + h, m);
    assert 0 <= h < 24;
  }

  lemma SameRemainder(a: int, b: int)
    ensures a % 24 == b % 24 <==> (b - a) % 24 == 0
  {
  }

  lemma HoursAgree(a: int, b: int)
    ensures HourOf(a) == HourOf(b) <==> (AbsoluteHour(b) - AbsoluteHour(a)) % 24 == 0
  {
    hide HourOf, AbsoluteHour;
    HourOfIsModulo(a);
    HourOfIsModulo(b);
    SameRemainder(AbsoluteHour(a), AbsoluteHour(b));
  }

  lemma FirstOfHourLocal(ticks: seq<int>, i: nat)
    requires Nondecreasing(ticks) && i < |ticks|
    ensures FirstOfHour(ticks, i) <==> i == 0 || AbsoluteHour(ticks[i]) != AbsoluteHour(ticks[i - 1])
  {
    hide AbsoluteHour;
    if i > 0 {
      forall j | 0 <= j < i
        ensures AbsoluteHour(ticks[j]) <= AbsoluteHour(ticks[i - 1]) <= AbsoluteHour(ticks[i])
      {
        DayMonotone(ticks[j], ticks[i - 1]);
        DayMonotone(ticks[i - 1], ticks[i]);
      }
    }
  }

  /** Cleanup runs exactly once, on the first tick, in every absolute hour that has one, exactly
      when no two neighbouring ticks are a whole number of days of hours apart. */
  lemma CleanupOncePerHourIff(ticks: seq<int>)
    requires Nondecreasing(ticks)
    ensures (forall i :: 0 <= i < |ticks| ==> (Ran(ticks, i).cleanup <==> FirstOfHour(ticks, i))) <==>
              NoHourSkippedFullCircle(ticks)
  {
    hide HourOf, AbsoluteHour, FirstOfHour, Ran;
    forall i | 0 <= i < |ticks|
      ensures (Ran(ticks, i).cleanup <==> FirstOfHour(ticks, i)) <==> ShowsNewHour(ticks, i)
    {
      CleanupOnHourChange(ticks, i);
      FirstOfHourLocal(ticks, i);
      if i > 0 {
        HoursAgree(ticks[i - 1], ticks[i]);
      }
    }
  }

  /** Gaps of at most 23 hours are enough. */
  lemma ShortGapsSuffice(ticks: seq<int>)
    requires Nondecreasing(ticks)
    requires forall i :: 0 < i < |ticks| ==> ticks[i] - ticks[i - 1] <= 82800
    ensures NoHourSkippedFullCircle(ticks)
  {
  }

  /** A gap one second longer can lose an hour's cleanup. */
  lemma LongerGapLosesCleanup()
    ensures var ticks := [3599, 3599 + 82801];
            FirstOfHour(ticks, 1) && !Ran(ticks, 1).cleanup
  {
    var ticks := [3599, 3599 + 82801];
    CleanupOnHourChange(ticks, 1);
    assert HourOf(ticks[0]) == 0 && HourOf(ticks[1]) == 0;
    assert AbsoluteHour(ticks[0]) == 0 && AbsoluteHour(ticks[1]) == 24;
  }
}
