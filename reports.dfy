/** The reports screen: the data behind its three charts, built from the backend's reports.
    Days are whole UTC days since the epoch (`t / 86400000`); January 1, 1970 was a Thursday. */
module Reports {
  import opened Wrappers
  import opened Lists
  import opened Records

  /** The labels and the data series of one chart. */
  datatype Chart<T> = Chart(labels: seq<string>, data: seq<T>)

  /** One entry of the pending-work table (`{ status, count, time }`). */
  datatype StatusStat = StatusStat(status: string, count: nat, time: real)

  datatype ClosedReport = ClosedReport(byTeam: seq<(string, nat)>, byProject: seq<(string, nat)>, byOwner: seq<(string, nat)>)

  datatype ClosedCharts = ClosedCharts(team: Chart<nat>, project: Chart<nat>, owner: Chart<nat>)

  /** The three reports; each is `None` until loaded (`null` in the screen's state). */
  datatype ReportSet = ReportSet(lastWeek: Option<seq<Task>>, pending: Option<seq<Task>>, closedTasks: Option<ClosedReport>)

  /** The statuses that count as pending work, in chart order. */
  const PendingStatuses := [ToDo, InProgress, Blocked]

  /** The number of `tasks` with status `s`. */
  function CountStatus(tasks: seq<Task>, s: string): nat {
    Count(tasks, HasStatus(s))
  }

  /** The total `timeToComplete` of the `tasks` with status `s`, accumulated from first to last. */
  function TimeWithStatus(tasks: seq<Task>, s: string): real {
    if tasks == [] then 0.0
    else
      var last := tasks[|tasks| - 1];
      TimeWithStatus(tasks[..|tasks| - 1], s) + (if last.status == s then last.timeToComplete else 0.0)
  }

  /** `statusData.find(s => s.status === status)`: the slot of a pending status. */
  function SlotOf(status: string): (r: Option<nat>)
    ensures r.None? <==> status !in PendingStatuses
    ensures r.Some? ==> r.value < |PendingStatuses| && PendingStatuses[r.value] == status
  {
    if status == ToDo then Some(0)
    else if status == InProgress then Some(1)
    else if status == Blocked then Some(2)
    else None
  }

  /** The entry of slot `j` after the tasks `tasks` were counted. */
  function Tally(tasks: seq<Task>, j: nat): StatusStat
    requires j < |PendingStatuses|
  {
    StatusStat(PendingStatuses[j], CountStatus(tasks, PendingStatuses[j]), TimeWithStatus(tasks, PendingStatuses[j]))
  }

  /** The three entries after the tasks `tasks` were counted. */
  function Tallies(tasks: seq<Task>): seq<StatusStat> {
    [Tally(tasks, 0), Tally(tasks, 1), Tally(tasks, 2)]
  }

  /** `found.count++; found.time += task.timeToComplete`. */
  function Bump(stat: StatusStat, task: Task): StatusStat {
    stat.(count := stat.count + 1, time := stat.time + task.timeToComplete)
  }

  /** Counting one more task bumps the entry of its status, if it has one, and leaves the rest. */
  lemma TallyStep(tasks: seq<Task>, task: Task, j: nat)
    requires j < |PendingStatuses|
    ensures Tally(tasks + [task], j) ==
      if task.status == PendingStatuses[j] then Bump(Tally(tasks, j), task) else Tally(tasks, j)
  {
    assert (tasks + [task])[..|tasks|] == tasks;
    FilterAppend(tasks, [task], HasStatus(PendingStatuses[j]));
  }

  lemma TalliesStep(tasks: seq<Task>, task: Task)
    ensures Tallies(tasks + [task]) == match SlotOf(task.status)
      case None => Tallies(tasks)
      case Some(j) => Tallies(tasks)[j := Bump(Tallies(tasks)[j], task)]
  {
    var before, after := Tallies(tasks), Tallies(tasks + [task]);
    TallyStep(tasks, task, 0);
    TallyStep(tasks, task, 1);
    TallyStep(tasks, task, 2);
    match SlotOf(task.status)
    case None =>
      assert after == [before[0], before[1], before[2]] == before;
    case Some(j) =>
      assert after == before[j := Bump(before[j], task)] by {
        assert |after| == |before| == 3;
        forall i | 0 <= i < 3 ensures after[i] == before[j := Bump(before[j], task)][i] {
          assert after[i] == Tally(tasks + [task], i) && before[i] == Tally(tasks, i);
        }
      }
  }

  /** The `forEach` of `getPendingWorkChartData`: one pass over the tasks, bumping the count and
      the time of the entry whose status matches; other statuses are skipped. */
  method PendingStats(tasks: seq<Task>) returns (stats: seq<StatusStat>)
    ensures stats == Tallies(tasks)
  {
    var statusData := new StatusStat[3];
    statusData[0] := StatusStat(ToDo, 0, 0.0);
    statusData[1] := StatusStat(InProgress, 0, 0.0);
    statusData[2] := StatusStat(Blocked, 0, 0.0);
    var k := 0;
    while k < |tasks|
      invariant 0 <= k <= |tasks|
      invariant statusData[..] == Tallies(tasks[..k])
    {
      var task := tasks[k];
      assert tasks[..k + 1] == tasks[..k] + [task];
      TalliesStep(tasks[..k], task);
      var slot := SlotOf(task.status);
      if slot.Some? {
        var j := slot.value;
        statusData[j] := Bump(statusData[j], task);
      }
      k := k + 1;
    }
    assert tasks[..k] == tasks;
    stats := statusData[..];
  }

  /** `getPendingWorkChartData()`: nothing without a report, otherwise the pending statuses as
      labels and the days of work with each status as data. */
  method PendingWorkChart(pending: Option<seq<Task>>) returns (chart: Option<Chart<real>>)
    ensures chart.None? <==> pending.None?
    ensures chart.Some? ==> chart.value.labels == PendingStatuses
    ensures chart.Some? ==> |chart.value.data| == |PendingStatuses|
    ensures chart.Some? ==> forall j :: 0 <= j < |PendingStatuses| ==>
      chart.value.data[j] == TimeWithStatus(pending.value, PendingStatuses[j])
  {
    if pending.None? {
      return None;
    }
    var stats := PendingStats(pending.value);
    chart := Some(Chart([stats[0].status, stats[1].status, stats[2].status], [stats[0].time, stats[1].time, stats[2].time]));
  }

  /** The task is pending: its status is one of the three chart statuses. */
  function IsPending(): Task -> bool { (t: Task) => t.status in PendingStatuses }

  /** Tasks with any other status contribute nothing: dropping them leaves every count and time alone. */
  lemma {:induction false} OtherStatusesIgnored(tasks: seq<Task>, s: string)
    requires s in PendingStatuses
    ensures CountStatus(Filter(tasks, IsPending()), s) == CountStatus(tasks, s)
    ensures TimeWithStatus(Filter(tasks, IsPending()), s) == TimeWithStatus(tasks, s)
  {
    FilterTwice(tasks, IsPending(), HasStatus(s), HasStatus(s));
    TimeIgnoresOthers(tasks, s);
  }

  lemma {:induction false} TimeIgnoresOthers(tasks: seq<Task>, s: string)
    requires s in PendingStatuses
    ensures TimeWithStatus(Filter(tasks, IsPending()), s) == TimeWithStatus(tasks, s)
  {
    if tasks != [] {
      var init, last := tasks[..|tasks| - 1], tasks[|tasks| - 1];
      assert tasks == init + [last];
      TimeIgnoresOthers(init, s);
      FilterAppend(init, [last], IsPending());
      var kept := Filter(init, IsPending());
      if last.status in PendingStatuses {
        assert Filter([last], IsPending()) == [last];
        assert (kept + [last])[..|kept|] == kept;
      } else {
        assert Filter([last], IsPending()) == [];
        assert kept + [] == kept;
      }
    }
  }

  /** Every pending task lands in exactly one entry: the three counts add up to the pending tasks. */
  lemma PendingCountsAddUp(tasks: seq<Task>)
    ensures CountStatus(tasks, ToDo) + CountStatus(tasks, InProgress) + CountStatus(tasks, Blocked) ==
      Count(tasks, IsPending())
  {
    var early: Task -> bool := (t: Task) => t.status == ToDo || t.status == InProgress;
    CountDisjointUnion(tasks, HasStatus(ToDo), HasStatus(InProgress), early);
    CountDisjointUnion(tasks, early, HasStatus(Blocked), IsPending());
  }

  /** With no negative durations, no entry shows negative work. */
  lemma {:induction false} TimeNonNegative(tasks: seq<Task>, s: string)
    requires forall t :: t in tasks ==> t.timeToComplete >= 0.0
    ensures TimeWithStatus(tasks, s) >= 0.0
  {
    if tasks != [] {
      assert tasks[|tasks| - 1] in tasks;
      assert forall t :: t in tasks[..|tasks| - 1] ==> t in tasks;
      TimeNonNegative(tasks[..|tasks| - 1], s);
    }
  }

  const DayMillis := 86400000

  const DayNames := ["Sun", "Mon", "Tue", "Wed", "Thu", "Fri", "Sat"]

  /** The day an instant falls on. */
  function DayOf(instant: int): int {
    instant / DayMillis
  }

  /** `date.getDay()`: the weekday of a day, Sunday being 0. */
  function Weekday(day: int): (w: nat)
    ensures w < 7
  {
    (day + 4) % 7
  }

  /** The day of bucket `k` of the chart drawn at `now`: bucket 6 is today. */
  function BucketDay(now: int, k: int): int {
    DayOf(now) - 6 + k
  }

  /** The task was last updated on `day`. */
  function UpdatedOn(day: int): Task -> bool { (t: Task) => DayOf(t.updatedAt) == day }

  /** The task was last updated on one of the days `lo, ..., hi - 1`. */
  function UpdatedIn(lo: int, hi: int): Task -> bool { (t: Task) => lo <= DayOf(t.updatedAt) < hi }

  /** The counting loop of `getLastWeekChartData`: seven buckets, from six days before `now` to
      the day of `now`, each labelled with its weekday and holding the tasks updated that day. */
  method LastWeekChart(lastWeek: Option<seq<Task>>, now: int) returns (chart: Option<Chart<nat>>)
    ensures chart.None? <==> lastWeek.None?
    ensures chart.Some? ==> |chart.value.labels| == 7 && |chart.value.data| == 7
    ensures chart.Some? ==> forall k :: 0 <= k < 7 ==>
      chart.value.labels[k] == DayNames[Weekday(BucketDay(now, k))] &&
      chart.value.data[k] == Count(lastWeek.value, UpdatedOn(BucketDay(now, k)))
  {
    if lastWeek.None? {
      return None;
    }
    var tasks := lastWeek.value;
    var today := DayOf(now);
    var labels: seq<string> := [];
    var data: seq<nat> := [];
    var i := 6;
    while i >= 0
      invariant -1 <= i <= 6
      invariant |labels| == |data| == 6 - i
      invariant forall k :: 0 <= k < 6 - i ==>
        labels[k] == DayNames[Weekday(BucketDay(now, k))] && data[k] == Count(tasks, UpdatedOn(BucketDay(now, k)))
    {
      var date := today - i;
      labels := labels + [DayNames[Weekday(date)]];
      data := data + [Count(tasks, UpdatedOn(date))];
      i := i - 1;
    }
    chart := Some(Chart(labels, data));
  }

  /** The last bucket is today, and consecutive buckets are consecutive weekdays, so the seven
      labels name every weekday once. */
  lemma WeekLabels(now: int)
    ensures BucketDay(now, 6) == DayOf(now)
    ensures forall k :: 0 <= k < 6 ==> Weekday(BucketDay(now, k + 1)) == (Weekday(BucketDay(now, k)) + 1) % 7
    ensures forall k, l :: 0 <= k < l < 7 ==> Weekday(BucketDay(now, k)) != Weekday(BucketDay(now, l))
  {
    forall k | 0 <= k < 6 ensures Weekday(BucketDay(now, k + 1)) == (Weekday(BucketDay(now, k)) + 1) % 7 {
      NextWeekday(BucketDay(now, k));
    }
    forall k, l | 0 <= k < l < 7 ensures Weekday(BucketDay(now, k)) != Weekday(BucketDay(now, l)) {
      WeekdaysDiffer(BucketDay(now, k), l - k);
    }
  }

  lemma NextWeekday(day: int)
    ensures Weekday(day + 1) == (Weekday(day) + 1) % 7
  {
    var q, r := (day + 4) / 7, (day + 4) % 7;
    assert day + 4 == 7 * q + r;
    if r < 6 {
      assert day + 1 + 4 == 7 * q + (r + 1);
    } else {
      assert day + 1 + 4 == 7 * (q + 1) + 0;
    }
  }

  lemma WeekdaysDiffer(day: int, gap: int)
    requires 0 < gap < 7
    ensures Weekday(day) != Weekday(day + gap)
  {
    var q, r := (day + 4) / 7, (day + 4) % 7;
    assert day + 4 == 7 * q + r;
    if r + gap < 7 {
      assert day + gap + 4 == 7 * q + (r + gap);
    } else {
      assert day + gap + 4 == 7 * (q + 1) + (r + gap - 7);
    }
  }

  function Sum(s: seq<nat>): nat {
    if s == [] then 0 else Sum(s[..|s| - 1]) + s[|s| - 1]
  }

  /** The chart's buckets together hold exactly the tasks updated during the seven days. */
  lemma WeekTotal(tasks: seq<Task>, now: int, data: seq<nat>)
    requires |data| == 7
    requires forall k :: 0 <= k < 7 ==> data[k] == Count(tasks, UpdatedOn(BucketDay(now, k)))
    ensures Sum(data) == Count(tasks, UpdatedIn(DayOf(now) - 6, DayOf(now) + 1))
  {
    BucketsTotal(tasks, DayOf(now) - 6, data);
  }

  lemma {:induction false} BucketsTotal(tasks: seq<Task>, lo: int, data: seq<nat>)
    requires forall k :: 0 <= k < |data| ==> data[k] == Count(tasks, UpdatedOn(lo + k))
    ensures Sum(data) == Count(tasks, UpdatedIn(lo, lo + |data|))
  {
    var n := |data|;
    if n == 0 {
      FilterEmpty(tasks, UpdatedIn(lo, lo));
    } else {
      var init := data[..n - 1];
      BucketsTotal(tasks, lo, init);
      CountDisjointUnion(tasks, UpdatedIn(lo, lo + n - 1), UpdatedOn(lo + n - 1), UpdatedIn(lo, lo + n));
    }
  }

  /** `entries.map(([name]) => name)` and `entries.map(([, count]) => count)` as one chart. */
  function ClosedChart(entries: seq<(string, nat)>): (c: Chart<nat>)
    ensures |c.labels| == |entries| && |c.data| == |entries|
    ensures forall i :: 0 <= i < |entries| ==> (c.labels[i], c.data[i]) == entries[i]
  {
    if entries == [] then Chart([], [])
    else
      var rest := ClosedChart(entries[1..]);
      Chart([entries[0].0] + rest.labels, [entries[0].1] + rest.data)
  }

  /** Pairing the labels with the data gives the entries back. */
  function Zip(labels: seq<string>, data: seq<nat>): (r: seq<(string, nat)>)
    requires |labels| == |data|
    ensures |r| == |labels| && forall i :: 0 <= i < |r| ==> r[i] == (labels[i], data[i])
  {
    if labels == [] then [] else [(labels[0], data[0])] + Zip(labels[1..], data[1..])
  }

  lemma ClosedChartZips(entries: seq<(string, nat)>)
    ensures var c := ClosedChart(entries); Zip(c.labels, c.data) == entries
  {
  }

  /** `getClosedTasksChartData()`: nothing without a report, otherwise one chart per grouping. */
  function ClosedTasksCharts(closed: Option<ClosedReport>): (r: Option<ClosedCharts>)
    ensures r.None? <==> closed.None?
    ensures r.Some? ==> r.value.team == ClosedChart(closed.value.byTeam)
    ensures r.Some? ==> r.value.project == ClosedChart(closed.value.byProject)
    ensures r.Some? ==> r.value.owner == ClosedChart(closed.value.byOwner)
  {
    match closed
    case None => None
    case Some(c) => Some(ClosedCharts(ClosedChart(c.byTeam), ClosedChart(c.byProject), ClosedChart(c.byOwner)))
  }

  /** The screen's state: the three reports and the load error. */
  class ReportsState {
    var reports: ReportSet
    var error: string

    constructor ()
      ensures reports == ReportSet(None, None, None) && error == ""
    {
      reports := ReportSet(None, None, None);
      error := "";
    }

    /** `loadReports` once the three requests settled: all three reports, or the error message. */
    method LoadReports(fetched: Result<(seq<Task>, seq<Task>, ClosedReport)>)
      modifies this
      ensures fetched.Ok? ==>
        reports == ReportSet(Some(fetched.value.0), Some(fetched.value.1), Some(fetched.value.2)) && error == old(error)
      ensures fetched.Err? ==> reports == old(reports) && error == "Failed to load reports"
    {
      match fetched {
        case Ok((lastWeek, pending, closed)) =>
          reports := ReportSet(Some(lastWeek), Some(pending), Some(closed));
        case Err(_) =>
          error := "Failed to load reports";
      }
    }
  }
}
