/** The dashboard's Gantt chart data: one bar per project, system, subsystem
    and ITR, the colour of each status, and the status tabs' filter. */
module GanttChart {
  import opened Wrappers
  import opened Entities
  import Seqs

  const CompletedColor := "#14B8A6"
  const InProgressColor := "#0E9DE9"
  const PendingColor := "#FFB020"
  const DelayedColor := "#D14343"
  const DefaultColor := "#CBD5E1"

  /** `getStatusColor`: both spellings of completed and of in progress share
      a colour; any status not listed gets the default grey. */
  function StatusColor(status: string): (c: string)
    ensures status == "completed" || status == "complete" ==> c == CompletedColor
    ensures status == "in-progress" || status == "inprogress" ==> c == InProgressColor
    ensures status == "pending" ==> c == PendingColor
    ensures status == "delayed" ==> c == DelayedColor
    ensures c == DefaultColor <==>
      status !in {"completed", "complete", "in-progress", "inprogress", "pending", "delayed"}
  {
    match status
    case "completed" => CompletedColor
    case "complete" => CompletedColor
    case "in-progress" => InProgressColor
    case "inprogress" => InProgressColor
    case "pending" => PendingColor
    case "delayed" => DelayedColor
    case _ => DefaultColor
  }

  /** The chart's time window (a month back, five months ahead), given as timestamps. */
  datatype Window = Window(start: Timestamp, end: Timestamp)

  datatype Task = Task(name: string, start: Timestamp, end: Timestamp, completion: int, status: string)

  datatype ChartEntry = ChartEntry(name: string, start: Timestamp, duration: int, end: Timestamp,
                                   completion: int, status: string)

  /** A missing date falls back to the window's edge. */
  function OrDefault(date: Option<Timestamp>, fallback: Timestamp): (r: Timestamp)
    ensures date.Some? ==> r == date.value
    ensures date.None? ==> r == fallback
  {
    if date.Some? then date.value else fallback
  }

  /** `value || fallback` for a status text. */
  function StatusOr(status: string, fallback: string): (r: string)
    ensures status != "" ==> r == status
    ensures status == "" ==> r == fallback
  {
    if status != "" then status else fallback
  }

  function ProjectTask(w: Window, p: Project): (t: Task)
    ensures t.name == p.name
    ensures t.start == OrDefault(p.startDate, w.start) && t.end == OrDefault(p.endDate, w.end)
    ensures t.completion == p.progress.GetOr(0)
    ensures t.status == StatusOr(p.status, "in-progress")
  {
    Task(p.name, OrDefault(p.startDate, w.start), OrDefault(p.endDate, w.end), p.progress.GetOr(0),
         StatusOr(p.status, "in-progress"))
  }

  // The system and subsystem tasks (and likewise the project and ITR tasks)
  // are written alike because the chart builds them with four near-identical
  // maps, one per table.
  function SystemTask(w: Window, s: System): (t: Task)
    ensures t.name == s.name && t.status == "in-progress"
    ensures t.start == OrDefault(s.startDate, w.start) && t.end == OrDefault(s.endDate, w.end)
    ensures t.completion == s.completionRate.GetOr(0)
  {
    Task(s.name, OrDefault(s.startDate, w.start), OrDefault(s.endDate, w.end), s.completionRate.GetOr(0), "in-progress")
  }

  function SubsystemTask(w: Window, s: Subsystem): (t: Task)
    ensures t.name == s.name && t.status == "in-progress"
    ensures t.start == OrDefault(s.startDate, w.start) && t.end == OrDefault(s.endDate, w.end)
    ensures t.completion == s.completionRate.GetOr(0)
  {
    Task(s.name, OrDefault(s.startDate, w.start), OrDefault(s.endDate, w.end), s.completionRate.GetOr(0), "in-progress")
  }

  function ItrTask(w: Window, t: Itr): (r: Task)
    ensures r.name == t.name
    ensures r.start == OrDefault(t.startDate, w.start) && r.end == OrDefault(t.endDate, w.end)
    ensures r.completion == t.progress.GetOr(0)
    ensures r.status == StatusOr(t.status, "in-progress")
  {
    Task(t.name, OrDefault(t.startDate, w.start), OrDefault(t.endDate, w.end), t.progress.GetOr(0),
         StatusOr(t.status, "in-progress"))
  }

  function ProjectTasks(w: Window): Project -> Task {
    (p: Project) => ProjectTask(w, p)
  }

  function SystemTasks(w: Window): System -> Task {
    (s: System) => SystemTask(w, s)
  }

  function SubsystemTasks(w: Window): Subsystem -> Task {
    (s: Subsystem) => SubsystemTask(w, s)
  }

  function ItrTasks(w: Window): Itr -> Task {
    (t: Itr) => ItrTask(w, t)
  }

  /** `allTasks`: projects, then systems, subsystems and ITRs, one task per row. */
  function AllTasks(w: Window, projects: seq<Project>, systems: seq<System>, subsystems: seq<Subsystem>,
                    itrs: seq<Itr>): seq<Task>
  {
    Seqs.Map(projects, ProjectTasks(w)) + Seqs.Map(systems, SystemTasks(w))
    + Seqs.Map(subsystems, SubsystemTasks(w)) + Seqs.Map(itrs, ItrTasks(w))
  }

  /** Where each row's task sits in `allTasks`: the k-th row of each table,
      after all rows of the tables before it. */
  lemma AllTasksLayout(w: Window, projects: seq<Project>, systems: seq<System>, subsystems: seq<Subsystem>,
                       itrs: seq<Itr>, k: nat)
    ensures |AllTasks(w, projects, systems, subsystems, itrs)| == |projects| + |systems| + |subsystems| + |itrs|
    ensures k < |projects| ==> AllTasks(w, projects, systems, subsystems, itrs)[k] == ProjectTask(w, projects[k])
    ensures k < |systems| ==>
      AllTasks(w, projects, systems, subsystems, itrs)[|projects| + k] == SystemTask(w, systems[k])
    ensures k < |subsystems| ==>
      AllTasks(w, projects, systems, subsystems, itrs)[|projects| + |systems| + k] == SubsystemTask(w, subsystems[k])
    ensures k < |itrs| ==>
      AllTasks(w, projects, systems, subsystems, itrs)[|projects| + |systems| + |subsystems| + k] == ItrTask(w, itrs[k])
  {
    var a := Seqs.Map(projects, ProjectTasks(w));
    var b := Seqs.Map(systems, SystemTasks(w));
    var c := Seqs.Map(subsystems, SubsystemTasks(w));
    var d := Seqs.Map(itrs, ItrTasks(w));
    var ab := a + b;
    var abc := ab + c;
    var r := abc + d;
    if k < |a| {
      assert r[k] == abc[k] == ab[k] == a[k];
    }
    if k < |b| {
      assert r[|a| + k] == abc[|a| + k] == ab[|a| + k] == b[k];
    }
    if k < |c| {
      assert r[|ab| + k] == abc[|ab| + k] == c[k];
    }
    if k < |d| {
      assert r[|abc| + k] == d[k];
    }
  }

  function Entry(t: Task): (e: ChartEntry)
    ensures e.name == t.name && e.start == t.start && e.end == t.end
    ensures e.completion == t.completion && e.status == t.status
    ensures e.start + e.duration == e.end
  {
    ChartEntry(t.name, t.start, t.end - t.start, t.end, t.completion, t.status)
  }

  /** `chartData`: one entry per task, in order, with its duration. */
  function ChartData(tasks: seq<Task>): (r: seq<ChartEntry>)
    ensures |r| == |tasks|
    ensures forall k :: 0 <= k < |r| ==> r[k] == Entry(tasks[k]) && r[k].duration == tasks[k].end - tasks[k].start
  {
    Seqs.Map(tasks, Entry)
  }

  function StatusIs(status: string): ChartEntry -> bool {
    (e: ChartEntry) => e.status == status
  }

  /** `filteredData`: all entries under 'all', else those whose status equals the tab. */
  function FilteredData(chart: seq<ChartEntry>, filter: string): (r: seq<ChartEntry>)
    ensures filter == "all" ==> r == chart
    ensures filter != "all" ==> r == Seqs.Filter(chart, StatusIs(filter))
    ensures filter != "all" ==> forall e :: e in r <==> e in chart && e.status == filter
    ensures filter != "all" ==> forall e :: multiset(r)[e] == if e.status == filter then multiset(chart)[e] else 0
    ensures |r| <= |chart|
  {
    Seqs.FilterMultiset(chart, StatusIs(filter));
    if filter == "all" then chart else Seqs.Filter(chart, StatusIs(filter))
  }

  /** A tab lists the chart's entries in chart order: filtering two runs of
      entries one after the other gives the two filtered runs in that order. */
  lemma FilteredDataAppend(a: seq<ChartEntry>, b: seq<ChartEntry>, filter: string)
    ensures FilteredData(a + b, filter) == FilteredData(a, filter) + FilteredData(b, filter)
  {
    Seqs.FilterAppend(a, b, StatusIs(filter));
  }

  /** An ITR stored as 'inprogress' is drawn in the in-progress colour but never
      listed under the 'in-progress' tab. */
  lemma InprogressItrNotUnderInProgressTab(w: Window, projects: seq<Project>, systems: seq<System>,
                                           subsystems: seq<Subsystem>, itrs: seq<Itr>, k: nat)
    requires k < |itrs| && itrs[k].status == "inprogress"
    ensures var chart := ChartData(AllTasks(w, projects, systems, subsystems, itrs));
      var e := chart[|projects| + |systems| + |subsystems| + k];
      && StatusColor(e.status) == InProgressColor
      && e !in FilteredData(chart, "in-progress")
  {
    AllTasksLayout(w, projects, systems, subsystems, itrs, k);
    var tasks := AllTasks(w, projects, systems, subsystems, itrs);
    var i := |projects| + |systems| + |subsystems| + k;
    assert tasks[i] == ItrTask(w, itrs[k]);
    assert tasks[i].status == "inprogress";
    assert ChartData(tasks)[i].status == "inprogress";
  }

  /** Every system and subsystem bar shows under the 'in-progress' tab. */
  lemma SystemsAlwaysInProgress(w: Window, projects: seq<Project>, systems: seq<System>,
                                subsystems: seq<Subsystem>, itrs: seq<Itr>, k: nat)
    requires k < |systems| + |subsystems|
    ensures var chart := ChartData(AllTasks(w, projects, systems, subsystems, itrs));
      chart[|projects| + k] in FilteredData(chart, "in-progress")
  {
    var chart := ChartData(AllTasks(w, projects, systems, subsystems, itrs));
    if k < |systems| {
      AllTasksLayout(w, projects, systems, subsystems, itrs, k);
      assert chart[|projects| + k].status == "in-progress";
    } else {
      AllTasksLayout(w, projects, systems, subsystems, itrs, k - |systems|);
      assert chart[|projects| + |systems| + (k - |systems|)].status == "in-progress";
    }
  }
}
