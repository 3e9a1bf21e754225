/** The `scheduled-tasks` edge function: a dispatcher over four tasks. The
    delay check reports every overdue project, system, subsystem and ITR; the
    three report tasks check the schedule row's gate for their cadence and
    then mail a project and ITR summary to every report recipient.

    The tables are read as sequences; the clock (now, weekday name, day of
    the month) is a parameter, and so is the answer of the mail function the
    tasks call. */
module ScheduledTasks {
  import opened Wrappers
  import opened Entities
  import Json
  import Text
  import Seqs
  import Ordering

  // ---------------------------------------------------------------- results

  /** The answer of the `send-email` function to the request a task posts. */
  datatype MailOutcome = Delivered | Rejected(text: string)

  datatype DelayKind = ProjectDelay | SystemDelay | SubsystemDelay | ItrDelay

  datatype DelayAlert = DelayAlert(kind: DelayKind, entityId: string, entityName: string, dueDate: Option<Timestamp>)

  /** A line of a report's project or ITR table. */
  datatype SummaryRow = SummaryRow(name: string, status: string, progress: int,
                                   startDate: Option<Timestamp>, endDate: Option<Timestamp>)

  /** What an email lists: the delay alerts, or the two summary tables. */
  datatype MailBody = DelayList(alerts: seq<DelayAlert>) | Summary(projects: seq<SummaryRow>, itrs: seq<SummaryRow>)

  datatype MailRequest = MailRequest(recipients: seq<string>, subject: string, body: MailBody)

  /** The `result` object a task returns; absent keys are None. */
  datatype TaskResult = TaskResult(message: string, delays: Option<nat>, recipients: Option<nat>,
                                   projectsCount: Option<nat>, itrsCount: Option<nat>)

  /** A task's result with the email it had delivered, if any. A thrown error is `Err(message)`. */
  datatype TaskOutcome = TaskOutcome(result: TaskResult, sent: Option<MailRequest>)

  function Note(message: string): TaskResult {
    TaskResult(message, None, None, None, None)
  }

  /** The address list a mail goes to: every recipient's email, in order. */
  function Emails(recipients: seq<Recipient>): (r: seq<string>)
    ensures |r| == |recipients|
    ensures forall k :: 0 <= k < |r| ==> r[k] == recipients[k].email
  {
    Seqs.Map(recipients, (x: Recipient) => x.email)
  }

  // ---------------------------------------------------------- delay check

  /** `.lt('end_date', now)`: a null end date never matches. */
  predicate Overdue(endDate: Option<Timestamp>, now: Timestamp) {
    endDate.Some? && endDate.value < now
  }

  /** The project query also drops rows whose status is exactly 'complete'. */
  function ProjectOverdue(now: Timestamp): Project -> bool {
    (p: Project) => Overdue(p.endDate, now) && p.status != "complete"
  }

  function SystemOverdue(now: Timestamp): System -> bool {
    (s: System) => Overdue(s.endDate, now)
  }

  function SubsystemOverdue(now: Timestamp): Subsystem -> bool {
    (s: Subsystem) => Overdue(s.endDate, now)
  }

  function ItrOverdue(now: Timestamp): Itr -> bool {
    (t: Itr) => Overdue(t.endDate, now) && t.status != "complete"
  }

  function ProjectAlert(p: Project): DelayAlert {
    DelayAlert(ProjectDelay, p.id, p.name, p.endDate)
  }

  function SystemAlert(s: System): DelayAlert {
    DelayAlert(SystemDelay, s.id, s.name, s.endDate)
  }

  function SubsystemAlert(s: Subsystem): DelayAlert {
    DelayAlert(SubsystemDelay, s.id, s.name, s.endDate)
  }

  function ItrAlert(t: Itr): DelayAlert {
    DelayAlert(ItrDelay, t.id, t.name, t.endDate)
  }

  /** The four queries' rows, each turned into an alert, projects first, then
      systems, subsystems and ITRs. */
  function DelayAlerts(projects: seq<Project>, systems: seq<System>, subsystems: seq<Subsystem>,
                       itrs: seq<Itr>, now: Timestamp): seq<DelayAlert>
  {
    Seqs.Map(Seqs.Filter(projects, ProjectOverdue(now)), ProjectAlert)
    + Seqs.Map(Seqs.Filter(systems, SystemOverdue(now)), SystemAlert)
    + Seqs.Map(Seqs.Filter(subsystems, SubsystemOverdue(now)), SubsystemAlert)
    + Seqs.Map(Seqs.Filter(itrs, ItrOverdue(now)), ItrAlert)
  }

  function KindRank(k: DelayKind): nat {
    match k
    case ProjectDelay => 0
    case SystemDelay => 1
    case SubsystemDelay => 2
    case ItrDelay => 3
  }

  /** An alert is raised exactly for an overdue row of one of the four tables. */
  lemma DelayAlertMembership(projects: seq<Project>, systems: seq<System>, subsystems: seq<Subsystem>,
                             itrs: seq<Itr>, now: Timestamp, x: DelayAlert)
    ensures x in DelayAlerts(projects, systems, subsystems, itrs, now) <==>
      || (exists p :: p in projects && Overdue(p.endDate, now) && p.status != "complete" && x == ProjectAlert(p))
      || (exists s :: s in systems && Overdue(s.endDate, now) && x == SystemAlert(s))
      || (exists s :: s in subsystems && Overdue(s.endDate, now) && x == SubsystemAlert(s))
      || (exists t :: t in itrs && Overdue(t.endDate, now) && t.status != "complete" && x == ItrAlert(t))
  {
    Seqs.MapFilterMember(projects, ProjectOverdue(now), ProjectAlert, x);
    Seqs.MapFilterMember(systems, SystemOverdue(now), SystemAlert, x);
    Seqs.MapFilterMember(subsystems, SubsystemOverdue(now), SubsystemAlert, x);
    Seqs.MapFilterMember(itrs, ItrOverdue(now), ItrAlert, x);
  }

  /** Alerts come in table order: projects, systems, subsystems, ITRs. */
  lemma DelayAlertsInTableOrder(projects: seq<Project>, systems: seq<System>, subsystems: seq<Subsystem>,
                                itrs: seq<Itr>, now: Timestamp)
    ensures var r := DelayAlerts(projects, systems, subsystems, itrs, now);
      forall i, j :: 0 <= i < j < |r| ==> KindRank(r[i].kind) <= KindRank(r[j].kind)
  {
    var a := Seqs.Map(Seqs.Filter(projects, ProjectOverdue(now)), ProjectAlert);
    var b := Seqs.Map(Seqs.Filter(systems, SystemOverdue(now)), SystemAlert);
    var c := Seqs.Map(Seqs.Filter(subsystems, SubsystemOverdue(now)), SubsystemAlert);
    var d := Seqs.Map(Seqs.Filter(itrs, ItrOverdue(now)), ItrAlert);
    var r := a + b + c + d;
    assert forall k :: 0 <= k < |r| ==>
      KindRank(r[k].kind) == (if k < |a| then 0 else if k < |a| + |b| then 1 else if k < |a| + |b| + |c| then 2 else 3);
  }

  /** A project saved as 'completed' rather than 'complete' is still reported once overdue. */
  lemma CompletedProjectStillReported(projects: seq<Project>, systems: seq<System>, subsystems: seq<Subsystem>,
                                      itrs: seq<Itr>, now: Timestamp, p: Project)
    requires p in projects && p.status == "completed" && Overdue(p.endDate, now)
    ensures ProjectAlert(p) in DelayAlerts(projects, systems, subsystems, itrs, now)
  {
    DelayAlertMembership(projects, systems, subsystems, itrs, now, ProjectAlert(p));
  }

  /** An overdue system or subsystem is reported whatever its completion rate. */
  lemma OverdueSystemsAlwaysReported(projects: seq<Project>, systems: seq<System>, subsystems: seq<Subsystem>,
                                     itrs: seq<Itr>, now: Timestamp, s: System, u: Subsystem)
    requires s in systems && Overdue(s.endDate, now)
    requires u in subsystems && Overdue(u.endDate, now)
    ensures SystemAlert(s) in DelayAlerts(projects, systems, subsystems, itrs, now)
    ensures SubsystemAlert(u) in DelayAlerts(projects, systems, subsystems, itrs, now)
  {
    DelayAlertMembership(projects, systems, subsystems, itrs, now, SystemAlert(s));
    DelayAlertMembership(projects, systems, subsystems, itrs, now, SubsystemAlert(u));
  }

  /** A row with no end date, or due now or later, raises no alert. */
  lemma NotOverdueNotReported(projects: seq<Project>, systems: seq<System>, subsystems: seq<Subsystem>,
                              itrs: seq<Itr>, now: Timestamp, p: Project)
    requires p.endDate.None? || p.endDate.value >= now
    ensures ProjectAlert(p) !in DelayAlerts(projects, systems, subsystems, itrs, now)
  {
    DelayAlertMembership(projects, systems, subsystems, itrs, now, ProjectAlert(p));
  }

  const DelaySubjectPrefix := "FOSSIL Energy Tracker - "
  const DelaySubjectSuffix := " Delays Detected"

  /** What the delay check answers once the alerts are gathered: nothing to
      report, nobody to tell, a mail failure, or the alerts delivered. */
  function DelayOutcome(alerts: seq<DelayAlert>, recipients: seq<string>, mail: MailOutcome): (r: Result<TaskOutcome, string>)
    ensures alerts == [] ==> r == Ok(TaskOutcome(TaskResult("No delays detected", Some(0), None, None, None), None))
    ensures alerts != [] && recipients == [] ==>
      r == Ok(TaskOutcome(TaskResult("No recipients configured for alerts", Some(|alerts|), None, None, None), None))
    ensures r.Err? <==> alerts != [] && recipients != [] && mail.Rejected?
    ensures r.Err? ==> r.error == "Failed to send delay alerts: " + mail.text
    ensures r.Ok? && r.value.sent.Some? <==> alerts != [] && recipients != [] && mail.Delivered?
    ensures r.Ok? && r.value.sent.Some? ==>
      && r.value.result == TaskResult("Delay alerts sent successfully", Some(|alerts|), Some(|recipients|), None, None)
      && r.value.sent.value == MailRequest(recipients, DelaySubjectPrefix + Text.NatToString(|alerts|) + DelaySubjectSuffix, DelayList(alerts))
  {
    if |alerts| == 0 then
      Ok(TaskOutcome(TaskResult("No delays detected", Some(0), None, None, None), None))
    else if |recipients| == 0 then
      Ok(TaskOutcome(TaskResult("No recipients configured for alerts", Some(|alerts|), None, None, None), None))
    else
      var subject := DelaySubjectPrefix + Text.NatToString(|alerts|) + DelaySubjectSuffix;
      match mail
      case Rejected(text) => Err("Failed to send delay alerts: " + text)
      case Delivered =>
        Ok(TaskOutcome(TaskResult("Delay alerts sent successfully", Some(|alerts|), Some(|recipients|), None, None),
                       Some(MailRequest(recipients, subject, DelayList(alerts)))))
  }

  /** The subject of a delay mail carries the number of alerts, readable back
      from between its fixed prefix and suffix. */
  lemma DelaySubjectCountsAlerts(alerts: seq<DelayAlert>, recipients: seq<string>)
    requires alerts != [] && recipients != []
    ensures var s := DelayOutcome(alerts, recipients, Delivered).value.sent.value.subject;
      && |s| > |DelaySubjectPrefix| + |DelaySubjectSuffix|
      && var digits := s[|DelaySubjectPrefix|..|s| - |DelaySubjectSuffix|];
      && (forall i :: 0 <= i < |digits| ==> Text.IsDigit(digits[i]))
      && Text.ParseDecimal(digits) == |alerts|
  {
    var count := Text.NatToString(|alerts|);
    var s := DelaySubjectPrefix + count + DelaySubjectSuffix;
    assert s[|DelaySubjectPrefix|..|s| - |DelaySubjectSuffix|] == count;
    Text.ParsePrinted(|alerts|);
  }

  /** `for (const row of rows) alerts.push(alert(row))`. */
  method PushAlerts<R>(alerts: seq<DelayAlert>, rows: seq<R>, alert: R -> DelayAlert) returns (r: seq<DelayAlert>)
    ensures r == alerts + Seqs.Map(rows, alert)
  {
    r := alerts;
    var i := 0;
    while i < |rows|
      invariant 0 <= i <= |rows|
      invariant r == alerts + Seqs.Map(rows[..i], alert)
    {
      Seqs.MapSnoc(rows, i, alert);
      r := r + [alert(rows[i])];
      i := i + 1;
    }
    assert rows[..i] == rows;
  }

  /** `checkDelays`: pushes an alert for every row of the four overdue
      queries, table by table, then answers as `DelayOutcome` does. */
  method CheckDelays(projects: seq<Project>, systems: seq<System>, subsystems: seq<Subsystem>, itrs: seq<Itr>,
                     recipients: seq<Recipient>, now: Timestamp, mail: MailOutcome)
    returns (r: Result<TaskOutcome, string>)
    ensures r == DelayOutcome(DelayAlerts(projects, systems, subsystems, itrs, now), Emails(recipients), mail)
  {
    var alerts: seq<DelayAlert> := [];
    alerts := PushAlerts(alerts, Seqs.Filter(projects, ProjectOverdue(now)), ProjectAlert);
    assert alerts == Seqs.Map(Seqs.Filter(projects, ProjectOverdue(now)), ProjectAlert);
    alerts := PushAlerts(alerts, Seqs.Filter(systems, SystemOverdue(now)), SystemAlert);
    alerts := PushAlerts(alerts, Seqs.Filter(subsystems, SubsystemOverdue(now)), SubsystemAlert);
    alerts := PushAlerts(alerts, Seqs.Filter(itrs, ItrOverdue(now)), ItrAlert);
    assert alerts == DelayAlerts(projects, systems, subsystems, itrs, now);
    r := DelayOutcome(alerts, Emails(recipients), mail);
  }

  // ------------------------------------------------------- schedule gates

  /** Whether a report task goes on to build the report, or stops with a message. */
  datatype Gate = Fire | Skip(message: string)

  function DailyGate(daily: DailySettings): (g: Gate)
    ensures g.Fire? <==> daily.enabled
  {
    if !daily.enabled then Skip("Daily reports are disabled") else Fire
  }

  /** The weekly report fires on the configured weekday, compared without case. */
  function WeeklyGate(weekly: WeeklySettings, weekday: string): (g: Gate)
    ensures g.Fire? <==> weekly.enabled && Text.ToLower(weekday) == Text.ToLower(weekly.day)
    ensures !weekly.enabled ==> g == Skip("Weekly reports are disabled")
  {
    if !weekly.enabled then Skip("Weekly reports are disabled")
    else
      var dayOfWeek := Text.ToLower(weekday);
      if dayOfWeek != Text.ToLower(weekly.day) then
        Skip("Weekly reports are scheduled for " + weekly.day + ", not " + dayOfWeek)
      else Fire
  }

  /** The monthly report fires when the unpadded day of the month equals the setting exactly. */
  function MonthlyGate(monthly: MonthlySettings, dayOfMonth: nat): (g: Gate)
    ensures g.Fire? <==> monthly.enabled && Text.NatToString(dayOfMonth) == monthly.day
    ensures !monthly.enabled ==> g == Skip("Monthly reports are disabled")
  {
    if !monthly.enabled then Skip("Monthly reports are disabled")
    else
      var today := Text.NatToString(dayOfMonth);
      if today != monthly.day then
        Skip("Monthly reports are scheduled for day " + monthly.day + ", not day " + today)
      else Fire
  }

  /** A firing weekly gate keeps firing when both names are upper-cased, or
      when the stored day is lower-cased. */
  lemma {:induction false} WeeklyGateIgnoresCase(weekly: WeeklySettings, weekday: string)
    requires weekly.enabled && Text.ToLower(weekday) == Text.ToLower(weekly.day)
    ensures WeeklyGate(weekly.(day := Text.ToUpper(weekly.day)), Text.ToUpper(weekday)).Fire?
    ensures WeeklyGate(weekly.(day := Text.ToLower(weekly.day)), weekday).Fire?
  {
    Text.LowerOfUpper(weekly.day);
    Text.LowerOfUpper(weekday);
    Text.ToLowerIdempotent(weekly.day);
  }

  /** Whether the weekly gate fires depends on the two day names only up to
      case: any case variants of the stored day and of today's name give the
      same answer, both ways. */
  lemma WeeklyGateCaseInsensitive(weekly: WeeklySettings, d1: string, d2: string, w1: string, w2: string)
    requires Text.ToLower(d1) == Text.ToLower(d2) && Text.ToLower(w1) == Text.ToLower(w2)
    ensures WeeklyGate(weekly.(day := d1), w1).Fire? <==> WeeklyGate(weekly.(day := d2), w2).Fire?
  {
  }

  /** A zero-padded day such as "05" never fires. */
  lemma PaddedDayNeverFires(monthly: MonthlySettings, dayOfMonth: nat)
    requires |monthly.day| >= 2 && monthly.day[0] == '0'
    ensures !MonthlyGate(monthly, dayOfMonth).Fire?
  {
  }

  /** An enabled monthly setting printed from a day fires on that day and no other. */
  lemma MonthlyFiresOnlyOnItsDay(monthly: MonthlySettings, day: nat, dayOfMonth: nat)
    requires monthly.enabled && monthly.day == Text.NatToString(day)
    ensures MonthlyGate(monthly, dayOfMonth).Fire? <==> dayOfMonth == day
  {
    if Text.NatToString(dayOfMonth) == monthly.day {
      Text.PrintInjective(dayOfMonth, day);
    }
  }

  // ------------------------------------------------------------ reports

  function ProjectName(p: Project): string {
    p.name
  }

  function ItrName(t: Itr): string {
    t.name
  }

  /** `.order('name')` on the projects table. */
  function ProjectsByName(projects: seq<Project>): (r: seq<Project>)
    ensures multiset(r) == multiset(projects)
    ensures forall i, j :: 0 <= i < j < |r| ==> Ordering.LexLe(r[i].name, r[j].name)
  {
    Ordering.TextOrderIsTotalPreorder(ProjectName);
    var sorted := Ordering.SortBy(projects, Ordering.TextOrder(ProjectName));
    Ordering.SortedByText(sorted, ProjectName);
    sorted
  }

  /** `.order('name')` on the ITR table. */
  function ItrsByName(itrs: seq<Itr>): (r: seq<Itr>)
    ensures multiset(r) == multiset(itrs)
    ensures forall i, j :: 0 <= i < j < |r| ==> Ordering.LexLe(r[i].name, r[j].name)
  {
    Ordering.TextOrderIsTotalPreorder(ItrName);
    var sorted := Ordering.SortBy(itrs, Ordering.TextOrder(ItrName));
    Ordering.SortedByText(sorted, ItrName);
    sorted
  }

  /** A project's line; a missing progress shows as 0. */
  function ProjectRow(p: Project): (r: SummaryRow)
    ensures r.name == p.name && r.status == p.status
    ensures r.progress == (if p.progress.Some? then p.progress.value else 0)
    ensures r.startDate == p.startDate && r.endDate == p.endDate
  {
    SummaryRow(p.name, p.status, p.progress.GetOr(0), p.startDate, p.endDate)
  }

  /** An ITR's line; a missing progress shows as 0. */
  function ItrRow(t: Itr): (r: SummaryRow)
    ensures r.name == t.name && r.status == t.status
    ensures r.progress == (if t.progress.Some? then t.progress.value else 0)
    ensures r.startDate == t.startDate && r.endDate == t.endDate
  {
    SummaryRow(t.name, t.status, t.progress.GetOr(0), t.startDate, t.endDate)
  }

  const ReportSubjectPrefix := "FOSSIL Energy Tracker - "

  /** What `generateAndSendReport` answers: nobody to send to, a mail
      failure, or the report delivered with the counts of rows read. */
  function ReportOutcome(reportType: string, recipients: seq<string>, projects: seq<Project>, itrs: seq<Itr>,
                         mail: MailOutcome): (r: Result<TaskOutcome, string>)
    ensures recipients == [] ==> r == Ok(TaskOutcome(Note("No recipients configured for reports"), None))
    ensures r.Err? <==> recipients != [] && mail.Rejected?
    ensures r.Err? ==> r.error == "Failed to send " + reportType + " report: " + mail.text
    ensures r.Ok? && r.value.sent.Some? <==> recipients != [] && mail.Delivered?
    ensures r.Ok? && r.value.sent.Some? ==>
      && r.value.result == TaskResult(Text.Capitalize(reportType) + " report sent successfully",
                                      None, Some(|recipients|), Some(|projects|), Some(|itrs|))
      && r.value.sent.value.recipients == recipients
      && r.value.sent.value.subject == ReportSubjectPrefix + Text.Capitalize(reportType) + " Report"
      && r.value.sent.value.body == Summary(Seqs.Map(ProjectsByName(projects), ProjectRow),
                                            Seqs.Map(ItrsByName(itrs), ItrRow))
  {
    if |recipients| == 0 then
      Ok(TaskOutcome(Note("No recipients configured for reports"), None))
    else
      var title := Text.Capitalize(reportType);
      var body := Summary(Seqs.Map(ProjectsByName(projects), ProjectRow), Seqs.Map(ItrsByName(itrs), ItrRow));
      match mail
      case Rejected(text) => Err("Failed to send " + reportType + " report: " + text)
      case Delivered =>
        Ok(TaskOutcome(TaskResult(title + " report sent successfully", None, Some(|recipients|), Some(|projects|), Some(|itrs|)),
                       Some(MailRequest(recipients, ReportSubjectPrefix + title + " Report", body))))
  }

  /** A delivered report lists every project and ITR once, each table by name. */
  lemma ReportListsEveryRow(reportType: string, recipients: seq<string>, projects: seq<Project>, itrs: seq<Itr>)
    requires recipients != []
    ensures var body := ReportOutcome(reportType, recipients, projects, itrs, Delivered).value.sent.value.body;
      && |body.projects| == |projects| && |body.itrs| == |itrs|
      && (forall p :: p in projects ==> ProjectRow(p) in body.projects)
      && (forall t :: t in itrs ==> ItrRow(t) in body.itrs)
      && (forall i, j :: 0 <= i < j < |body.projects| ==> Ordering.LexLe(body.projects[i].name, body.projects[j].name))
      && (forall i, j :: 0 <= i < j < |body.itrs| ==> Ordering.LexLe(body.itrs[i].name, body.itrs[j].name))
  {
    var ps := ProjectsByName(projects);
    var ts := ItrsByName(itrs);
    forall p | p in projects ensures ProjectRow(p) in Seqs.Map(ps, ProjectRow) {
      Seqs.MapOfPermutation(projects, ps, ProjectRow, p);
    }
    forall t | t in itrs ensures ItrRow(t) in Seqs.Map(ts, ItrRow) {
      Seqs.MapOfPermutation(itrs, ts, ItrRow, t);
    }
    assert |multiset(ps)| == |multiset(projects)|;
    assert |multiset(ts)| == |multiset(itrs)|;
  }

  /** `generateAndSendReport`: reads the recipients, stops when there are
      none, then builds the project and ITR tables, one loop each, over the
      rows ordered by name. */
  method GenerateAndSendReport(reportType: string, recipients: seq<Recipient>, projects: seq<Project>,
                               itrs: seq<Itr>, mail: MailOutcome)
    returns (r: Result<TaskOutcome, string>)
    ensures r == ReportOutcome(reportType, Emails(recipients), projects, itrs, mail)
  {
    var emails := Emails(recipients);
    if |emails| == 0 {
      return Ok(TaskOutcome(Note("No recipients configured for reports"), None));
    }
    var sortedProjects := ProjectsByName(projects);
    var sortedItrs := ItrsByName(itrs);
    var title := Text.Capitalize(reportType);

    var projectRows: seq<SummaryRow> := [];
    var i := 0;
    while i < |sortedProjects|
      invariant 0 <= i <= |sortedProjects|
      invariant projectRows == Seqs.Map(sortedProjects[..i], ProjectRow)
    {
      Seqs.MapSnoc(sortedProjects, i, ProjectRow);
      projectRows := projectRows + [ProjectRow(sortedProjects[i])];
      i := i + 1;
    }
    assert sortedProjects[..i] == sortedProjects;

    var itrRows: seq<SummaryRow> := [];
    i := 0;
    while i < |sortedItrs|
      invariant 0 <= i <= |sortedItrs|
      invariant itrRows == Seqs.Map(sortedItrs[..i], ItrRow)
    {
      Seqs.MapSnoc(sortedItrs, i, ItrRow);
      itrRows := itrRows + [ItrRow(sortedItrs[i])];
      i := i + 1;
    }
    assert sortedItrs[..i] == sortedItrs;

    var request := MailRequest(emails, ReportSubjectPrefix + title + " Report", Summary(projectRows, itrRows));
    if mail.Rejected? {
      return Err("Failed to send " + reportType + " report: " + mail.text);
    }
    r := Ok(TaskOutcome(TaskResult(title + " report sent successfully", None, Some(|emails|),
                                   Some(|projects|), Some(|itrs|)), Some(request)));
  }

  // ------------------------------------------------------ report tasks

  /** The tables and clock a task sees. */
  datatype Store = Store(projects: seq<Project>, systems: seq<System>, subsystems: seq<Subsystem>, itrs: seq<Itr>,
                         recipients: seq<Recipient>, schedule: seq<ScheduleRow>)

  datatype Clock = Clock(now: Timestamp, weekday: string, dayOfMonth: nat)

  /** The error `.single()` raises when the schedule table does not hold exactly one row. */
  const NoSingleRow := "JSON object requested, multiple (or no) rows returned"

  /** A report task: read the one schedule row, check the cadence's gate,
      then generate the report. */
  function SendReport(store: Store, gate: ScheduleSettings -> Gate, reportType: string, mail: MailOutcome)
    : (r: Result<TaskOutcome, string>)
    ensures |store.schedule| != 1 ==> r == Err(NoSingleRow)
    ensures |store.schedule| == 1 && gate(store.schedule[0].settings).Skip? ==>
      r == Ok(TaskOutcome(Note(gate(store.schedule[0].settings).message), None))
    ensures |store.schedule| == 1 && gate(store.schedule[0].settings).Fire? ==>
      r == ReportOutcome(reportType, Emails(store.recipients), store.projects, store.itrs, mail)
  {
    if |store.schedule| != 1 then Err(NoSingleRow)
    else
      match gate(store.schedule[0].settings)
      case Skip(message) => Ok(TaskOutcome(Note(message), None))
      case Fire => ReportOutcome(reportType, Emails(store.recipients), store.projects, store.itrs, mail)
  }

  function DailyOf(clock: Clock): ScheduleSettings -> Gate {
    (s: ScheduleSettings) => DailyGate(s.daily)
  }

  function WeeklyOf(clock: Clock): ScheduleSettings -> Gate {
    (s: ScheduleSettings) => WeeklyGate(s.weekly, clock.weekday)
  }

  function MonthlyOf(clock: Clock): ScheduleSettings -> Gate {
    (s: ScheduleSettings) => MonthlyGate(s.monthly, clock.dayOfMonth)
  }

  /** A report is only ever mailed when its cadence is enabled in the one schedule row. */
  lemma DisabledReportsNeverSend(store: Store, clock: Clock, mail: MailOutcome)
    requires |store.schedule| == 1
    ensures !store.schedule[0].settings.daily.enabled ==>
      SendReport(store, DailyOf(clock), "daily", mail) == Ok(TaskOutcome(Note("Daily reports are disabled"), None))
    ensures !store.schedule[0].settings.weekly.enabled ==>
      SendReport(store, WeeklyOf(clock), "weekly", mail) == Ok(TaskOutcome(Note("Weekly reports are disabled"), None))
    ensures !store.schedule[0].settings.monthly.enabled ==>
      SendReport(store, MonthlyOf(clock), "monthly", mail) == Ok(TaskOutcome(Note("Monthly reports are disabled"), None))
  {
    var s := store.schedule[0].settings;
    assert DailyOf(clock)(s) == DailyGate(s.daily);
    assert WeeklyOf(clock)(s) == WeeklyGate(s.weekly, clock.weekday);
    assert MonthlyOf(clock)(s) == MonthlyGate(s.monthly, clock.dayOfMonth);
  }

  // ------------------------------------------------------------ dispatch

  datatype ResponseBody =
    | Preflight
    | ErrorBody(error: string)
    | SuccessBody(task: string, result: TaskResult)
      /** An exception the runtime raised, whose message is not modelled. */
    | RuntimeError

  datatype Response = Response(status: nat, body: ResponseBody)

  predicate KnownTask(task: string) {
    task in {"check_delays", "send_daily_report", "send_weekly_report", "send_monthly_report"}
  }

  /** The task result, or the error it throws. */
  function Perform(task: string, store: Store, clock: Clock, mail: MailOutcome): Result<TaskOutcome, string>
    requires KnownTask(task)
  {
    if task == "check_delays" then
      DelayOutcome(DelayAlerts(store.projects, store.systems, store.subsystems, store.itrs, clock.now),
                   Emails(store.recipients), mail)
    else if task == "send_daily_report" then SendReport(store, DailyOf(clock), "daily", mail)
    else if task == "send_weekly_report" then SendReport(store, WeeklyOf(clock), "weekly", mail)
    else SendReport(store, MonthlyOf(clock), "monthly", mail)
  }

  /** `const { task } = await req.json()`: None when the body is not JSON or
      is null (both throw) or has no `task` key. */
  function TaskField(body: Option<Json.Json>): Json.Field {
    if body.None? || body.value == Json.JNull then None else Json.Property(body.value, "task")
  }

  /** The function's response to a request: `body` is the parsed JSON body,
      None when it is not JSON. */
  function RunTask(httpMethod: string, body: Option<Json.Json>, store: Store, clock: Clock, mail: MailOutcome)
    : (r: Response)
    ensures httpMethod == "OPTIONS" ==> r == Response(200, Preflight)
    ensures httpMethod != "OPTIONS" && (body.None? || body == Some(Json.JNull)) ==> r == Response(500, RuntimeError)
    ensures httpMethod != "OPTIONS" && body.Some? && body.value != Json.JNull && !Json.FieldTruthy(TaskField(body)) ==>
      r == Response(400, ErrorBody("Task is required"))
    ensures httpMethod != "OPTIONS" && Json.FieldTruthy(TaskField(body)) && !TaskField(body).value.JStr? ==>
      r == Response(500, RuntimeError)
    ensures httpMethod != "OPTIONS" && Json.FieldTruthy(TaskField(body)) && TaskField(body).value.JStr?
            && !KnownTask(TaskField(body).value.s) ==>
      r == Response(400, ErrorBody("Unknown task: " + TaskField(body).value.s))
    ensures httpMethod != "OPTIONS" && Json.FieldTruthy(TaskField(body)) && TaskField(body).value.JStr?
            && KnownTask(TaskField(body).value.s) ==>
      && (r.status == 200 <==> Perform(TaskField(body).value.s, store, clock, mail).Ok?)
      && (Perform(TaskField(body).value.s, store, clock, mail).Err? ==>
            r == Response(500, ErrorBody(Perform(TaskField(body).value.s, store, clock, mail).error)))
    ensures r.status == 200 && httpMethod != "OPTIONS" ==>
      && r.body.SuccessBody? && KnownTask(r.body.task) && TaskField(body) == Some(Json.JStr(r.body.task))
      && exists o :: Perform(r.body.task, store, clock, mail) == Ok(o) && r.body.result == o.result
  {
    if httpMethod == "OPTIONS" then Response(200, Preflight)
    else if body.None? || body.value == Json.JNull then Response(500, RuntimeError)
    else
      var task := TaskField(body);
      if !Json.FieldTruthy(task) then Response(400, ErrorBody("Task is required"))
      else if !task.value.JStr? then Response(500, RuntimeError)
      else
        var name := task.value.s;
        if !KnownTask(name) then Response(400, ErrorBody("Unknown task: " + name))
        else
          match Perform(name, store, clock, mail)
          case Err(message) => Response(500, ErrorBody(message))
          case Ok(outcome) => Response(200, SuccessBody(name, outcome.result))
  }
}
