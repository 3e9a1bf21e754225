/** The report settings: the single report-schedule row and the table of
    report recipients. */
module ReportService {
  import opened Wrappers
  import opened Entities
  import Seqs
  import Ordering

  function EmailOf(r: Recipient): string {
    r.email
  }

  function IdIsNot(id: string): Recipient -> bool {
    (r: Recipient) => r.id != id
  }

  /** `order('email')`: the recipients by email, in code-point order. */
  function ByEmail(rs: seq<Recipient>): (r: seq<Recipient>)
    ensures multiset(r) == multiset(rs)
    ensures forall i, j :: 0 <= i < j < |r| ==> Ordering.LexLe(r[i].email, r[j].email)
  {
    Ordering.TextOrderIsTotalPreorder(EmailOf);
    var sorted := Ordering.SortBy(rs, Ordering.TextOrder(EmailOf));
    Ordering.SortedByText(sorted, EmailOf);
    sorted
  }

  /** Removing an id no recipient has leaves the table as it was. */
  lemma RemoveUnknownRecipient(rs: seq<Recipient>, id: string)
    requires forall k :: 0 <= k < |rs| ==> rs[k].id != id
    ensures Seqs.Filter(rs, IdIsNot(id)) == rs
  {
    Seqs.FilterAll(rs, IdIsNot(id));
  }

  /** After removing an id, no recipient has it and every other row remains. */
  lemma RemoveRecipientExact(rs: seq<Recipient>, id: string)
    ensures forall r :: r in Seqs.Filter(rs, IdIsNot(id)) <==> r in rs && r.id != id
  {
  }

  class ReportStore {
    var schedule: seq<ScheduleRow>
    var recipients: seq<Recipient>

    /** The schedule table holds at most one row. */
    ghost predicate Valid()
      reads this
    {
      |schedule| <= 1
    }

    constructor()
      ensures Valid() && schedule == [] && recipients == []
    {
      schedule := [];
      recipients := [];
    }

    /** `getReportSchedule`: the schedule row, or null when there is none. */
    function GetReportSchedule(): (r: Option<ScheduleRow>)
      reads this
      requires Valid()
      ensures r.None? <==> schedule == []
      ensures r.Some? ==> r.value in schedule
    {
      if schedule == [] then None else Some(schedule[0])
    }

    /** `getReportRecipients`: every recipient, ordered by email. */
    function GetReportRecipients(): (r: seq<Recipient>)
      reads this
      ensures multiset(r) == multiset(recipients)
      ensures forall i, j :: 0 <= i < j < |r| ==> Ordering.LexLe(r[i].email, r[j].email)
      ensures recipients == [] ==> r == []
    {
      ByEmail(recipients)
    }

    /** `addReportRecipient`: inserts one row with the given email. */
    method AddReportRecipient(email: string, newId: string, now: Timestamp) returns (r: Recipient)
      modifies this
      ensures r.email == email && r.id == newId && r.createdAt == now
      ensures recipients == old(recipients) + [r]
      ensures schedule == old(schedule)
    {
      r := Recipient(newId, email, now);
      recipients := recipients + [r];
    }

    /** `removeReportRecipient`: deletes the rows with that id and answers true. */
    method RemoveReportRecipient(id: string) returns (ok: bool)
      modifies this
      ensures ok
      ensures recipients == Seqs.Filter(old(recipients), IdIsNot(id))
      ensures schedule == old(schedule)
    {
      recipients := Seqs.Filter(recipients, IdIsNot(id));
      ok := true;
    }

    /** `updateReportSchedule`: rewrites the settings of the existing row,
        keeping its id, or inserts the first row when there is none. */
    method UpdateReportSchedule(settings: ScheduleSettings, newId: string) returns (r: ScheduleRow)
      requires Valid()
      modifies this
      ensures Valid()
      ensures r.settings == settings
      ensures schedule == [r]
      ensures old(schedule) != [] ==> r.id == old(schedule)[0].id
      ensures old(schedule) == [] ==> r.id == newId
      ensures recipients == old(recipients)
    {
      var existing := GetReportSchedule();
      if existing.Some? {
        r := existing.value.(settings := settings);
        schedule := [r];
      } else {
        r := ScheduleRow(newId, settings);
        schedule := schedule + [r];
      }
    }
  }
}
