/** The dashboard alerts read from the activity log: each log row becomes an
    alert whose level follows the action's wording; and `logAction`, which
    appends a row to the log. */
module AlertService {
  import opened Wrappers
  import opened Entities
  import Json
  import Text
  import Ordering
  import Seqs

  datatype Level = Info | Warning | Error | Success

  datatype Alert = Alert(id: string, message: string, level: Level, timestamp: Timestamp, entity: string)

  /** The level of an action: DELETE outranks UPDATE, which outranks INSERT;
      any other action is informational. */
  function LevelOf(action: string): (l: Level)
    ensures l == Error <==> Text.Contains(action, "DELETE")
    ensures l == Warning <==> !Text.Contains(action, "DELETE") && Text.Contains(action, "UPDATE")
    ensures l == Success <==>
      !Text.Contains(action, "DELETE") && !Text.Contains(action, "UPDATE") && Text.Contains(action, "INSERT")
    ensures l == Info <==>
      !Text.Contains(action, "DELETE") && !Text.Contains(action, "UPDATE") && !Text.Contains(action, "INSERT")
  {
    if Text.Contains(action, "DELETE") then Error
    else if Text.Contains(action, "UPDATE") then Warning
    else if Text.Contains(action, "INSERT") then Success
    else Info
  }

  /** An action naming DELETE anywhere is an error, whatever else it names. */
  lemma DeleteWins(before: string, after: string)
    ensures LevelOf(before + "DELETE" + after) == Error
  {
    Text.ContainsInside(before, "DELETE", after);
  }

  /** An action naming UPDATE but not DELETE is a warning, even when it names INSERT too. */
  lemma UpdateOutranksInsert(before: string, after: string)
    requires !Text.Contains(before + "UPDATE" + after, "DELETE")
    ensures LevelOf(before + "UPDATE" + after) == Warning
  {
    Text.ContainsInside(before, "UPDATE", after);
  }

  /** An action lacking a letter of each of the three words is informational:
      `SIGN_ITR` (no D, U or E), `ASSIGN_ROLE` (no D, U or T), and the like. */
  lemma InfoWithoutLetters(action: string, d: char, u: char, i: char)
    requires d in "DELETE" && d !in action
    requires u in "UPDATE" && u !in action
    requires i in "INSERT" && i !in action
    ensures LevelOf(action) == Info
  {
    Text.NotContainsMissingLetter(action, "DELETE", d);
    Text.NotContainsMissingLetter(action, "UPDATE", u);
    Text.NotContainsMissingLetter(action, "INSERT", i);
  }

  /** The record id in parentheses, or nothing when it is null or empty. */
  function RecordSuffix(recordId: Option<string>): (r: string)
    ensures recordId.None? || recordId.value == "" ==> r == ""
    ensures recordId.Some? && recordId.value != "" ==> |r| == |recordId.value| + 2 && r[0] == '(' && r[|r| - 1] == ')'
    ensures recordId.Some? && recordId.value != "" ==> r[1..|r| - 1] == recordId.value
  {
    if recordId.Some? && recordId.value != "" then "(" + recordId.value + ")" else ""
  }

  /** The alert a log row shows: same id, its table as the entity, the level
      of its action, and "<action> in <table> <(record id)>". */
  function AlertOf(row: LogRow): (a: Alert)
    ensures a.id == row.id && a.entity == row.tableName && a.level == LevelOf(row.action)
    ensures a.timestamp == row.createdAt
    ensures Text.IsPrefix(row.action + " in " + row.tableName + " ", a.message)
    ensures |a.message| == |row.action| + 5 + |row.tableName| + |RecordSuffix(row.recordId)|
    ensures a.message[|row.action| + 5 + |row.tableName|..] == RecordSuffix(row.recordId)
  {
    var head := row.action + " in " + row.tableName + " ";
    var message := head + RecordSuffix(row.recordId);
    assert message[..|head|] == head;
    assert message[|head|..] == RecordSuffix(row.recordId);
    Alert(row.id, message, LevelOf(row.action), row.createdAt, row.tableName)
  }

  /** `order('created_at', { ascending: false })`. */
  function NewestFirst(a: LogRow, b: LogRow): bool {
    a.createdAt >= b.createdAt
  }

  lemma NewestFirstIsTotalPreorder()
    ensures Ordering.TotalPreorder(NewestFirst)
  {
  }

  /** Rows sorted newest first have non-increasing creation times. */
  lemma NewestFirstSorted(s: seq<LogRow>)
    requires Ordering.Sorted(s, NewestFirst)
    ensures forall i, j :: 0 <= i < j < |s| ==> s[i].createdAt >= s[j].createdAt
  {
    forall i, j | 0 <= i < j < |s| ensures s[i].createdAt >= s[j].createdAt {
      assert NewestFirst(s[i], s[j]);
    }
  }

  function Min(a: nat, b: nat): nat {
    if a <= b then a else b
  }

  /** In rows sorted newest first, no row past position n is newer than one
      before it. */
  lemma SuffixNoNewer(sorted: seq<LogRow>, n: nat)
    requires n <= |sorted|
    requires forall i, j :: 0 <= i < j < |sorted| ==> sorted[i].createdAt >= sorted[j].createdAt
    ensures forall x :: x in multiset(sorted[n..]) ==> forall k :: 0 <= k < n ==> x.createdAt <= sorted[k].createdAt
  {
    forall x | x in multiset(sorted[n..])
      ensures forall k :: 0 <= k < n ==> x.createdAt <= sorted[k].createdAt
    {
      var j :| 0 <= j < |sorted| - n && sorted[n..][j] == x;
      assert x == sorted[n + j];
    }
  }

  /** What a prefix of a permutation of the log leaves out is its suffix. */
  lemma PrefixOfPermutation(log: seq<LogRow>, sorted: seq<LogRow>, n: nat)
    requires multiset(sorted) == multiset(log)
    requires n <= |sorted|
    ensures multiset(sorted[..n]) <= multiset(log)
    ensures multiset(log) - multiset(sorted[..n]) == multiset(sorted[n..])
  {
    assert sorted == sorted[..n] + sorted[n..];
  }

  /** A prefix of the log sorted newest first: it takes rows of the log,
      keeps their order, and whatever it leaves out is no newer than any row
      it keeps. */
  lemma PrefixIsNewest(log: seq<LogRow>, sorted: seq<LogRow>, n: nat)
    requires multiset(sorted) == multiset(log)
    requires n <= |sorted|
    requires forall i, j :: 0 <= i < j < |sorted| ==> sorted[i].createdAt >= sorted[j].createdAt
    ensures multiset(sorted[..n]) <= multiset(log)
    ensures forall i, j :: 0 <= i < j < n ==> sorted[..n][i].createdAt >= sorted[..n][j].createdAt
    ensures forall x :: x in multiset(log) - multiset(sorted[..n]) ==>
              forall k :: 0 <= k < n ==> x.createdAt <= sorted[..n][k].createdAt
  {
    PrefixOfPermutation(log, sorted, n);
    SuffixNoNewer(sorted, n);
    var kept := sorted[..n];
    assert forall k :: 0 <= k < n ==> kept[k] == sorted[k];
  }

  /** The rows `getAlerts` shows: the `limit` newest (10 by default), newest
      first, each log row at most as often as it occurs in the log, and no row
      left out newer than one shown. */
  function NewestRows(log: seq<LogRow>, limit: Option<nat>): (shown: seq<LogRow>)
    ensures |shown| == Min(limit.GetOr(10), |log|)
    ensures multiset(shown) <= multiset(log)
    ensures forall i, j :: 0 <= i < j < |shown| ==> shown[i].createdAt >= shown[j].createdAt
    ensures forall x :: x in multiset(log) - multiset(shown) ==>
              forall k :: 0 <= k < |shown| ==> x.createdAt <= shown[k].createdAt
  {
    NewestFirstIsTotalPreorder();
    var sorted := Ordering.SortBy(log, NewestFirst);
    Seqs.PermutationMembers(sorted, log);
    NewestFirstSorted(sorted);
    var n := Min(limit.GetOr(10), |sorted|);
    PrefixIsNewest(log, sorted, n);
    sorted[..n]
  }

  /** Rows taken from the log are rows of the log. */
  lemma RowsOfLog(log: seq<LogRow>, shown: seq<LogRow>)
    requires multiset(shown) <= multiset(log)
    ensures forall k :: 0 <= k < |shown| ==> shown[k] in log
  {
    forall k | 0 <= k < |shown| ensures shown[k] in log {
      assert shown[k] in multiset(shown);
    }
  }

  /** `getAlerts(limit = 10)`: the newest `limit` log rows, newest first, each
      turned into its alert. */
  function GetAlerts(log: seq<LogRow>, limit: Option<nat>): (r: seq<Alert>)
    ensures r == Seqs.Map(NewestRows(log, limit), AlertOf)
    ensures |r| == Min(limit.GetOr(10), |log|)
    ensures forall i, j :: 0 <= i < j < |r| ==> r[i].timestamp >= r[j].timestamp
  {
    Seqs.Map(NewestRows(log, limit), AlertOf)
  }

  /** Every alert shown is the alert of a row of the log. */
  lemma GetAlertsFromLog(log: seq<LogRow>, limit: Option<nat>)
    ensures forall k :: 0 <= k < |GetAlerts(log, limit)| ==>
              exists row :: row in log && GetAlerts(log, limit)[k] == AlertOf(row)
  {
    var shown := NewestRows(log, limit);
    var alerts := GetAlerts(log, limit);
    assert alerts == Seqs.Map(shown, AlertOf);
    RowsOfLog(log, shown);
    forall k | 0 <= k < |alerts| ensures exists row :: row in log && alerts[k] == AlertOf(row) {
      var row := shown[k];
      assert row in log && alerts[k] == AlertOf(row);
    }
  }

  /** The alerts shown are those of a sub-multiset of the log of the right
      size, and every row not shown is no newer than every row shown. */
  lemma GetAlertsNewest(log: seq<LogRow>, limit: Option<nat>)
    ensures exists shown: seq<LogRow> ::
      && multiset(shown) <= multiset(log)
      && |shown| == Min(limit.GetOr(10), |log|)
      && GetAlerts(log, limit) == Seqs.Map(shown, AlertOf)
      && forall x :: x in multiset(log) - multiset(shown) ==>
           forall k :: 0 <= k < |shown| ==> x.createdAt <= shown[k].createdAt
  {
    var shown := NewestRows(log, limit);
    assert GetAlerts(log, limit) == Seqs.Map(shown, AlertOf);
  }

  /** `logAction`: appends one row holding the arguments, with `{}` for
      details that are omitted or falsy, and returns true. */
  function LogAction(log: seq<LogRow>, newId: string, now: Timestamp, action: string,
                     tableName: string, recordId: string, details: Option<Json.Json>): (r: (seq<LogRow>, bool))
    ensures r.1
    ensures |r.0| == |log| + 1 && r.0[..|log|] == log
    ensures r.0[|log|].action == action && r.0[|log|].tableName == tableName
    ensures r.0[|log|].recordId == Some(recordId)
    ensures !Json.FieldTruthy(details) ==> r.0[|log|].details == Json.JObj(map[])
    ensures Json.FieldTruthy(details) ==> r.0[|log|].details == details.value
  {
    var stored := if Json.FieldTruthy(details) then details.value else Json.JObj(map[]);
    (log + [LogRow(newId, action, tableName, Some(recordId), stored, now)], true)
  }
}
