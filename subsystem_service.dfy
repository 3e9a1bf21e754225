/** Subsystems: the update guard on the required columns, the filtered and
    ordered list, the lookup by id, updates and deletes. */
module SubsystemService {
  import opened Wrappers
  import opened Entities
  import opened Patches
  import Seqs
  import Ordering

  /** An update either trips the guard (its message) or finds no single row to return. */
  datatype UpdateError = Invalid(message: string) | NoSingleRow

  datatype SubsystemPatch = SubsystemPatch(
    name: Patch<string>, systemId: Patch<string>, completionRate: Patch<Option<int>>,
    startDate: Patch<Option<Timestamp>>, endDate: Patch<Option<Timestamp>>)

  /** The guard of `updateSubsystem`: name first, then system id. */
  function SubsystemGuard(patch: SubsystemPatch): (r: Option<string>)
    ensures r.None? <==> !patch.name.Undefined? && !patch.systemId.Undefined?
    ensures patch.name.Undefined? ==> r == Some("Subsystem name cannot be undefined")
    ensures !patch.name.Undefined? && patch.systemId.Undefined? ==> r == Some("System ID cannot be undefined")
  {
    if patch.name.Undefined? then Some("Subsystem name cannot be undefined")
    else if patch.systemId.Undefined? then Some("System ID cannot be undefined")
    else None
  }

  /** The subsystem after `.update(subsystemData)`: each key present with a
      value is written, every other column keeps its stored value. */
  function PatchedSubsystem(s: Subsystem, patch: SubsystemPatch): (r: Subsystem)
    ensures r.id == s.id
    ensures r.name == Apply(s.name, patch.name)
    ensures r.systemId == Apply(s.systemId, patch.systemId)
    ensures r.completionRate == Apply(s.completionRate, patch.completionRate)
    ensures r.startDate == Apply(s.startDate, patch.startDate)
    ensures r.endDate == Apply(s.endDate, patch.endDate)
    ensures patch == SubsystemPatch(Absent, Absent, Absent, Absent, Absent) ==> r == s
  {
    Subsystem(s.id, Apply(s.name, patch.name), Apply(s.systemId, patch.systemId),
              Apply(s.completionRate, patch.completionRate), Apply(s.startDate, patch.startDate),
              Apply(s.endDate, patch.endDate))
  }

  /** A patch touching only dates and completion passes the guard and keeps name and system. */
  lemma DatesOnlyUpdatePasses(s: Subsystem, patch: SubsystemPatch)
    requires patch.name.Absent? && patch.systemId.Absent?
    ensures SubsystemGuard(patch).None?
    ensures PatchedSubsystem(s, patch).name == s.name && PatchedSubsystem(s, patch).systemId == s.systemId
  {
  }

  function IdIs(id: string): Subsystem -> bool {
    (s: Subsystem) => s.id == id
  }

  function IdIsNot(id: string): Subsystem -> bool {
    (s: Subsystem) => s.id != id
  }

  function InSystem(systemId: string): Subsystem -> bool {
    (s: Subsystem) => s.systemId == systemId
  }

  function NameOf(s: Subsystem): string {
    s.name
  }

  /** The `systemId` filter applies only when it is given and not empty. */
  predicate Filtering(systemId: Option<string>) {
    systemId.Some? && systemId.value != ""
  }

  /** `getSubsystems(systemId)`: the subsystems of that system, or all of them
      when the id is absent or empty, ordered by name. */
  function SelectSubsystems(subsystems: seq<Subsystem>, systemId: Option<string>): (r: seq<Subsystem>)
    ensures forall s :: s in r <==> s in subsystems && (!Filtering(systemId) || s.systemId == systemId.value)
    ensures !Filtering(systemId) ==> multiset(r) == multiset(subsystems)
    ensures forall s :: multiset(r)[s] ==
              if !Filtering(systemId) || s.systemId == systemId.value then multiset(subsystems)[s] else 0
    ensures forall i, j :: 0 <= i < j < |r| ==> Ordering.LexLe(r[i].name, r[j].name)
    ensures subsystems == [] ==> r == []
  {
    var query := if Filtering(systemId) then Seqs.Filter(subsystems, InSystem(systemId.value)) else subsystems;
    Seqs.FilterMultiset(subsystems, InSystem(systemId.GetOr("")));
    Ordering.TextOrderIsTotalPreorder(NameOf);
    var sorted := Ordering.SortBy(query, Ordering.TextOrder(NameOf));
    Ordering.SortedByText(sorted, NameOf);
    Seqs.PermutationMembers(sorted, query);
    sorted
  }

  /** `getSubsystem(id)`: the row with that id, or null when there is none. */
  function FindSubsystem(subsystems: seq<Subsystem>, id: string): (r: Option<Subsystem>)
    ensures r.None? <==> forall k :: 0 <= k < |subsystems| ==> subsystems[k].id != id
    ensures r.Some? ==> r.value in subsystems && r.value.id == id
  {
    var k := Seqs.FirstIndex(subsystems, IdIs(id));
    if k.Some? then Some(subsystems[k.value]) else None
  }

  ghost predicate DistinctIds(subsystems: seq<Subsystem>) {
    forall i, j :: 0 <= i < j < |subsystems| ==> subsystems[i].id != subsystems[j].id
  }

  /** With distinct ids, the lookup returns the one row that has the id. */
  lemma FindSubsystemUnique(subsystems: seq<Subsystem>, k: nat)
    requires DistinctIds(subsystems) && k < |subsystems|
    ensures FindSubsystem(subsystems, subsystems[k].id) == Some(subsystems[k])
  {
    var r := FindSubsystem(subsystems, subsystems[k].id);
    var j :| 0 <= j < |subsystems| && subsystems[j] == r.value;
    assert j == k;
  }

  /** Deleting rows keeps the remaining ids distinct, and no row keeps the deleted id. */
  lemma {:induction false} DeleteKeepsDistinct(subsystems: seq<Subsystem>, id: string)
    requires DistinctIds(subsystems)
    ensures DistinctIds(Seqs.Filter(subsystems, IdIsNot(id)))
    ensures forall s :: s in Seqs.Filter(subsystems, IdIsNot(id)) ==> s.id != id
  {
    if subsystems != [] {
      DeleteKeepsDistinct(subsystems[1..], id);
      var rest := Seqs.Filter(subsystems[1..], IdIsNot(id));
      assert forall s :: s in rest ==> s in subsystems[1..];
      assert forall s :: s in subsystems[1..] ==> s.id != subsystems[0].id;
    }
  }

  class SubsystemStore {
    var subsystems: seq<Subsystem>

    ghost predicate Valid()
      reads this
    {
      DistinctIds(subsystems)
    }

    constructor()
      ensures Valid() && subsystems == []
    {
      subsystems := [];
    }

    function GetSubsystems(systemId: Option<string>): (r: seq<Subsystem>)
      reads this
      ensures r == SelectSubsystems(subsystems, systemId)
    {
      SelectSubsystems(subsystems, systemId)
    }

    function GetSubsystem(id: string): (r: Option<Subsystem>)
      reads this
      ensures r == FindSubsystem(subsystems, id)
    {
      FindSubsystem(subsystems, id)
    }

    /** `updateSubsystem`: a tripped guard throws before anything is written;
        otherwise the row with that id gets the patch, and an id no row has
        fails the single-row read after writing nothing. */
    method UpdateSubsystem(id: string, patch: SubsystemPatch) returns (r: Result<Subsystem, UpdateError>)
      requires Valid()
      modifies this
      ensures Valid()
      ensures SubsystemGuard(patch).Some? ==> r == Err(Invalid(SubsystemGuard(patch).value)) && subsystems == old(subsystems)
      ensures SubsystemGuard(patch).None? && FindSubsystem(old(subsystems), id).None? ==>
        r == Err(NoSingleRow) && subsystems == old(subsystems)
      ensures SubsystemGuard(patch).None? && FindSubsystem(old(subsystems), id).Some? ==>
        var i := Seqs.FirstIndex(old(subsystems), IdIs(id)).value;
        && r == Ok(PatchedSubsystem(old(subsystems)[i], patch))
        && subsystems == old(subsystems)[i := r.value]
    {
      var refused := SubsystemGuard(patch);
      if refused.Some? {
        return Err(Invalid(refused.value));
      }
      var found := Seqs.FirstIndex(subsystems, IdIs(id));
      if found.None? {
        return Err(NoSingleRow);
      }
      var i := found.value;
      var updated := PatchedSubsystem(subsystems[i], patch);
      subsystems := subsystems[i := updated];
      r := Ok(updated);
    }

    /** `deleteSubsystem`: removes the rows with that id and answers true. */
    method DeleteSubsystem(id: string) returns (ok: bool)
      requires Valid()
      modifies this
      ensures Valid() && ok
      ensures subsystems == Seqs.Filter(old(subsystems), IdIsNot(id))
      ensures FindSubsystem(subsystems, id).None?
    {
      subsystems := Seqs.Filter(subsystems, IdIsNot(id));
      DeleteKeepsDistinct(old(subsystems), id);
      ok := true;
    }
  }
}
