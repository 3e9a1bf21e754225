/** Role management kept in the profile's `metadata.roles` list: reading the
    list, an idempotent assignment by role name, and removal by role-entry id. */
module UserService {
  import opened Wrappers
  import opened Entities
  import Seqs

  datatype RoleError =
    | NoSingleRow   // the single-row read of the profile matched no row
    | RoleNotFound

  /** The role list of a profile: `metadata.roles` when both are present,
      otherwise the empty list. */
  function StoredRoles(p: Profile): seq<UserRole> {
    if p.metadata.Some? && p.metadata.value.roles.Some? then p.metadata.value.roles.value else []
  }

  /** The metadata keys other than `roles`, kept by every write. */
  function OtherMetadata(p: Profile): map<string, string> {
    if p.metadata.Some? then p.metadata.value.others else map[]
  }

  /** `{ ...user.metadata, roles }` written back to the profile. */
  function WithRoles(p: Profile, roles: seq<UserRole>): (r: Profile)
    ensures StoredRoles(r) == roles && OtherMetadata(r) == OtherMetadata(p)
    ensures r.(metadata := p.metadata) == p
  {
    p.(metadata := Some(ProfileMetadata(Some(roles), OtherMetadata(p))))
  }

  function RoleIs(role: string): UserRole -> bool {
    (r: UserRole) => r.role == role
  }

  function RoleIdIs(roleId: string): UserRole -> bool {
    (r: UserRole) => r.id == roleId
  }

  /** `roles.find(r => r.role === role)`, as a position. */
  function FirstWithRole(roles: seq<UserRole>, role: string): (r: Option<nat>)
    ensures r.Some? ==> r.value < |roles| && roles[r.value].role == role
    ensures r.Some? ==> forall m :: 0 <= m < r.value ==> roles[m].role != role
    ensures r.None? <==> forall m :: 0 <= m < |roles| ==> roles[m].role != role
  {
    Seqs.FirstIndex(roles, RoleIs(role))
  }

  /** `roles.findIndex(r => r.id === roleId)`. */
  function FirstWithRoleId(roles: seq<UserRole>, roleId: string): (r: Option<nat>)
    ensures r.Some? ==> r.value < |roles| && roles[r.value].id == roleId
    ensures r.Some? ==> forall m :: 0 <= m < r.value ==> roles[m].id != roleId
    ensures r.None? <==> forall m :: 0 <= m < |roles| ==> roles[m].id != roleId
  {
    Seqs.FirstIndex(roles, RoleIdIs(roleId))
  }

  /** The number of entries with this role name. */
  function CountRole(roles: seq<UserRole>, role: string): nat {
    if roles == [] then 0 else (if roles[0].role == role then 1 else 0) + CountRole(roles[1..], role)
  }

  lemma {:induction false} CountRoleAppend(roles: seq<UserRole>, x: UserRole, role: string)
    ensures CountRole(roles + [x], role) == CountRole(roles, role) + (if x.role == role then 1 else 0)
  {
    if roles != [] {
      assert (roles + [x])[1..] == roles[1..] + [x];
      CountRoleAppend(roles[1..], x, role);
    }
  }

  lemma {:induction false} CountRoleZero(roles: seq<UserRole>, role: string)
    ensures CountRole(roles, role) == 0 <==> FirstWithRole(roles, role).None?
  {
    if roles != [] {
      CountRoleZero(roles[1..], role);
      if roles[0].role != role {
        assert forall m :: 1 <= m < |roles| ==> roles[m] == roles[1..][m - 1];
      }
    }
  }

  /** The role list after `assignRole` with this new entry: unchanged when an
      entry with the same role name exists, else the entry appended at the end. */
  function AssignedRoles(roles: seq<UserRole>, newRole: UserRole): seq<UserRole> {
    if FirstWithRole(roles, newRole.role).Some? then roles else roles + [newRole]
  }

  /** Assigning a role name twice is assigning it once. */
  lemma AssignIdempotent(roles: seq<UserRole>, x: UserRole, y: UserRole)
    requires x.role == y.role
    ensures AssignedRoles(AssignedRoles(roles, x), y) == AssignedRoles(roles, x)
  {
    var once := AssignedRoles(roles, x);
    assert once[|once| - 1].role == x.role || FirstWithRole(roles, x.role).Some?;
    assert FirstWithRole(once, y.role).Some?;
  }

  /** After an assignment the role name occurs once if it was absent, and as
      often as before otherwise. */
  lemma AssignCount(roles: seq<UserRole>, x: UserRole)
    ensures CountRole(AssignedRoles(roles, x), x.role)
         == if CountRole(roles, x.role) == 0 then 1 else CountRole(roles, x.role)
  {
    CountRoleZero(roles, x.role);
    CountRoleAppend(roles, x, x.role);
  }

  /** Assigning entries of one role name in turn. */
  function AssignAll(roles: seq<UserRole>, xs: seq<UserRole>): seq<UserRole>
    decreases |xs|
  {
    if xs == [] then roles else AssignAll(AssignedRoles(roles, xs[0]), xs[1..])
  }

  /** However often a role name is assigned, the list never holds it twice. */
  lemma {:induction false} RepeatedAssignUnique(roles: seq<UserRole>, role: string, xs: seq<UserRole>)
    requires CountRole(roles, role) <= 1
    requires forall k :: 0 <= k < |xs| ==> xs[k].role == role
    ensures CountRole(AssignAll(roles, xs), role) <= 1
    ensures xs != [] ==> CountRole(AssignAll(roles, xs), role) == 1
    decreases |xs|
  {
    if xs != [] {
      AssignCount(roles, xs[0]);
      RepeatedAssignUnique(AssignedRoles(roles, xs[0]), role, xs[1..]);
    }
  }

  /** Where `removeRole` finds a role id: the first profile in list order whose
      roles hold it, and the first position with that id. */
  function LocateRole(profiles: seq<Profile>, roleId: string): Option<(nat, nat)> {
    Seqs.LocateFirst(profiles, StoredRoles, RoleIdIs(roleId))
  }

  /** The scan loop of `removeRole`: walks the profiles in order and stops at
      the first one holding the role id. */
  method FindRole(profiles: seq<Profile>, roleId: string) returns (loc: Option<(nat, nat)>)
    ensures loc.None? <==> forall i :: 0 <= i < |profiles| ==> FirstWithRoleId(StoredRoles(profiles[i]), roleId).None?
    ensures loc.Some? ==> loc.value.0 < |profiles|
    ensures loc.Some? ==> forall i :: 0 <= i < loc.value.0 ==> FirstWithRoleId(StoredRoles(profiles[i]), roleId).None?
    ensures loc.Some? ==> FirstWithRoleId(StoredRoles(profiles[loc.value.0]), roleId) == Some(loc.value.1)
    ensures loc == LocateRole(profiles, roleId)
  {
    var i := 0;
    while i < |profiles|
      invariant 0 <= i <= |profiles|
      invariant forall j :: 0 <= j < i ==> FirstWithRoleId(StoredRoles(profiles[j]), roleId).None?
    {
      var k := FirstWithRoleId(StoredRoles(profiles[i]), roleId);
      if k.Some? {
        Seqs.LocateFirstAt(profiles, StoredRoles, RoleIdIs(roleId), i, k.value);
        return Some((i, k.value));
      }
      i := i + 1;
    }
    return None;
  }

  /** The first position of a profile id in the table. */
  function ProfileIndex(profiles: seq<Profile>, userId: string): (r: Option<nat>)
    ensures r.Some? ==> r.value < |profiles| && profiles[r.value].id == userId
    ensures r.None? <==> forall i :: 0 <= i < |profiles| ==> profiles[i].id != userId
  {
    Seqs.FirstIndex(profiles, (p: Profile) => p.id == userId)
  }

  ghost predicate DistinctIds(profiles: seq<Profile>) {
    forall i, j :: 0 <= i < j < |profiles| ==> profiles[i].id != profiles[j].id
  }

  /** The profiles table with the role lists in its rows. */
  class RoleLedger {
    var profiles: seq<Profile>

    ghost predicate Valid()
      reads this
    {
      DistinctIds(profiles)
    }

    constructor (profiles: seq<Profile>)
      requires DistinctIds(profiles)
      ensures Valid() && this.profiles == profiles
    {
      this.profiles := profiles;
    }

    /** `getUserRoles`: the stored list, [] when the profile has no metadata or
        no list; the single-row read of a missing profile fails. */
    function GetUserRoles(userId: string): (r: Result<seq<UserRole>, RoleError>)
      reads this
      ensures r.Err? <==> forall i :: 0 <= i < |profiles| ==> profiles[i].id != userId
      ensures r.Err? ==> r.error == NoSingleRow
      ensures r.Ok? ==> exists i :: 0 <= i < |profiles| && profiles[i].id == userId && r.value == StoredRoles(profiles[i])
    {
      match ProfileIndex(profiles, userId)
      case None => Err(NoSingleRow)
      case Some(i) => Ok(StoredRoles(profiles[i]))
    }

    /** `assignRole`: returns the existing entry with that role name and writes
        nothing, or appends a new entry for the user and returns it. */
    method AssignRole(userId: string, role: string, newId: string, now: Timestamp)
      returns (r: Result<UserRole, RoleError>)
      requires Valid()
      modifies this
      ensures Valid()
      ensures ProfileIndex(old(profiles), userId).None? ==> r == Err(NoSingleRow) && profiles == old(profiles)
      ensures ProfileIndex(old(profiles), userId).Some? ==>
        var i := ProfileIndex(old(profiles), userId).value;
        var roles := StoredRoles(old(profiles)[i]);
        match FirstWithRole(roles, role)
        case Some(k) => r == Ok(roles[k]) && profiles == old(profiles)
        case None =>
          && r == Ok(UserRole(newId, userId, role, now))
          && profiles == old(profiles)[i := WithRoles(old(profiles)[i], AssignedRoles(roles, r.value))]
    {
      var idx := ProfileIndex(profiles, userId);
      if idx.None? {
        return Err(NoSingleRow);
      }
      var i := idx.value;
      var current := StoredRoles(profiles[i]);
      var existing := FirstWithRole(current, role);
      if existing.Some? {
        return Ok(current[existing.value]);
      }
      var newRole := UserRole(newId, userId, role, now);
      var updated := current + [newRole];
      profiles := profiles[i := WithRoles(profiles[i], updated)];
      r := Ok(newRole);
    }

    /** `removeRole`: deletes the first entry with the id, in the first profile
        holding it, and returns true; an id no profile holds fails with
        "Role not found" and writes nothing. */
    method RemoveRole(roleId: string) returns (r: Result<bool, RoleError>)
      requires Valid()
      modifies this
      ensures Valid()
      ensures LocateRole(old(profiles), roleId).None? ==> r == Err(RoleNotFound) && profiles == old(profiles)
      ensures LocateRole(old(profiles), roleId).Some? ==>
        var (i, k) := LocateRole(old(profiles), roleId).value;
        && r == Ok(true)
        && profiles == old(profiles)[i := WithRoles(old(profiles)[i], Seqs.RemoveAt(StoredRoles(old(profiles)[i]), k))]
    {
      var loc := FindRole(profiles, roleId);
      if loc.None? {
        return Err(RoleNotFound);
      }
      var (i, k) := loc.value;
      var updated := Seqs.RemoveAt(StoredRoles(profiles[i]), k);
      profiles := profiles[i := WithRoles(profiles[i], updated)];
      r := Ok(true);
    }
  }
}
