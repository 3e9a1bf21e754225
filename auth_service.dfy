/** The role checks of the authentication service: `getUserRoles`, which
    treats a missing profile like one without roles, and `hasRole`. */
module AuthService {
  import opened Wrappers
  import opened Entities
  import UserService

  /** `getUserRoles`: [] when the profile, its metadata or its role list is
      missing (the read's error is ignored), otherwise the stored list. */
  function GetUserRoles(profiles: seq<Profile>, userId: string): (r: seq<UserRole>)
    ensures UserService.ProfileIndex(profiles, userId).None? ==> r == []
    ensures UserService.ProfileIndex(profiles, userId).Some? ==>
      var p := profiles[UserService.ProfileIndex(profiles, userId).value];
      r == (if p.metadata.None? || p.metadata.value.roles.None? then [] else p.metadata.value.roles.value)
  {
    match UserService.ProfileIndex(profiles, userId)
    case None => []
    case Some(i) => UserService.StoredRoles(profiles[i])
  }

  /** `hasRole`: some entry of the user's role list has this role name. */
  function HasRole(profiles: seq<Profile>, userId: string, role: string): (b: bool)
    ensures b <==> exists k :: 0 <= k < |GetUserRoles(profiles, userId)| && GetUserRoles(profiles, userId)[k].role == role
  {
    var roles := GetUserRoles(profiles, userId);
    var found := UserService.FirstWithRole(roles, role);
    assert found.Some? ==> roles[found.value].role == role;
    found.Some?
  }

  /** A user whose profile is missing or holds no role list has no role. */
  lemma NoRolesNoRole(profiles: seq<Profile>, userId: string, role: string)
    requires forall i :: 0 <= i < |profiles| && profiles[i].id == userId ==>
      profiles[i].metadata.None? || profiles[i].metadata.value.roles.None?
    ensures !HasRole(profiles, userId, role)
  {
    assert GetUserRoles(profiles, userId) == [];
  }

  /** After `assignRole` wrote the profile, `hasRole` holds for the assigned
      role name and is unchanged for every other name. */
  lemma AssignThenHasRole(profiles: seq<Profile>, i: nat, x: UserRole, other: string)
    requires UserService.DistinctIds(profiles) && i < |profiles|
    requires other != x.role
    ensures var p := profiles[i];
            var after := profiles[i := UserService.WithRoles(p, UserService.AssignedRoles(UserService.StoredRoles(p), x))];
            && HasRole(after, p.id, x.role)
            && HasRole(after, p.id, other) == HasRole(profiles, p.id, other)
  {
    var p := profiles[i];
    var roles := UserService.StoredRoles(p);
    var written := UserService.AssignedRoles(roles, x);
    var after := profiles[i := UserService.WithRoles(p, written)];
    assert UserService.ProfileIndex(profiles, p.id) == Some(i);
    assert UserService.ProfileIndex(after, p.id) == Some(i) by {
      assert after[i].id == p.id;
    }
    assert GetUserRoles(profiles, p.id) == roles;
    assert GetUserRoles(after, p.id) == written;
    if UserService.FirstWithRole(roles, x.role).None? {
      assert written[|roles|] == x;
      assert forall k :: 0 <= k < |roles| ==> written[k] == roles[k];
    }
  }
}
