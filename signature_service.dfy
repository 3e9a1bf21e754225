/** The ITR sign-off ledger: signatures kept in the `metadata.signatures` list
    of the ITR row, two roles (inspector, approver) completing the ITR, and a
    revocation that resets it to in-progress. */
module SignatureService {
  import opened Wrappers
  import opened Entities
  import Seqs

  datatype SignError =
    | ItrNotFound
    | UserNotFound
    | AlreadySigned(role: SignRole)
    | SignatureNotFound
    | NoSingleRow   // the client's error for a single-row read that matched no row

  /** The signature list of an ITR: its `metadata.signatures` when both are
      present, otherwise the empty list. */
  function StoredSignatures(itr: Itr): seq<Signature> {
    if itr.metadata.Some? && itr.metadata.value.signatures.Some?
    then itr.metadata.value.signatures.value
    else []
  }

  /** The metadata keys other than `signatures`, kept by every write. */
  function OtherMetadata(itr: Itr): map<string, string> {
    if itr.metadata.Some? then itr.metadata.value.others else map[]
  }

  /** `{ ...itr.metadata, signatures }` written back to the row. */
  function WithSignatures(itr: Itr, sigs: seq<Signature>): (r: Itr)
    ensures StoredSignatures(r) == sigs && OtherMetadata(r) == OtherMetadata(itr)
    ensures r.(metadata := itr.metadata) == itr
  {
    itr.(metadata := Some(ItrMetadata(Some(sigs), OtherMetadata(itr))))
  }

  /** Some signature in the list is by `userId` in `role`. */
  predicate HasSigned(sigs: seq<Signature>, userId: string, role: SignRole) {
    exists k :: 0 <= k < |sigs| && sigs[k].userId == userId && sigs[k].role == role
  }

  predicate HasRole(sigs: seq<Signature>, role: SignRole) {
    exists k :: 0 <= k < |sigs| && sigs[k].role == role
  }

  /** Both an inspector and an approver signed, by any users. */
  predicate FullySigned(sigs: seq<Signature>) {
    HasRole(sigs, Inspector) && HasRole(sigs, Approver)
  }

  /** The ITR row after a successful `signItr`: the signature is appended to the
      list, other metadata keys are kept, and the ITR completes exactly when the
      list now holds both roles; nothing else in the row changes. */
  function Signed(itr: Itr, sig: Signature): (r: Itr)
    ensures StoredSignatures(r) == StoredSignatures(itr) + [sig]
    ensures OtherMetadata(r) == OtherMetadata(itr)
    ensures FullySigned(StoredSignatures(r)) ==> r.status == "complete" && r.progress == Some(100)
    ensures !FullySigned(StoredSignatures(r)) ==> r.status == itr.status && r.progress == itr.progress
    ensures r.(metadata := itr.metadata, status := itr.status, progress := itr.progress) == itr
  {
    var sigs := StoredSignatures(itr) + [sig];
    var written := WithSignatures(itr, sigs);
    if FullySigned(sigs) then written.(status := "complete", progress := Some(100)) else written
  }

  /** The ITR row after `revokeSignature` removed its k-th signature: the other
      signatures keep their order and the row is reset to in-progress at 50,
      whatever signatures remain. */
  function Revoked(itr: Itr, k: nat): (r: Itr)
    requires k < |StoredSignatures(itr)|
    ensures StoredSignatures(r) == Seqs.RemoveAt(StoredSignatures(itr), k)
    ensures OtherMetadata(r) == OtherMetadata(itr)
    ensures r.status == "inprogress" && r.progress == Some(50)
    ensures r.(metadata := itr.metadata, status := itr.status, progress := itr.progress) == itr
  {
    WithSignatures(itr, Seqs.RemoveAt(StoredSignatures(itr), k)).(status := "inprogress", progress := Some(50))
  }

  /** The test of `findIndex(s => s.id === sigId)`. */
  function SigIdIs(sigId: string): Signature -> bool {
    (s: Signature) => s.id == sigId
  }

  /** `signatures.findIndex(s => s.id === sigId)`. */
  function FirstWithId(sigs: seq<Signature>, sigId: string): (r: Option<nat>)
    ensures r.Some? ==> r.value < |sigs| && sigs[r.value].id == sigId
    ensures r.Some? ==> forall m :: 0 <= m < r.value ==> sigs[m].id != sigId
    ensures r.None? <==> forall m :: 0 <= m < |sigs| ==> sigs[m].id != sigId
  {
    Seqs.FirstIndex(sigs, SigIdIs(sigId))
  }

  /** The ITR's metadata holds a signature with this id. */
  predicate Holds(itr: Itr, sigId: string) {
    FirstWithId(StoredSignatures(itr), sigId).Some?
  }

  /** Where `revokeSignature` finds a signature id: the first ITR in scan order
      that holds it, and the first position with that id in its list. */
  function Locate(itrs: seq<Itr>, sigId: string): Option<(nat, nat)> {
    Seqs.LocateFirst(itrs, StoredSignatures, SigIdIs(sigId))
  }

  /** The scan loop of `revokeSignature`: walks the ITRs in order and stops at
      the first one whose list holds the id. */
  method FindSignature(itrs: seq<Itr>, sigId: string) returns (loc: Option<(nat, nat)>)
    ensures loc.None? <==> forall i :: 0 <= i < |itrs| ==> !Holds(itrs[i], sigId)
    ensures loc.Some? ==> loc.value.0 < |itrs| && Holds(itrs[loc.value.0], sigId)
    ensures loc.Some? ==> forall i :: 0 <= i < loc.value.0 ==> !Holds(itrs[i], sigId)
    ensures loc.Some? ==> FirstWithId(StoredSignatures(itrs[loc.value.0]), sigId) == Some(loc.value.1)
    ensures loc == Locate(itrs, sigId)
  {
    var i := 0;
    while i < |itrs|
      invariant 0 <= i <= |itrs|
      invariant forall j :: 0 <= j < i ==> !Holds(itrs[j], sigId)
    {
      var k := FirstWithId(StoredSignatures(itrs[i]), sigId);
      if k.Some? {
        Seqs.LocateFirstAt(itrs, StoredSignatures, SigIdIs(sigId), i, k.value);
        return Some((i, k.value));
      }
      i := i + 1;
    }
    return None;
  }

  /** The first position of an ITR id in the table. */
  function ItrIndex(itrs: seq<Itr>, itrId: string): (r: Option<nat>)
    ensures r.Some? ==> r.value < |itrs| && itrs[r.value].id == itrId
    ensures r.None? <==> forall i :: 0 <= i < |itrs| ==> itrs[i].id != itrId
  {
    Seqs.FirstIndex(itrs, (x: Itr) => x.id == itrId)
  }

  /** The sign-off walk-through: an inspector's signature leaves status and
      progress as they were; an approver's signature (by the same or another
      user, since the duplicate check keys on user and role) completes the ITR;
      revoking the approver's signature resets it to in-progress at 50 and
      leaves the inspector's. */
  lemma {:induction false} SignOffScenario(itr: Itr, a: Signature, b: Signature)
    requires StoredSignatures(itr) == []
    requires a.role == Inspector && b.role == Approver
    ensures Signed(itr, a).status == itr.status && Signed(itr, a).progress == itr.progress
    ensures !HasSigned(StoredSignatures(Signed(itr, a)), b.userId, Approver)
    ensures Signed(Signed(itr, a), b).status == "complete"
    ensures Signed(Signed(itr, a), b).progress == Some(100)
    ensures |StoredSignatures(Signed(Signed(itr, a), b))| == 2
    ensures Revoked(Signed(Signed(itr, a), b), 1).status == "inprogress"
    ensures Revoked(Signed(Signed(itr, a), b), 1).progress == Some(50)
    ensures StoredSignatures(Revoked(Signed(Signed(itr, a), b), 1)) == [a]
  {
    var one := Signed(itr, a);
    assert StoredSignatures(one) == [a];
    assert !HasRole([a], Approver);
    var two := Signed(one, b);
    assert StoredSignatures(two) == [a, b];
    assert StoredSignatures(two)[0].role == Inspector && StoredSignatures(two)[1].role == Approver;
    assert FullySigned(StoredSignatures(two));
  }

  /** A second inspector is not a duplicate: the check keys on the user as
      well as the role. */
  lemma {:induction false} OtherUserSameRole(itr: Itr, a: Signature, userId: string)
    requires StoredSignatures(itr) == [] && a.userId != userId
    ensures !HasSigned(StoredSignatures(Signed(itr, a)), userId, a.role)
    ensures HasSigned(StoredSignatures(Signed(itr, a)), a.userId, a.role)
  {
    var sigs := StoredSignatures(Signed(itr, a));
    assert sigs == [a];
    assert sigs[0].userId == a.userId && sigs[0].role == a.role;
  }

  /** Revoking a just-added signature (with an id no ITR held before) finds it
      at the end of that ITR's list and gives back the list as it was before
      signing. */
  lemma RevokeUndoesSign(itrs: seq<Itr>, i: nat, sig: Signature)
    requires i < |itrs|
    requires forall j :: 0 <= j < |itrs| ==> !Holds(itrs[j], sig.id)
    ensures var signed := itrs[i := Signed(itrs[i], sig)];
            var n := |StoredSignatures(itrs[i])|;
            && Locate(signed, sig.id) == Some((i, n))
            && StoredSignatures(Revoked(signed[i], n)) == StoredSignatures(itrs[i])
            && OtherMetadata(Revoked(signed[i], n)) == OtherMetadata(itrs[i])
  {
    var signed := itrs[i := Signed(itrs[i], sig)];
    var sigs := StoredSignatures(itrs[i]);
    var n := |sigs|;
    assert !Holds(itrs[i], sig.id);
    var after := StoredSignatures(signed[i]);
    assert after == sigs + [sig];
    var f := FirstWithId(after, sig.id);
    assert after[n].id == sig.id;
    assert f.Some?;
    assert f.value == n;
    forall j | 0 <= j < i
      ensures !Holds(signed[j], sig.id)
    {
      assert signed[j] == itrs[j];
    }
    Seqs.LocateFirstAt(signed, StoredSignatures, SigIdIs(sig.id), i, n);
    Seqs.RemoveAppended(sigs, sig);
  }

  ghost predicate DistinctIds(itrs: seq<Itr>) {
    forall i, j :: 0 <= i < j < |itrs| ==> itrs[i].id != itrs[j].id
  }

  /** The ITR table with the signature lists in its rows, and the set of
      profile ids that signers are checked against. */
  class SignatureLedger {
    var itrs: seq<Itr>
    var profiles: set<string>

    ghost predicate Valid()
      reads this
    {
      DistinctIds(itrs)
    }

    constructor (itrs: seq<Itr>, profiles: set<string>)
      requires DistinctIds(itrs)
      ensures Valid() && this.itrs == itrs && this.profiles == profiles
    {
      this.itrs := itrs;
      this.profiles := profiles;
    }

    /** `getItrSignatures`: the stored list of the ITR, [] when it has no
        metadata or no list; a read of a missing ITR fails. */
    function GetItrSignatures(itrId: string): (r: Result<seq<Signature>, SignError>)
      reads this
      ensures r.Err? <==> forall i :: 0 <= i < |itrs| ==> itrs[i].id != itrId
      ensures r.Err? ==> r.error == NoSingleRow
      ensures r.Ok? ==> exists i :: 0 <= i < |itrs| && itrs[i].id == itrId && r.value == StoredSignatures(itrs[i])
    {
      match ItrIndex(itrs, itrId)
      case None => Err(NoSingleRow)
      case Some(i) => Ok(StoredSignatures(itrs[i]))
    }

    /** `signItr`: the ITR and the profile must exist and the user must not
        have signed in this role yet; then the new signature is appended and
        the ITR completes once both roles have signed. A failure changes nothing. */
    method SignItr(itrId: string, userId: string, role: SignRole, newId: string, now: Timestamp)
      returns (r: Result<Signature, SignError>)
      requires Valid()
      modifies this
      ensures Valid() && profiles == old(profiles)
      ensures ItrIndex(old(itrs), itrId).None? ==> r == Err(ItrNotFound) && itrs == old(itrs)
      ensures ItrIndex(old(itrs), itrId).Some? && userId !in profiles ==>
        r == Err(UserNotFound) && itrs == old(itrs)
      ensures ItrIndex(old(itrs), itrId).Some? && userId in profiles ==>
        var i := ItrIndex(old(itrs), itrId).value;
        if HasSigned(StoredSignatures(old(itrs)[i]), userId, role) then
          r == Err(AlreadySigned(role)) && itrs == old(itrs)
        else
          r == Ok(Signature(newId, itrId, userId, role, now, now))
          && itrs == old(itrs)[i := Signed(old(itrs)[i], r.value)]
    {
      var idx := ItrIndex(itrs, itrId);
      if idx.None? {
        return Err(ItrNotFound);
      }
      if userId !in profiles {
        return Err(UserNotFound);
      }
      var i := idx.value;
      var sigs := StoredSignatures(itrs[i]);
      if HasSigned(sigs, userId, role) {
        return Err(AlreadySigned(role));
      }
      var sig := Signature(newId, itrId, userId, role, now, now);
      sigs := sigs + [sig];
      itrs := itrs[i := WithSignatures(itrs[i], sigs)];
      if FullySigned(sigs) {
        itrs := itrs[i := itrs[i].(status := "complete", progress := Some(100))];
      }
      r := Ok(sig);
    }

    /** `revokeSignature`: removes the first occurrence of the id, in the first
        ITR that holds it, and resets that ITR to in-progress at 50; an unknown
        id fails and changes nothing. */
    method RevokeSignature(sigId: string) returns (r: Result<bool, SignError>)
      requires Valid()
      modifies this
      ensures Valid() && profiles == old(profiles)
      ensures Locate(old(itrs), sigId).None? ==> r == Err(SignatureNotFound) && itrs == old(itrs)
      ensures Locate(old(itrs), sigId).Some? ==>
        var loc := Locate(old(itrs), sigId).value;
        r == Ok(true) && itrs == old(itrs)[loc.0 := Revoked(old(itrs)[loc.0], loc.1)]
    {
      var loc := FindSignature(itrs, sigId);
      if loc.None? {
        return Err(SignatureNotFound);
      }
      var (i, k) := loc.value;
      var sigs := Seqs.RemoveAt(StoredSignatures(itrs[i]), k);
      itrs := itrs[i := WithSignatures(itrs[i], sigs).(status := "inprogress", progress := Some(50))];
      r := Ok(true);
    }
  }
}
