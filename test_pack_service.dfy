/** Test packs and their tags: the update guards on required columns, the
    filtered and ordered reads, updates and deletes. */
module TestPackService {
  import opened Wrappers
  import opened Entities
  import opened Patches
  import Seqs
  import Ordering

  /** An update either trips a guard (its message) or finds no single row to return. */
  datatype UpdateError = Invalid(message: string) | NoSingleRow

  datatype TestPackPatch = TestPackPatch(
    nombrePaquete: Patch<string>, itrAsociado: Patch<string>, sistema: Patch<string>,
    subsistema: Patch<string>, estado: Patch<string>)

  datatype TagPatch = TagPatch(
    tagName: Patch<string>, testPackId: Patch<string>, estado: Patch<string>,
    fechaLiberacion: Patch<Option<Timestamp>>)

  /** The guard of `updateTestPack`: the first required column present as a
      key but undefined, checked in the order name, ITR, system, subsystem. */
  function TestPackGuard(patch: TestPackPatch): (r: Option<string>)
    ensures r.None? <==>
      !patch.nombrePaquete.Undefined? && !patch.itrAsociado.Undefined? && !patch.sistema.Undefined? && !patch.subsistema.Undefined?
    ensures patch.nombrePaquete.Undefined? ==> r == Some("TestPack name cannot be undefined")
    ensures !patch.nombrePaquete.Undefined? && patch.itrAsociado.Undefined? ==> r == Some("ITR Asociado cannot be undefined")
    ensures !patch.nombrePaquete.Undefined? && !patch.itrAsociado.Undefined? && patch.sistema.Undefined? ==>
      r == Some("Sistema cannot be undefined")
    ensures (!patch.nombrePaquete.Undefined? && !patch.itrAsociado.Undefined? && !patch.sistema.Undefined?
             && patch.subsistema.Undefined?) ==> r == Some("Subsistema cannot be undefined")
  {
    if patch.nombrePaquete.Undefined? then Some("TestPack name cannot be undefined")
    else if patch.itrAsociado.Undefined? then Some("ITR Asociado cannot be undefined")
    else if patch.sistema.Undefined? then Some("Sistema cannot be undefined")
    else if patch.subsistema.Undefined? then Some("Subsistema cannot be undefined")
    else None
  }

  /** The guard of `updateTag`: tag name first, then test pack id. */
  function TagGuard(patch: TagPatch): (r: Option<string>)
    ensures r.None? <==> !patch.tagName.Undefined? && !patch.testPackId.Undefined?
    ensures patch.tagName.Undefined? ==> r == Some("Tag name cannot be undefined")
    ensures !patch.tagName.Undefined? && patch.testPackId.Undefined? ==> r == Some("Test Pack ID cannot be undefined")
  {
    if patch.tagName.Undefined? then Some("Tag name cannot be undefined")
    else if patch.testPackId.Undefined? then Some("Test Pack ID cannot be undefined")
    else None
  }

  /** A patch that leaves the required columns out, or sets them, passes the
      guard whatever it does with the state column. */
  lemma PartialTestPackUpdatesPass(patch: TestPackPatch)
    requires !patch.nombrePaquete.Undefined? && !patch.itrAsociado.Undefined?
    requires !patch.sistema.Undefined? && !patch.subsistema.Undefined?
    ensures TestPackGuard(patch).None?
    ensures TestPackGuard(patch.(estado := Undefined)).None?
  {
  }

  /** The pack after `.update(testPackData)`: each key present with a value
      is written, every other column keeps its stored value. */
  function PatchedPack(p: TestPack, patch: TestPackPatch): (r: TestPack)
    ensures r.id == p.id
    ensures r.nombrePaquete == Apply(p.nombrePaquete, patch.nombrePaquete)
    ensures r.itrAsociado == Apply(p.itrAsociado, patch.itrAsociado)
    ensures r.sistema == Apply(p.sistema, patch.sistema)
    ensures r.subsistema == Apply(p.subsistema, patch.subsistema)
    ensures r.estado == Apply(p.estado, patch.estado)
    ensures patch == TestPackPatch(Absent, Absent, Absent, Absent, Absent) ==> r == p
  {
    TestPack(p.id, Apply(p.nombrePaquete, patch.nombrePaquete), Apply(p.itrAsociado, patch.itrAsociado),
             Apply(p.sistema, patch.sistema), Apply(p.subsistema, patch.subsistema), Apply(p.estado, patch.estado))
  }

  /** The tag after `.update(tagData)`: each key present with a value is
      written, every other column keeps its stored value. */
  function PatchedTag(t: Tag, patch: TagPatch): (r: Tag)
    ensures r.id == t.id && r.createdAt == t.createdAt
    ensures r.testPackId == Apply(t.testPackId, patch.testPackId)
    ensures r.tagName == Apply(t.tagName, patch.tagName)
    ensures r.estado == Apply(t.estado, patch.estado)
    ensures r.fechaLiberacion == Apply(t.fechaLiberacion, patch.fechaLiberacion)
    ensures patch == TagPatch(Absent, Absent, Absent, Absent) ==> r == t
  {
    Tag(t.id, Apply(t.testPackId, patch.testPackId), Apply(t.tagName, patch.tagName), Apply(t.estado, patch.estado),
        Apply(t.fechaLiberacion, patch.fechaLiberacion), t.createdAt)
  }

  function PackIdIs(id: string): TestPack -> bool {
    (p: TestPack) => p.id == id
  }

  function PackIdIsNot(id: string): TestPack -> bool {
    (p: TestPack) => p.id != id
  }

  function TagIdIs(id: string): Tag -> bool {
    (t: Tag) => t.id == id
  }

  function TagIdIsNot(id: string): Tag -> bool {
    (t: Tag) => t.id != id
  }

  function ForItr(itrName: string): TestPack -> bool {
    (p: TestPack) => p.itrAsociado == itrName
  }

  function ForPack(testPackId: string): Tag -> bool {
    (t: Tag) => t.testPackId == testPackId
  }

  function PackName(p: TestPack): string {
    p.nombrePaquete
  }

  function OlderFirst(a: Tag, b: Tag): bool {
    a.createdAt <= b.createdAt
  }

  lemma OlderFirstIsTotalPreorder()
    ensures Ordering.TotalPreorder(OlderFirst)
  {
  }

  lemma OlderFirstSorted(s: seq<Tag>)
    requires Ordering.Sorted(s, OlderFirst)
    ensures forall i, j :: 0 <= i < j < |s| ==> s[i].createdAt <= s[j].createdAt
  {
    forall i, j | 0 <= i < j < |s| ensures s[i].createdAt <= s[j].createdAt {
      assert OlderFirst(s[i], s[j]);
    }
  }

  /** The `itrName` filter applies only when it is given and not empty. */
  predicate Filtering(itrName: Option<string>) {
    itrName.Some? && itrName.value != ""
  }

  /** `getTestPacks(itrName)`: the packs of that ITR, or all packs when the
      name is absent or empty, ordered by package name. */
  function SelectTestPacks(packs: seq<TestPack>, itrName: Option<string>): (r: seq<TestPack>)
    ensures forall p :: p in r <==> p in packs && (!Filtering(itrName) || p.itrAsociado == itrName.value)
    ensures !Filtering(itrName) ==> multiset(r) == multiset(packs)
    ensures forall p :: multiset(r)[p] ==
              if !Filtering(itrName) || p.itrAsociado == itrName.value then multiset(packs)[p] else 0
    ensures forall i, j :: 0 <= i < j < |r| ==> Ordering.LexLe(r[i].nombrePaquete, r[j].nombrePaquete)
  {
    var query := if Filtering(itrName) then Seqs.Filter(packs, ForItr(itrName.value)) else packs;
    Seqs.FilterMultiset(packs, ForItr(itrName.GetOr("")));
    Ordering.TextOrderIsTotalPreorder(PackName);
    var sorted := Ordering.SortBy(query, Ordering.TextOrder(PackName));
    Ordering.SortedByText(sorted, PackName);
    Seqs.PermutationMembers(sorted, query);
    sorted
  }

  /** `getTagsByTestPack(testPackId)`: that pack's tags, oldest first. */
  function SelectTags(tags: seq<Tag>, testPackId: string): (r: seq<Tag>)
    ensures forall t :: t in r <==> t in tags && t.testPackId == testPackId
    ensures forall t :: multiset(r)[t] == if t.testPackId == testPackId then multiset(tags)[t] else 0
    ensures forall i, j :: 0 <= i < j < |r| ==> r[i].createdAt <= r[j].createdAt
    ensures |r| <= |tags|
  {
    var query := Seqs.Filter(tags, ForPack(testPackId));
    Seqs.FilterMultiset(tags, ForPack(testPackId));
    OlderFirstIsTotalPreorder();
    var sorted := Ordering.SortBy(query, OlderFirst);
    OlderFirstSorted(sorted);
    Seqs.PermutationMembers(sorted, query);
    sorted
  }

  /** A pack with no tags reads as the empty list. */
  lemma NoTagsNoRows(tags: seq<Tag>, testPackId: string)
    requires forall k :: 0 <= k < |tags| ==> tags[k].testPackId != testPackId
    ensures SelectTags(tags, testPackId) == []
  {
  }

  ghost predicate DistinctPackIds(packs: seq<TestPack>) {
    forall i, j :: 0 <= i < j < |packs| ==> packs[i].id != packs[j].id
  }

  ghost predicate DistinctTagIds(tags: seq<Tag>) {
    forall i, j :: 0 <= i < j < |tags| ==> tags[i].id != tags[j].id
  }

  class TestPackStore {
    var packs: seq<TestPack>
    var tags: seq<Tag>

    ghost predicate Valid()
      reads this
    {
      DistinctPackIds(packs) && DistinctTagIds(tags)
    }

    constructor()
      ensures Valid() && packs == [] && tags == []
    {
      packs := [];
      tags := [];
    }

    function GetTestPacks(itrName: Option<string>): (r: seq<TestPack>)
      reads this
      ensures r == SelectTestPacks(packs, itrName)
    {
      SelectTestPacks(packs, itrName)
    }

    function GetTagsByTestPack(testPackId: string): (r: seq<Tag>)
      reads this
      ensures r == SelectTags(tags, testPackId)
    {
      SelectTags(tags, testPackId)
    }

    /** `updateTestPack`: a tripped guard throws before anything is written;
        otherwise the row with that id gets the patch, and an id no row has
        fails the single-row read after writing nothing. */
    method UpdateTestPack(id: string, patch: TestPackPatch) returns (r: Result<TestPack, UpdateError>)
      requires Valid()
      modifies this
      ensures Valid() && tags == old(tags)
      ensures TestPackGuard(patch).Some? ==> r == Err(Invalid(TestPackGuard(patch).value)) && packs == old(packs)
      ensures TestPackGuard(patch).None? && Seqs.FirstIndex(old(packs), PackIdIs(id)).None? ==>
        r == Err(NoSingleRow) && packs == old(packs)
      ensures TestPackGuard(patch).None? && Seqs.FirstIndex(old(packs), PackIdIs(id)).Some? ==>
        var i := Seqs.FirstIndex(old(packs), PackIdIs(id)).value;
        r == Ok(PatchedPack(old(packs)[i], patch)) && packs == old(packs)[i := r.value]
    {
      var refused := TestPackGuard(patch);
      if refused.Some? {
        return Err(Invalid(refused.value));
      }
      var found := Seqs.FirstIndex(packs, PackIdIs(id));
      if found.None? {
        return Err(NoSingleRow);
      }
      var i := found.value;
      var updated := PatchedPack(packs[i], patch);
      packs := packs[i := updated];
      r := Ok(updated);
    }

    /** `updateTag`: the same shape over the tags table. */
    method UpdateTag(id: string, patch: TagPatch) returns (r: Result<Tag, UpdateError>)
      requires Valid()
      modifies this
      ensures Valid() && packs == old(packs)
      ensures TagGuard(patch).Some? ==> r == Err(Invalid(TagGuard(patch).value)) && tags == old(tags)
      ensures TagGuard(patch).None? && Seqs.FirstIndex(old(tags), TagIdIs(id)).None? ==>
        r == Err(NoSingleRow) && tags == old(tags)
      ensures TagGuard(patch).None? && Seqs.FirstIndex(old(tags), TagIdIs(id)).Some? ==>
        var i := Seqs.FirstIndex(old(tags), TagIdIs(id)).value;
        r == Ok(PatchedTag(old(tags)[i], patch)) && tags == old(tags)[i := r.value]
    {
      var refused := TagGuard(patch);
      if refused.Some? {
        return Err(Invalid(refused.value));
      }
      var found := Seqs.FirstIndex(tags, TagIdIs(id));
      if found.None? {
        return Err(NoSingleRow);
      }
      var i := found.value;
      var updated := PatchedTag(tags[i], patch);
      tags := tags[i := updated];
      r := Ok(updated);
    }

    /** `deleteTestPack`: removes the rows with that id and answers true. */
    method DeleteTestPack(id: string) returns (ok: bool)
      requires Valid()
      modifies this
      ensures Valid() && ok
      ensures packs == Seqs.Filter(old(packs), PackIdIsNot(id)) && tags == old(tags)
    {
      packs := Seqs.Filter(packs, PackIdIsNot(id));
      FilterKeepsDistinct(old(packs), id);
      ok := true;
    }

    /** `deleteTag`: removes the rows with that id and answers true. */
    method DeleteTag(id: string) returns (ok: bool)
      requires Valid()
      modifies this
      ensures Valid() && ok
      ensures tags == Seqs.Filter(old(tags), TagIdIsNot(id)) && packs == old(packs)
    {
      tags := Seqs.Filter(tags, TagIdIsNot(id));
      FilterKeepsDistinctTags(old(tags), id);
      ok := true;
    }
  }

  /** Deleting rows keeps the remaining ids distinct, and no row keeps the deleted id. */
  lemma {:induction false} FilterKeepsDistinct(packs: seq<TestPack>, id: string)
    requires DistinctPackIds(packs)
    ensures DistinctPackIds(Seqs.Filter(packs, PackIdIsNot(id)))
    ensures forall p :: p in Seqs.Filter(packs, PackIdIsNot(id)) ==> p.id != id
  {
    if packs != [] {
      FilterKeepsDistinct(packs[1..], id);
      var rest := Seqs.Filter(packs[1..], PackIdIsNot(id));
      assert forall p :: p in rest ==> p in packs[1..];
      assert forall p :: p in packs[1..] ==> p.id != packs[0].id;
    }
  }

  lemma {:induction false} FilterKeepsDistinctTags(tags: seq<Tag>, id: string)
    requires DistinctTagIds(tags)
    ensures DistinctTagIds(Seqs.Filter(tags, TagIdIsNot(id)))
    ensures forall t :: t in Seqs.Filter(tags, TagIdIsNot(id)) ==> t.id != id
  {
    if tags != [] {
      FilterKeepsDistinctTags(tags[1..], id);
      var rest := Seqs.Filter(tags[1..], TagIdIsNot(id));
      assert forall t :: t in rest ==> t in tags[1..];
      assert forall t :: t in tags[1..] ==> t.id != tags[0].id;
    }
  }
}
