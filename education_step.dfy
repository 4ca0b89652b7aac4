/** The education step of the CV builder: a list of entries, each with an
    id, edited one at a time (`editingId`). Entries are added blank, updated by
    merging a partial record into the entries with a given id, and removed by id. */
module EducationStep {
  import opened Wrappers
  import opened Lists

  datatype Education = Education(
    id: string,
    school: string,
    degree: string,
    field: string,
    graduationDate: string,
    description: string)

  /** `Partial<Education>`: the fields an update sets. */
  datatype EducationPatch = EducationPatch(
    id: Option<string>,
    school: Option<string>,
    degree: Option<string>,
    field: Option<string>,
    graduationDate: Option<string>,
    description: Option<string>)

  const NoChange := EducationPatch(None, None, None, None, None, None)

  /** `{ ...edu, ...updates }`: each field the patch sets replaces the entry's. */
  function Merge(e: Education, p: EducationPatch): Education
  {
    Education(
      p.id.GetOr(e.id),
      p.school.GetOr(e.school),
      p.degree.GetOr(e.degree),
      p.field.GetOr(e.field),
      p.graduationDate.GetOr(e.graduationDate),
      p.description.GetOr(e.description))
  }

  /** `{ ...p, ...q }` on two patches: the later one wins field by field. */
  function Combine(p: EducationPatch, q: EducationPatch): EducationPatch
  {
    EducationPatch(
      if q.id.Some? then q.id else p.id,
      if q.school.Some? then q.school else p.school,
      if q.degree.Some? then q.degree else p.degree,
      if q.field.Some? then q.field else p.field,
      if q.graduationDate.Some? then q.graduationDate else p.graduationDate,
      if q.description.Some? then q.description else p.description)
  }

  /** The entry `addEducation` creates; the id (`Date.now().toString()` in
      the component) is a parameter. */
  function Blank(id: string): Education
  {
    Education(id, "", "", "", "", "")
  }

  function WithEducationAdded(data: seq<Education>, id: string): (r: seq<Education>)
    ensures |r| == |data| + 1 && r[..|data|] == data && r[|data|] == Blank(id)
  {
    data + [Blank(id)]
  }

  /** `edu => edu.id === id ? { ...edu, ...updates } : edu`. */
  function Updater(id: string, p: EducationPatch): Education -> Education
  {
    (e: Education) => if e.id == id then Merge(e, p) else e
  }

  function WithEducationUpdated(data: seq<Education>, id: string, p: EducationPatch): (r: seq<Education>)
    ensures |r| == |data|
  {
    Map(data, Updater(id, p))
  }

  /** `edu => edu.id !== id`. */
  function IdDiffers(id: string): Education -> bool
  {
    (e: Education) => e.id != id
  }

  function WithoutEducation(data: seq<Education>, id: string): (r: seq<Education>)
    ensures |r| <= |data|
  {
    Filter(data, IdDiffers(id))
  }

  predicate HasId(data: seq<Education>, id: string)
  {
    exists i :: 0 <= i < |data| && data[i].id == id
  }

  // ---------------------------------------------------------------- properties

  /** A merge sets exactly the fields the patch carries. */
  lemma MergeFields(e: Education, p: EducationPatch)
    ensures var m := Merge(e, p);
      && (m.id == if p.id.Some? then p.id.value else e.id)
      && (m.school == if p.school.Some? then p.school.value else e.school)
      && (m.degree == if p.degree.Some? then p.degree.value else e.degree)
      && (m.field == if p.field.Some? then p.field.value else e.field)
      && (m.graduationDate == if p.graduationDate.Some? then p.graduationDate.value else e.graduationDate)
      && (m.description == if p.description.Some? then p.description.value else e.description)
      && (p == NoChange ==> m == e)
  {
  }

  /** Merging the same patch twice is merging it once. */
  lemma MergeIdempotent(e: Education, p: EducationPatch)
    ensures Merge(Merge(e, p), p) == Merge(e, p)
  {
  }

  /** Two merges in a row are one merge of the combined patch. */
  lemma MergeMerge(e: Education, p: EducationPatch, q: EducationPatch)
    ensures Merge(Merge(e, p), q) == Merge(e, Combine(p, q))
  {
  }

  /** `updateEducation` merges into the entries with the id, in place, and
      leaves every other entry, the length and the order as they were. */
  lemma UpdateEntries(data: seq<Education>, id: string, p: EducationPatch, i: int)
    requires 0 <= i < |data|
    ensures var r := WithEducationUpdated(data, id, p);
      && (data[i].id == id ==> r[i] == Merge(data[i], p))
      && (data[i].id != id ==> r[i] == data[i])
  {
  }

  /** Updating an id no entry has changes nothing. */
  lemma UpdateAbsent(data: seq<Education>, id: string, p: EducationPatch)
    requires !HasId(data, id)
    ensures WithEducationUpdated(data, id, p) == data
  {
    var r := WithEducationUpdated(data, id, p);
    assert forall i :: 0 <= i < |data| ==> r[i] == data[i];
  }

  /** The same update applied twice is applied once. */
  lemma UpdateIdempotent(data: seq<Education>, id: string, p: EducationPatch)
    ensures WithEducationUpdated(WithEducationUpdated(data, id, p), id, p) == WithEducationUpdated(data, id, p)
  {
    var r := WithEducationUpdated(data, id, p);
    var rr := WithEducationUpdated(r, id, p);
    forall i | 0 <= i < |data|
      ensures rr[i] == r[i]
    {
      MergeIdempotent(data[i], p);
    }
  }

  /** `removeEducation` leaves no entry with the id, and keeps every other
      entry as many times as it occurred. */
  lemma RemoveEntries(data: seq<Education>, id: string, e: Education)
    ensures !HasId(WithoutEducation(data, id), id)
    ensures e.id != id ==> multiset(WithoutEducation(data, id))[e] == multiset(data)[e]
  {
    var r := WithoutEducation(data, id);
    forall i | 0 <= i < |r|
      ensures r[i].id != id
    {
      assert r[i] in r;
    }
    FilterCount(data, IdDiffers(id), e);
  }

  /** `filter` works piece by piece, so the entries that remain keep their order. */
  lemma RemoveConcat(a: seq<Education>, b: seq<Education>, id: string)
    ensures WithoutEducation(a + b, id) == WithoutEducation(a, id) + WithoutEducation(b, id)
  {
    FilterConcat(a, b, IdDiffers(id));
  }

  /** Removing an id no entry has changes nothing. */
  lemma RemoveAbsent(data: seq<Education>, id: string)
    requires !HasId(data, id)
    ensures WithoutEducation(data, id) == data
  {
    FilterKeepsAll(data, IdDiffers(id));
  }

  /** Adding an entry under an unused id and removing that id gives back the list. */
  lemma AddThenRemove(data: seq<Education>, id: string)
    requires !HasId(data, id)
    ensures WithoutEducation(WithEducationAdded(data, id), id) == data
  {
    FilterConcat(data, [Blank(id)], IdDiffers(id));
    RemoveAbsent(data, id);
    assert Filter([Blank(id)], IdDiffers(id)) == [];
  }

  /** The component: the list it was given and the id of the entry being edited. */
  class EducationEditor {
    var data: seq<Education>
    var editingId: Option<string>

    /** `useState<string | null>(null)`. */
    constructor (initial: seq<Education>)
      ensures data == initial && editingId == None
    {
      data := initial;
      editingId := None;
    }

    /** `addEducation`: append a blank entry and edit it. */
    method AddEducation(id: string)
      modifies this
      ensures data == WithEducationAdded(old(data), id) && editingId == Some(id)
    {
      data := data + [Blank(id)];
      editingId := Some(id);
    }

    /** `updateEducation`; the entry being edited stays the same. */
    method UpdateEducation(id: string, p: EducationPatch)
      modifies this
      ensures data == WithEducationUpdated(old(data), id, p) && editingId == old(editingId)
    {
      data := WithEducationUpdated(data, id, p);
    }

    /** `removeEducation`; `editingId` is not cleared, even when it names the
        removed entry. */
    method RemoveEducation(id: string)
      modifies this
      ensures data == WithoutEducation(old(data), id) && editingId == old(editingId)
    {
      data := WithoutEducation(data, id);
    }

    /** The "Done" button. */
    method Done()
      modifies this
      ensures editingId == None && data == old(data)
    {
      editingId := None;
    }

    /** The "Edit" button of an entry. */
    method Edit(id: string)
      modifies this
      ensures editingId == Some(id) && data == old(data)
    {
      editingId := Some(id);
    }
  }
}
