/** The work-experience step of the CV builder: a list of entries, each with an
    id, edited one at a time (`editingId`). Entries are added blank, updated by
    merging a partial record into the entries with a given id, and removed by id. */
module ExperienceStep {
  import opened Wrappers
  import opened Lists

  datatype Experience = Experience(
    id: string,
    company: string,
    position: string,
    startDate: string,
    endDate: string,
    currentlyWorking: bool,
    description: string)

  /** `Partial<Experience>`: the fields an update sets. */
  datatype ExperiencePatch = ExperiencePatch(
    id: Option<string>,
    company: Option<string>,
    position: Option<string>,
    startDate: Option<string>,
    endDate: Option<string>,
    currentlyWorking: Option<bool>,
    description: Option<string>)

  const NoChange := ExperiencePatch(None, None, None, None, None, None, None)

  /** `{ ...exp, ...updates }`: each field the patch sets replaces the entry's. */
  function Merge(e: Experience, p: ExperiencePatch): Experience
  {
    Experience(
      p.id.GetOr(e.id),
      p.company.GetOr(e.company),
      p.position.GetOr(e.position),
      p.startDate.GetOr(e.startDate),
      p.endDate.GetOr(e.endDate),
      p.currentlyWorking.GetOr(e.currentlyWorking),
      p.description.GetOr(e.description))
  }

  /** `{ ...p, ...q }` on two patches: the later one wins field by field. */
  function Combine(p: ExperiencePatch, q: ExperiencePatch): ExperiencePatch
  {
    ExperiencePatch(
      if q.id.Some? then q.id else p.id,
      if q.company.Some? then q.company else p.company,
      if q.position.Some? then q.position else p.position,
      if q.startDate.Some? then q.startDate else p.startDate,
      if q.endDate.Some? then q.endDate else p.endDate,
      if q.currentlyWorking.Some? then q.currentlyWorking else p.currentlyWorking,
      if q.description.Some? then q.description else p.description)
  }

  /** The entry `addExperience` creates; the id (`Date.now().toString()` in
      the component) is a parameter. */
  function Blank(id: string): Experience
  {
    Experience(id, "", "", "", "", false, "")
  }

  function WithExperienceAdded(data: seq<Experience>, id: string): (r: seq<Experience>)
    ensures |r| == |data| + 1 && r[..|data|] == data && r[|data|] == Blank(id)
  {
    data + [Blank(id)]
  }

  /** `exp => exp.id === id ? { ...exp, ...updates } : exp`. */
  function Updater(id: string, p: ExperiencePatch): Experience -> Experience
  {
    (e: Experience) => if e.id == id then Merge(e, p) else e
  }

  function WithExperienceUpdated(data: seq<Experience>, id: string, p: ExperiencePatch): (r: seq<Experience>)
    ensures |r| == |data|
  {
    Map(data, Updater(id, p))
  }

  /** `exp => exp.id !== id`. */
  function IdDiffers(id: string): Experience -> bool
  {
    (e: Experience) => e.id != id
  }

  function WithoutExperience(data: seq<Experience>, id: string): (r: seq<Experience>)
    ensures |r| <= |data|
  {
    Filter(data, IdDiffers(id))
  }

  predicate HasId(data: seq<Experience>, id: string)
  {
    exists i :: 0 <= i < |data| && data[i].id == id
  }

  // ---------------------------------------------------------------- properties

  /** A merge sets exactly the fields the patch carries. */
  lemma MergeFields(e: Experience, p: ExperiencePatch)
    ensures var m := Merge(e, p);
      && (m.id == if p.id.Some? then p.id.value else e.id)
      && (m.company == if p.company.Some? then p.company.value else e.company)
      && (m.position == if p.position.Some? then p.position.value else e.position)
      && (m.startDate == if p.startDate.Some? then p.startDate.value else e.startDate)
      && (m.endDate == if p.endDate.Some? then p.endDate.value else e.endDate)
      && (m.description == if p.description.Some? then p.description.value else e.description)
      && (m.currentlyWorking == if p.currentlyWorking.Some? then p.currentlyWorking.value else e.currentlyWorking)
      && (p == NoChange ==> m == e)
  {
  }

  /** Merging the same patch twice is merging it once. */
  lemma MergeIdempotent(e: Experience, p: ExperiencePatch)
    ensures Merge(Merge(e, p), p) == Merge(e, p)
  {
  }

  /** Two merges in a row are one merge of the combined patch. */
  lemma MergeMerge(e: Experience, p: ExperiencePatch, q: ExperiencePatch)
    ensures Merge(Merge(e, p), q) == Merge(e, Combine(p, q))
  {
  }

  /** `updateExperience` merges into the entries with the id, in place, and
      leaves every other entry, the length and the order as they were. */
  lemma UpdateEntries(data: seq<Experience>, id: string, p: ExperiencePatch, i: int)
    requires 0 <= i < |data|
    ensures var r := WithExperienceUpdated(data, id, p);
      && (data[i].id == id ==> r[i] == Merge(data[i], p))
      && (data[i].id != id ==> r[i] == data[i])
  {
  }

  /** Updating an id no entry has changes nothing. */
  lemma UpdateAbsent(data: seq<Experience>, id: string, p: ExperiencePatch)
    requires !HasId(data, id)
    ensures WithExperienceUpdated(data, id, p) == data
  {
    var r := WithExperienceUpdated(data, id, p);
    assert forall i :: 0 <= i < |data| ==> r[i] == data[i];
  }

  /** Ticking "I currently work here" merges only `currentlyWorking`: the end
      date stays as it was, although the input for it is disabled. */
  lemma CurrentlyWorkingKeepsEndDate(data: seq<Experience>, id: string, b: bool, i: int)
    requires 0 <= i < |data|
    ensures var r := WithExperienceUpdated(data, id, NoChange.(currentlyWorking := Some(b)));
      r[i].endDate == data[i].endDate
      && (data[i].id == id ==> r[i].currentlyWorking == b)
  {
  }

  /** The same update applied twice is applied once. */
  lemma UpdateIdempotent(data: seq<Experience>, id: string, p: ExperiencePatch)
    ensures WithExperienceUpdated(WithExperienceUpdated(data, id, p), id, p) == WithExperienceUpdated(data, id, p)
  {
    var r := WithExperienceUpdated(data, id, p);
    var rr := WithExperienceUpdated(r, id, p);
    forall i | 0 <= i < |data|
      ensures rr[i] == r[i]
    {
      MergeIdempotent(data[i], p);
    }
  }

  /** `removeExperience` leaves no entry with the id, and keeps every other
      entry as many times as it occurred. */
  lemma RemoveEntries(data: seq<Experience>, id: string, e: Experience)
    ensures !HasId(WithoutExperience(data, id), id)
    ensures e.id != id ==> multiset(WithoutExperience(data, id))[e] == multiset(data)[e]
  {
    var r := WithoutExperience(data, id);
    forall i | 0 <= i < |r|
      ensures r[i].id != id
    {
      assert r[i] in r;
    }
    FilterCount(data, IdDiffers(id), e);
  }

  /** `filter` works piece by piece, so the entries that remain keep their order. */
  lemma RemoveConcat(a: seq<Experience>, b: seq<Experience>, id: string)
    ensures WithoutExperience(a + b, id) == WithoutExperience(a, id) + WithoutExperience(b, id)
  {
    FilterConcat(a, b, IdDiffers(id));
  }

  /** Removing an id no entry has changes nothing. */
  lemma RemoveAbsent(data: seq<Experience>, id: string)
    requires !HasId(data, id)
    ensures WithoutExperience(data, id) == data
  {
    FilterKeepsAll(data, IdDiffers(id));
  }

  /** Adding an entry under an unused id and removing that id gives back the list. */
  lemma AddThenRemove(data: seq<Experience>, id: string)
    requires !HasId(data, id)
    ensures WithoutExperience(WithExperienceAdded(data, id), id) == data
  {
    FilterConcat(data, [Blank(id)], IdDiffers(id));
    RemoveAbsent(data, id);
    assert Filter([Blank(id)], IdDiffers(id)) == [];
  }

  /** The component: the list it was given and the id of the entry being edited. */
  class ExperienceEditor {
    var data: seq<Experience>
    var editingId: Option<string>

    /** `useState<string | null>(null)`. */
    constructor (initial: seq<Experience>)
      ensures data == initial && editingId == None
    {
      data := initial;
      editingId := None;
    }

    /** `addExperience`: append a blank entry and edit it. */
    method AddExperience(id: string)
      modifies this
      ensures data == WithExperienceAdded(old(data), id) && editingId == Some(id)
    {
      data := data + [Blank(id)];
      editingId := Some(id);
    }

    /** `updateExperience`; the entry being edited stays the same. */
    method UpdateExperience(id: string, p: ExperiencePatch)
      modifies this
      ensures data == WithExperienceUpdated(old(data), id, p) && editingId == old(editingId)
    {
      data := WithExperienceUpdated(data, id, p);
    }

    /** `removeExperience`; `editingId` is not cleared, even when it names the
        removed entry. */
    method RemoveExperience(id: string)
      modifies this
      ensures data == WithoutExperience(old(data), id) && editingId == old(editingId)
    {
      data := WithoutExperience(data, id);
    }

    /** The "Done" button. */
    method Done()
      modifies this
      ensures editingId == None && data == old(data)
    {
      editingId := None;
    }

    /** The "Edit" button of an entry. */
    method Edit(id: string)
      modifies this
      ensures editingId == Some(id) && data == old(data)
    {
      editingId := Some(id);
    }
  }
}
