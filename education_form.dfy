/**
 * The education editor: a local copy of the section's entries, the add /
 * update / remove handlers (each stores the new list and hands the same list
 * to `onSave`), and the reset from a new `data` prop.
 */
module EducationEditor {
  import opened Wrappers
  import opened Schema
  import opened ListEdits

  datatype EducationField =
    | IdKey | InstitutionKey | DegreeKey | FieldKey | LocationKey | StartDateKey | EndDateKey | GpaKey

  /** The entry as a JavaScript object: the value it holds under each key. */
  function Field(e: Education, k: EducationField): FieldValue {
    match k
    case IdKey => Text(e.id)
    case InstitutionKey => Text(e.institution)
    case DegreeKey => Text(e.degree)
    case FieldKey => Text(e.field)
    case LocationKey => Text(e.location)
    case StartDateKey => Text(e.startDate)
    case EndDateKey => OptionalText(e.endDate)
    case GpaKey => OptionalText(e.gpa)
  }

  /** Two entries holding the same value under every key are the same entry. */
  lemma FieldsDetermineEntry(a: Education, b: Education)
    requires forall k :: Field(a, k) == Field(b, k)
    ensures a == b
  {
    assert Field(a, IdKey) == Field(b, IdKey) && Field(a, InstitutionKey) == Field(b, InstitutionKey);
    assert Field(a, DegreeKey) == Field(b, DegreeKey) && Field(a, FieldKey) == Field(b, FieldKey);
    assert Field(a, LocationKey) == Field(b, LocationKey) && Field(a, StartDateKey) == Field(b, StartDateKey);
    assert Field(a, EndDateKey) == Field(b, EndDateKey) && Field(a, GpaKey) == Field(b, GpaKey);
  }

  /** The edits the form's inputs make; every value is a string. */
  datatype EducationEdit =
    | SetInstitution(institution: string)
    | SetDegree(degree: string)
    | SetFieldOfStudy(field: string)
    | SetLocation(location: string)
    | SetStartDate(startDate: string)
    | SetEndDate(endDate: string)
    | SetGpa(gpa: string)
  {
    function Key(): EducationField {
      match this
      case SetInstitution(_) => InstitutionKey
      case SetDegree(_) => DegreeKey
      case SetFieldOfStudy(_) => FieldKey
      case SetLocation(_) => LocationKey
      case SetStartDate(_) => StartDateKey
      case SetEndDate(_) => EndDateKey
      case SetGpa(_) => GpaKey
    }

    function Value(): string {
      match this
      case SetInstitution(v) => v
      case SetDegree(v) => v
      case SetFieldOfStudy(v) => v
      case SetLocation(v) => v
      case SetStartDate(v) => v
      case SetEndDate(v) => v
      case SetGpa(v) => v
    }
  }

  /** `{...e, [field]: value}`: the named key gets the string and every other
      key, the id included, keeps its value. */
  function Apply(e: Education, edit: EducationEdit): (r: Education)
    ensures Field(r, edit.Key()) == Text(edit.Value())
    ensures forall k :: k != edit.Key() ==> Field(r, k) == Field(e, k)
  {
    match edit
    case SetInstitution(v) => e.(institution := v)
    case SetDegree(v) => e.(degree := v)
    case SetFieldOfStudy(v) => e.(field := v)
    case SetLocation(v) => e.(location := v)
    case SetStartDate(v) => e.(startDate := v)
    case SetEndDate(v) => e.(endDate := Some(v))
    case SetGpa(v) => e.(gpa := Some(v))
  }

  function IdOf(e: Education): string { e.id }

  /** The entry `addEducation` appends: the fresh id and "" under every other
      key, the optional end date and GPA included. */
  function Blank(id: string): (e: Education)
    ensures Field(e, IdKey) == Text(id)
    ensures forall k :: k != IdKey ==> Field(e, k) == Text("")
  {
    Education(id, "", "", "", "", "", Some(""), Some(""))
  }

  function Updated(entries: seq<Education>, id: string, edit: EducationEdit): seq<Education> {
    MapWhere(entries, IdOf, id, (e: Education) => Apply(e, edit))
  }

  function Removed(entries: seq<Education>, id: string): seq<Education> {
    RemoveWhere(entries, IdOf, id)
  }

  /** `updateEducation` keeps the length, leaves every entry with another id
      identical, and changes only the named key of the entries with the id. */
  lemma UpdateChangesOnlyNamedField(entries: seq<Education>, id: string, edit: EducationEdit)
    ensures |Updated(entries, id, edit)| == |entries|
    ensures forall i :: 0 <= i < |entries| && entries[i].id != id ==> Updated(entries, id, edit)[i] == entries[i]
    ensures forall i, k :: 0 <= i < |entries| && entries[i].id == id && k != edit.Key() ==>
              Field(Updated(entries, id, edit)[i], k) == Field(entries[i], k)
    ensures forall i :: 0 <= i < |entries| && entries[i].id == id ==>
              Field(Updated(entries, id, edit)[i], edit.Key()) == Text(edit.Value())
  {
  }

  /** Removing the entry just added with a fresh id restores the list. */
  lemma AddThenRemove(entries: seq<Education>, id: string)
    requires forall i :: 0 <= i < |entries| ==> entries[i].id != id
    ensures Removed(entries + [Blank(id)], id) == entries
  {
    RemoveAppended(entries, Blank(id), IdOf);
    RemoveAbsent(entries, IdOf, id);
  }

  class EducationForm {
    var education: seq<Education>
    /** The argument of every `onSave` call, oldest first. */
    var saved: seq<seq<Education>>

    constructor (data: seq<Education>)
      ensures education == data && saved == []
    {
      education := data;
      saved := [];
    }

    /** A new `data` prop replaces the local list; nothing is saved. */
    method ReceiveData(data: seq<Education>)
      modifies this
      ensures education == data && saved == old(saved)
    {
      education := data;
    }

    method AddEducation(freshId: string)
      modifies this
      ensures education == old(education) + [Blank(freshId)]
      ensures saved == old(saved) + [education]
    {
      var updated := education + [Blank(freshId)];
      education := updated;
      saved := saved + [updated];
    }

    method UpdateEducation(id: string, edit: EducationEdit)
      modifies this
      ensures education == Updated(old(education), id, edit)
      ensures saved == old(saved) + [education]
    {
      var updated := Updated(education, id, edit);
      education := updated;
      saved := saved + [updated];
    }

    method RemoveEducation(id: string)
      modifies this
      ensures education == Removed(old(education), id)
      ensures saved == old(saved) + [education]
    {
      var updated := Removed(education, id);
      education := updated;
      saved := saved + [updated];
    }
  }
}
