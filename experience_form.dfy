/**
 * The work-experience editor: a local copy of the section's entries, the
 * add / update / remove handlers (each stores the new list and hands the
 * same list to `onSave`), the reset from a new `data` prop, and the
 * "AI Improve" handler for one entry's description.
 */
module ExperienceEditor {
  import opened Wrappers
  import opened Schema
  import opened JsText
  import opened ListEdits
  import AiAssist

  datatype ExperienceField =
    | IdKey | CompanyKey | PositionKey | LocationKey | StartDateKey | EndDateKey | CurrentKey | DescriptionKey

  /** The entry as a JavaScript object: the value it holds under each key. */
  function Field(e: Experience, k: ExperienceField): FieldValue {
    match k
    case IdKey => Text(e.id)
    case CompanyKey => Text(e.company)
    case PositionKey => Text(e.position)
    case LocationKey => Text(e.location)
    case StartDateKey => Text(e.startDate)
    case EndDateKey => OptionalText(e.endDate)
    case CurrentKey => Flag(e.current)
    case DescriptionKey => Text(e.description)
  }

  /** Two entries holding the same value under every key are the same entry. */
  lemma FieldsDetermineEntry(a: Experience, b: Experience)
    requires forall k :: Field(a, k) == Field(b, k)
    ensures a == b
  {
    assert Field(a, IdKey) == Field(b, IdKey) && Field(a, CompanyKey) == Field(b, CompanyKey);
    assert Field(a, PositionKey) == Field(b, PositionKey) && Field(a, LocationKey) == Field(b, LocationKey);
    assert Field(a, StartDateKey) == Field(b, StartDateKey) && Field(a, EndDateKey) == Field(b, EndDateKey);
    assert Field(a, CurrentKey) == Field(b, CurrentKey) && Field(a, DescriptionKey) == Field(b, DescriptionKey);
  }

  /** The edits the form's inputs make: one key and its new value. */
  datatype ExperienceEdit =
    | SetCompany(company: string)
    | SetPosition(position: string)
    | SetLocation(location: string)
    | SetStartDate(startDate: string)
    | SetEndDate(endDate: string)
    | SetCurrent(current: bool)
    | SetDescription(description: string)
  {
    function Key(): ExperienceField {
      match this
      case SetCompany(_) => CompanyKey
      case SetPosition(_) => PositionKey
      case SetLocation(_) => LocationKey
      case SetStartDate(_) => StartDateKey
      case SetEndDate(_) => EndDateKey
      case SetCurrent(_) => CurrentKey
      case SetDescription(_) => DescriptionKey
    }

    function Value(): FieldValue {
      match this
      case SetCompany(v) => Text(v)
      case SetPosition(v) => Text(v)
      case SetLocation(v) => Text(v)
      case SetStartDate(v) => Text(v)
      case SetEndDate(v) => Text(v)
      case SetCurrent(b) => Flag(b)
      case SetDescription(v) => Text(v)
    }
  }

  /** `{...e, [field]: value}`: the named key gets the value and every other
      key, the id included, keeps its value. */
  function Apply(e: Experience, edit: ExperienceEdit): (r: Experience)
    ensures Field(r, edit.Key()) == edit.Value()
    ensures forall k :: k != edit.Key() ==> Field(r, k) == Field(e, k)
  {
    match edit
    case SetCompany(v) => e.(company := v)
    case SetPosition(v) => e.(position := v)
    case SetLocation(v) => e.(location := v)
    case SetStartDate(v) => e.(startDate := v)
    case SetEndDate(v) => e.(endDate := Some(v))
    case SetCurrent(b) => e.(current := b)
    case SetDescription(v) => e.(description := v)
  }

  function IdOf(e: Experience): string { e.id }

  /** The entry `addExperience` appends: the fresh id, every text key "" (the
      end date included), and `current` false. */
  function Blank(id: string): (e: Experience)
    ensures Field(e, IdKey) == Text(id) && Field(e, CurrentKey) == Flag(false)
    ensures forall k :: k != IdKey && k != CurrentKey ==> Field(e, k) == Text("")
  {
    Experience(id, "", "", "", "", Some(""), false, "")
  }

  function Updated(entries: seq<Experience>, id: string, edit: ExperienceEdit): seq<Experience> {
    MapWhere(entries, IdOf, id, (e: Experience) => Apply(e, edit))
  }

  function Removed(entries: seq<Experience>, id: string): seq<Experience> {
    RemoveWhere(entries, IdOf, id)
  }

  /** `updateExperience` keeps the length, leaves every entry with another id
      identical, and changes only the named key of the entries with the id. */
  lemma UpdateChangesOnlyNamedField(entries: seq<Experience>, id: string, edit: ExperienceEdit)
    ensures |Updated(entries, id, edit)| == |entries|
    ensures forall i :: 0 <= i < |entries| && entries[i].id != id ==> Updated(entries, id, edit)[i] == entries[i]
    ensures forall i, k :: 0 <= i < |entries| && entries[i].id == id && k != edit.Key() ==>
              Field(Updated(entries, id, edit)[i], k) == Field(entries[i], k)
    ensures forall i :: 0 <= i < |entries| && entries[i].id == id ==>
              Field(Updated(entries, id, edit)[i], edit.Key()) == edit.Value()
  {
  }

  /** Removing the entry just added with a fresh id restores the list. */
  lemma AddThenRemove(entries: seq<Experience>, id: string)
    requires forall i :: 0 <= i < |entries| ==> entries[i].id != id
    ensures Removed(entries + [Blank(id)], id) == entries
  {
    RemoveAppended(entries, Blank(id), IdOf);
    RemoveAbsent(entries, IdOf, id);
  }

  /** What "AI Improve" sends for entry `id`: its description and position,
      or nothing when no entry has the id or its description is blank. */
  function ImproveRequest(entries: seq<Experience>, id: string): (r: Option<(string, string)>)
    ensures r.None? <==>
              FindFirst(entries, IdOf, id).None? ||
              AllWhitespace(entries[FindFirst(entries, IdOf, id).value].description)
    ensures r.Some? ==>
              var e := entries[FindFirst(entries, IdOf, id).value];
              e.id == id && r.value == (e.description, e.position)
  {
    match FindFirst(entries, IdOf, id)
    case None => None
    case Some(i) =>
      var e := entries[i];
      if Trim(e.description) == "" then None else Some((e.description, e.position))
  }

  /** The prompt built from an improve request quotes the entry's position as
      the job title and its description as the original text. */
  lemma ImprovePromptQuotesEntry(entries: seq<Experience>, id: string)
    requires ImproveRequest(entries, id).Some?
    ensures var e := entries[FindFirst(entries, IdOf, id).value];
            var p := AiAssist.ImprovePrompt(ImproveRequest(entries, id).value.0, ImproveRequest(entries, id).value.1);
            p[|AiAssist.ImproveLead|..|AiAssist.ImproveLead| + |e.position|] == e.position &&
            p[|AiAssist.ImproveLead| + |e.position| + |AiAssist.ImproveMiddle|..|p| - |AiAssist.ImproveClosing|] == e.description
  {
  }

  /** An improve request in flight: the entry, what was sent, and the list as
      the handler saw it when it started. */
  datatype ImproveCall = ImproveCall(id: string, description: string, jobTitle: string, snapshot: seq<Experience>)

  class ExperienceForm {
    var experiences: seq<Experience>
    var improvingId: Option<string>
    /** The argument of every `onSave` call, oldest first. */
    var saved: seq<seq<Experience>>

    constructor (data: seq<Experience>)
      ensures experiences == data && improvingId == None && saved == []
    {
      experiences := data;
      improvingId := None;
      saved := [];
    }

    /** A new `data` prop replaces the local list; nothing is saved. */
    method ReceiveData(data: seq<Experience>)
      modifies this
      ensures experiences == data && improvingId == old(improvingId) && saved == old(saved)
    {
      experiences := data;
    }

    method AddExperience(freshId: string)
      modifies this
      ensures experiences == old(experiences) + [Blank(freshId)]
      ensures saved == old(saved) + [experiences] && improvingId == old(improvingId)
    {
      var updated := experiences + [Blank(freshId)];
      experiences := updated;
      saved := saved + [updated];
    }

    method UpdateExperience(id: string, edit: ExperienceEdit)
      modifies this
      ensures experiences == Updated(old(experiences), id, edit)
      ensures saved == old(saved) + [experiences] && improvingId == old(improvingId)
    {
      var updated := Updated(experiences, id, edit);
      experiences := updated;
      saved := saved + [updated];
    }

    method RemoveExperience(id: string)
      modifies this
      ensures experiences == Removed(old(experiences), id)
      ensures saved == old(saved) + [experiences] && improvingId == old(improvingId)
    {
      var updated := Removed(experiences, id);
      experiences := updated;
      saved := saved + [updated];
    }

    /** The first half of `handleImproveDescription`: unless the guard
        returns early, marks the entry as improving and issues the request. */
    method BeginImprove(id: string) returns (call: Option<ImproveCall>)
      modifies this
      ensures experiences == old(experiences) && saved == old(saved)
      ensures call.None? <==> ImproveRequest(experiences, id).None?
      ensures call.None? ==> improvingId == old(improvingId)
      ensures call.Some? ==>
                var (description, jobTitle) := ImproveRequest(experiences, id).value;
                call.value == ImproveCall(id, description, jobTitle, experiences) && improvingId == Some(id)
    {
      var request := ImproveRequest(experiences, id);
      if request.None? {
        return None;
      }
      improvingId := Some(id);
      call := Some(ImproveCall(id, request.value.0, request.value.1, experiences));
    }

    /** The second half: on success the description becomes the returned
        text, applied to the list captured when the handler started; on
        failure nothing is saved. Either way `improvingId` is cleared. */
    method FinishImprove(call: ImproveCall, improved: Option<string>)
      modifies this
      ensures improvingId == None
      ensures improved.Some? ==>
                experiences == Updated(call.snapshot, call.id, SetDescription(improved.value)) &&
                saved == old(saved) + [experiences]
      ensures improved.None? ==> experiences == old(experiences) && saved == old(saved)
    {
      if improved.Some? {
        var updated := Updated(call.snapshot, call.id, SetDescription(improved.value));
        experiences := updated;
        saved := saved + [updated];
      }
      improvingId := None;
    }
  }
}
