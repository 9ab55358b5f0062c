/**
 * The personal-information editor: one record whose keys the inputs set,
 * each change saved at once, and "AI Generate" for the summary.
 */
module PersonalInfoEditor {
  import opened Wrappers
  import opened Schema

  datatype PersonalField =
    | FullNameKey | EmailKey | PhoneKey | LocationKey | WebsiteKey | LinkedinKey | GithubKey | SummaryKey

  /** The record as a JavaScript object: the value it holds under each key. */
  function Field(p: PersonalInfo, k: PersonalField): FieldValue {
    match k
    case FullNameKey => Text(p.fullName)
    case EmailKey => Text(p.email)
    case PhoneKey => Text(p.phone)
    case LocationKey => Text(p.location)
    case WebsiteKey => OptionalText(p.website)
    case LinkedinKey => OptionalText(p.linkedin)
    case GithubKey => OptionalText(p.github)
    case SummaryKey => OptionalText(p.summary)
  }

  /** Two records holding the same value under every key are the same record. */
  lemma FieldsDetermineRecord(a: PersonalInfo, b: PersonalInfo)
    requires forall k :: Field(a, k) == Field(b, k)
    ensures a == b
  {
    assert Field(a, FullNameKey) == Field(b, FullNameKey) && Field(a, EmailKey) == Field(b, EmailKey);
    assert Field(a, PhoneKey) == Field(b, PhoneKey) && Field(a, LocationKey) == Field(b, LocationKey);
    assert Field(a, WebsiteKey) == Field(b, WebsiteKey) && Field(a, LinkedinKey) == Field(b, LinkedinKey);
    assert Field(a, GithubKey) == Field(b, GithubKey) && Field(a, SummaryKey) == Field(b, SummaryKey);
  }

  /** `{...formData, [field]: value}`: the named key gets the string and every
      other key keeps its value. */
  function Changed(p: PersonalInfo, k: PersonalField, value: string): (r: PersonalInfo)
    ensures Field(r, k) == Text(value)
    ensures forall j :: j != k ==> Field(r, j) == Field(p, j)
  {
    match k
    case FullNameKey => p.(fullName := value)
    case EmailKey => p.(email := value)
    case PhoneKey => p.(phone := value)
    case LocationKey => p.(location := value)
    case WebsiteKey => p.(website := Some(value))
    case LinkedinKey => p.(linkedin := Some(value))
    case GithubKey => p.(github := Some(value))
    case SummaryKey => p.(summary := Some(value))
  }

  /** Setting a key twice keeps only the second value. */
  lemma ChangeTwice(p: PersonalInfo, k: PersonalField, v1: string, v2: string)
    ensures Changed(Changed(p, k, v1), k, v2) == Changed(p, k, v2)
  {
    FieldsDetermineRecord(Changed(Changed(p, k, v1), k, v2), Changed(p, k, v2));
  }

  /** Changes to two different keys commute. */
  lemma ChangesCommute(p: PersonalInfo, k1: PersonalField, v1: string, k2: PersonalField, v2: string)
    requires k1 != k2
    ensures Changed(Changed(p, k1, v1), k2, v2) == Changed(Changed(p, k2, v2), k1, v1)
  {
    FieldsDetermineRecord(Changed(Changed(p, k1, v1), k2, v2), Changed(Changed(p, k2, v2), k1, v1));
  }

  /** A summary request in flight, with the record as the handler saw it.
      The request always carries no experience and no skills. */
  datatype SummaryCall = SummaryCall(experience: seq<Experience>, skills: seq<string>, snapshot: PersonalInfo)

  class PersonalInfoForm {
    var formData: PersonalInfo
    var generating: bool
    /** The argument of every `onSave` call, oldest first. */
    var saved: seq<PersonalInfo>

    constructor (data: PersonalInfo)
      ensures formData == data && !generating && saved == []
    {
      formData := data;
      generating := false;
      saved := [];
    }

    /** A new `data` prop replaces the local record; nothing is saved. */
    method ReceiveData(data: PersonalInfo)
      modifies this
      ensures formData == data && generating == old(generating) && saved == old(saved)
    {
      formData := data;
    }

    method HandleChange(k: PersonalField, value: string)
      modifies this
      ensures formData == Changed(old(formData), k, value) && saved == old(saved) + [formData]
      ensures generating == old(generating)
    {
      var updated := Changed(formData, k, value);
      formData := updated;
      saved := saved + [updated];
    }

    /** The first half of `handleGenerateSummary`: sets the busy flag and
        issues the request, with empty experience and skills. */
    method BeginGenerate() returns (call: SummaryCall)
      modifies this
      ensures generating && call == SummaryCall([], [], formData)
      ensures formData == old(formData) && saved == old(saved)
    {
      generating := true;
      call := SummaryCall([], [], formData);
    }

    /** The second half: the returned text becomes the summary of the record
        captured when the handler started, and is saved; a failed call saves
        nothing. Either way the busy flag is cleared. */
    method FinishGenerate(call: SummaryCall, summary: Option<string>)
      modifies this
      ensures !generating
      ensures summary.Some? ==>
                formData == Changed(call.snapshot, SummaryKey, summary.value) && saved == old(saved) + [formData]
      ensures summary.None? ==> formData == old(formData) && saved == old(saved)
    {
      if summary.Some? {
        var updated := Changed(call.snapshot, SummaryKey, summary.value);
        formData := updated;
        saved := saved + [updated];
      }
      generating := false;
    }
  }
}
