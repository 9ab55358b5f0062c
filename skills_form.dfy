/**
 * The skills editor: skill categories, each with a name and a list of
 * items; a per-category text input for the next item; and "AI Suggest",
 * which appends a category of suggested skills.
 */
module SkillsEditor {
  import opened Wrappers
  import opened Schema
  import opened JsText
  import opened ListEdits
  import AiAssist

  function IdOf(s: SkillCategory): string { s.id }

  /** The category `addSkillCategory` appends: the fresh id, no name, no items. */
  function Blank(id: string): SkillCategory {
    SkillCategory(id, "", [])
  }

  /** The name every suggested category gets. */
  const SuggestedCategoryName := "Suggested Skills"

  /** The fixed arguments "AI Suggest" sends, whatever the resume holds. */
  const SuggestJobTitle := "Software Engineer"
  const SuggestIndustry := "Technology"

  /** The prompt every "AI Suggest" click produces, spelled out: the fixed
      job title and industry in the fixed sentence. */
  lemma SuggestPromptText()
    ensures AiAssist.SkillsPrompt(SuggestJobTitle, SuggestIndustry) ==
      "Suggest 8-12 relevant technical and soft skills for a " + "Software Engineer" + " in the " + "Technology" +
      " industry. Return as a comma-separated list."
  {
    assert AiAssist.SkillsPrompt(SuggestJobTitle, SuggestIndustry) ==
      AiAssist.SkillsLead + SuggestJobTitle + AiAssist.SkillsMiddle + SuggestIndustry + AiAssist.SkillsClosing;
  }

  function Renamed(skills: seq<SkillCategory>, id: string, category: string): seq<SkillCategory> {
    MapWhere(skills, IdOf, id, (s: SkillCategory) => s.(category := category))
  }

  function Removed(skills: seq<SkillCategory>, id: string): seq<SkillCategory> {
    RemoveWhere(skills, IdOf, id)
  }

  function WithItem(skills: seq<SkillCategory>, id: string, item: string): seq<SkillCategory> {
    MapWhere(skills, IdOf, id, (s: SkillCategory) => s.(items := s.items + [item]))
  }

  function WithoutItem(skills: seq<SkillCategory>, id: string, index: int): seq<SkillCategory> {
    MapWhere(skills, IdOf, id, (s: SkillCategory) => s.(items := RemoveAt(s.items, index)))
  }

  /** Adding an item appends it to every category with the id, and to no other;
      ids and names stay as they were. */
  lemma WithItemAppends(skills: seq<SkillCategory>, id: string, item: string)
    ensures |WithItem(skills, id, item)| == |skills|
    ensures forall i :: 0 <= i < |skills| ==>
              var s := WithItem(skills, id, item)[i];
              s.id == skills[i].id && s.category == skills[i].category &&
              s.items == if skills[i].id == id then skills[i].items + [item] else skills[i].items
  {
  }

  /** Removing item `n` right after adding an item to categories that each had
      `n` items restores the list: the item added is the one removed. */
  lemma RemoveAddedItem(skills: seq<SkillCategory>, id: string, item: string, n: nat)
    requires forall i :: 0 <= i < |skills| && skills[i].id == id ==> |skills[i].items| == n
    ensures WithoutItem(WithItem(skills, id, item), id, n) == skills
  {
    var w := WithItem(skills, id, item);
    var r := WithoutItem(w, id, n);
    forall i | 0 <= i < |skills|
      ensures r[i] == skills[i]
    {
      if skills[i].id == id {
        assert (skills[i].items + [item])[..n] == skills[i].items;
      }
    }
  }

  /** Removing an index that no category with the id has leaves every category as it was. */
  lemma RemoveMissingIndex(skills: seq<SkillCategory>, id: string, index: int)
    requires forall i :: 0 <= i < |skills| && skills[i].id == id ==> !(0 <= index < |skills[i].items|)
    ensures WithoutItem(skills, id, index) == skills
  {
    var r := WithoutItem(skills, id, index);
    assert forall i :: 0 <= i < |skills| ==> r[i] == skills[i];
  }

  /** Renaming a category touches nothing but names, and only under that id. */
  lemma RenameKeepsItems(skills: seq<SkillCategory>, id: string, category: string)
    ensures |Renamed(skills, id, category)| == |skills|
    ensures forall i :: 0 <= i < |skills| ==>
              var s := Renamed(skills, id, category)[i];
              s.id == skills[i].id && s.items == skills[i].items &&
              s.category == if skills[i].id == id then category else skills[i].category
  {
  }

  /** What a finished suggestion does to the list it started from: appends one
      "Suggested Skills" category holding the suggestions, or leaves the list
      alone when there are none. */
  function AfterSuggestion(snapshot: seq<SkillCategory>, freshId: string, suggestions: seq<string>): (r: Option<seq<SkillCategory>>)
    ensures r.None? <==> suggestions == []
    ensures r.Some? ==>
              |r.value| == |snapshot| + 1 && r.value[..|snapshot|] == snapshot &&
              r.value[|snapshot|] == SkillCategory(freshId, SuggestedCategoryName, suggestions)
  {
    if |suggestions| > 0 then Some(snapshot + [SkillCategory(freshId, SuggestedCategoryName, suggestions)]) else None
  }

  /** A suggestion request in flight, with the list as the handler saw it. */
  datatype SuggestCall = SuggestCall(jobTitle: string, industry: string, snapshot: seq<SkillCategory>)

  class SkillsForm {
    var skills: seq<SkillCategory>
    /** `newSkillInputs`: the text typed for each category's next item. */
    var inputs: map<string, string>
    var suggesting: bool
    /** The argument of every `onSave` call, oldest first. */
    var saved: seq<seq<SkillCategory>>

    constructor (data: seq<SkillCategory>)
      ensures skills == data && inputs == map[] && !suggesting && saved == []
    {
      skills := data;
      inputs := map[];
      suggesting := false;
      saved := [];
    }

    /** A new `data` prop replaces the local list; nothing is saved. */
    method ReceiveData(data: seq<SkillCategory>)
      modifies this
      ensures skills == data && inputs == old(inputs) && suggesting == old(suggesting) && saved == old(saved)
    {
      skills := data;
    }

    method AddSkillCategory(freshId: string)
      modifies this
      ensures skills == old(skills) + [Blank(freshId)] && saved == old(saved) + [skills]
      ensures inputs == old(inputs) && suggesting == old(suggesting)
    {
      var updated := skills + [Blank(freshId)];
      skills := updated;
      saved := saved + [updated];
    }

    method UpdateSkillCategory(id: string, category: string)
      modifies this
      ensures skills == Renamed(old(skills), id, category) && saved == old(saved) + [skills]
      ensures inputs == old(inputs) && suggesting == old(suggesting)
    {
      var updated := Renamed(skills, id, category);
      skills := updated;
      saved := saved + [updated];
    }

    method RemoveSkillCategory(id: string)
      modifies this
      ensures skills == Removed(old(skills), id) && saved == old(saved) + [skills]
      ensures inputs == old(inputs) && suggesting == old(suggesting)
    {
      var updated := Removed(skills, id);
      skills := updated;
      saved := saved + [updated];
    }

    /** Typing in a category's item input; nothing is saved. */
    method SetInput(id: string, value: string)
      modifies this
      ensures inputs == old(inputs)[id := value]
      ensures skills == old(skills) && suggesting == old(suggesting) && saved == old(saved)
    {
      inputs := inputs[id := value];
    }

    /** `addSkillItem`: a blank input changes nothing; otherwise the trimmed
        text is appended to the category's items (saved even when no category
        has the id) and the input is cleared. */
    method AddSkillItem(id: string)
      modifies this
      ensures suggesting == old(suggesting)
      ensures PendingItem(old(inputs), id).None? ==>
                skills == old(skills) && inputs == old(inputs) && saved == old(saved)
      ensures PendingItem(old(inputs), id).Some? ==>
                skills == WithItem(old(skills), id, PendingItem(old(inputs), id).value) &&
                saved == old(saved) + [skills] && inputs == old(inputs)[id := ""]
    {
      var item := PendingItem(inputs, id);
      if item.None? {
        return;
      }
      var updated := WithItem(skills, id, item.value);
      skills := updated;
      saved := saved + [updated];
      inputs := inputs[id := ""];
    }

    method RemoveSkillItem(id: string, index: int)
      modifies this
      ensures skills == WithoutItem(old(skills), id, index) && saved == old(saved) + [skills]
      ensures inputs == old(inputs) && suggesting == old(suggesting)
    {
      var updated := WithoutItem(skills, id, index);
      skills := updated;
      saved := saved + [updated];
    }

    /** The first half of `handleSuggestSkills`: sets the busy flag and issues
        the request with the fixed job title and industry. */
    method BeginSuggest() returns (call: SuggestCall)
      modifies this
      ensures suggesting
      ensures call == SuggestCall(SuggestJobTitle, SuggestIndustry, skills)
      ensures skills == old(skills) && inputs == old(inputs) && saved == old(saved)
    {
      suggesting := true;
      call := SuggestCall(SuggestJobTitle, SuggestIndustry, skills);
    }

    /** The second half: a non-empty answer appends the suggested category to
        the list captured when the handler started; an empty answer or a
        failed call saves nothing. Either way the busy flag is cleared. */
    method FinishSuggest(call: SuggestCall, freshId: string, suggestions: Option<seq<string>>)
      modifies this
      ensures !suggesting && inputs == old(inputs)
      ensures suggestions.Some? && AfterSuggestion(call.snapshot, freshId, suggestions.value).Some? ==>
                skills == AfterSuggestion(call.snapshot, freshId, suggestions.value).value &&
                saved == old(saved) + [skills]
      ensures suggestions.None? || AfterSuggestion(call.snapshot, freshId, suggestions.value).None? ==>
                skills == old(skills) && saved == old(saved)
    {
      if suggestions.Some? {
        var next := AfterSuggestion(call.snapshot, freshId, suggestions.value);
        if next.Some? {
          skills := next.value;
          saved := saved + [next.value];
        }
      }
      suggesting := false;
    }
  }
}
