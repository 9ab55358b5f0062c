/**
 * The floating voice assistant of the builder page: for the active section
 * it shows up to three example prompts, and its button flips a listening
 * flag. Nothing in it ever records a transcript.
 */
module VoiceAssistantModel {

  /** The example prompts of each section, keyed by section id. */
  const Prompts: map<string, seq<string>> := map[
    "personal" := [
      "Say your full name",
      "What's your email address?",
      "What's your phone number?",
      "Where are you located?",
      "Tell me about yourself for the summary"],
    "experience" := [
      "What's your job title?",
      "Which company did you work for?",
      "Describe your responsibilities",
      "What were your achievements?"],
    "education" := [
      "Which school did you attend?",
      "What degree did you earn?",
      "What was your field of study?"],
    "skills" := [
      "What are your technical skills?",
      "List your programming languages",
      "What tools do you use?"],
    "projects" := [
      "What's the project name?",
      "Describe the project",
      "What technologies did you use?"]]

  /** `getSectionPrompts`: the section's prompts, or none for an unknown section. */
  function SectionPrompts(section: string): (r: seq<string>)
    ensures section in Prompts ==> r == Prompts[section]
    ensures section !in Prompts ==> r == []
  {
    if section in Prompts then Prompts[section] else []
  }

  /** The prompts on screen: the first three, or all when there are fewer. */
  function ShownPrompts(section: string): (r: seq<string>)
    ensures |r| == if |SectionPrompts(section)| < 3 then |SectionPrompts(section)| else 3
    ensures r == SectionPrompts(section)[..|r|]
  {
    var all := SectionPrompts(section);
    if |all| < 3 then all else all[..3]
  }

  /** Five prompts for personal information, four for experience, three for
      each of the other sections; so every known section shows three. */
  lemma PromptCounts()
    ensures |SectionPrompts("personal")| == 5 && |SectionPrompts("experience")| == 4
    ensures |SectionPrompts("education")| == 3 && |SectionPrompts("skills")| == 3 && |SectionPrompts("projects")| == 3
    ensures forall s :: s in Prompts ==> |ShownPrompts(s)| == 3
  {
    assert Prompts.Keys == {"personal", "experience", "education", "skills", "projects"};
  }

  class VoiceAssistant {
    /** Whether the browser offers speech recognition. */
    const supported: bool
    var listening: bool
    var transcript: string

    constructor (browserSupports: bool)
      ensures supported == browserSupports && !listening && transcript == ""
    {
      supported := browserSupports;
      listening := false;
      transcript := "";
    }

    /** Without support only a notice is shown, with no button. */
    function ToggleOffered(): bool
      reads this
    {
      supported
    }

    /** The button flips the listening flag and nothing else. */
    method Toggle()
      modifies this
      ensures listening == !old(listening) && transcript == old(transcript)
    {
      listening := !listening;
    }
  }
}
