/**
 * The three AI actions of the backend: the prompt each one builds, and what
 * each returns from the completion service's reply. The service call itself
 * is a `Completion`: the content of the first choice, or a failure standing
 * for every way the call can throw (network error, a body that is not JSON,
 * a body without `choices[0].message.content`).
 */
module AiAssist {
  import opened JsText

  datatype Completion = Ok(content: string) | Failed

  /** One experience entry as `generateSummary` accepts it. */
  datatype SummaryEntry = SummaryEntry(company: string, position: string, description: string)

  const SummaryIntro := "Based on the following work experience and skills, generate a professional summary for a resume:\n\nExperience:\n"
  const SummarySkillsLabel := "\n\nSkills: "
  const SummaryClosing := "\n\nGenerate a concise, professional summary (2-3 sentences) that highlights key strengths and career focus."

  /** The sentence `generateSummary` returns whenever the call fails. */
  const FallbackSummary := "Experienced professional with a strong background in technology and proven track record of delivering results."

  function ExperienceLine(e: SummaryEntry): string {
    "- " + e.position + " at " + e.company + ": " + e.description
  }

  /** One line per entry, in order. */
  function ExperienceLines(es: seq<SummaryEntry>): (r: seq<string>)
    ensures |r| == |es|
    ensures forall i :: 0 <= i < |es| ==> r[i] == ExperienceLine(es[i])
  {
    if es == [] then [] else [ExperienceLine(es[0])] + ExperienceLines(es[1..])
  }

  function SummaryPrompt(es: seq<SummaryEntry>, skills: seq<string>): string {
    SummaryIntro + Join(ExperienceLines(es), "\n") + SummarySkillsLabel + Join(skills, ", ") + SummaryClosing
  }

  /** Where each of five concatenated parts sits in the whole. */
  lemma FiveParts(a: string, b: string, c: string, d: string, e: string)
    ensures var p := a + b + c + d + e;
      |p| == |a| + |b| + |c| + |d| + |e| &&
      p[..|a|] == a && p[|a|..|a| + |b|] == b && p[|a| + |b|..|a| + |b| + |c|] == c &&
      p[|a| + |b| + |c|..|p| - |e|] == d && p[|p| - |e|..] == e
  {
    var p := a + b + c + d + e;
    assert p == a + (b + (c + (d + e)));
  }

  const ImproveLead := "Improve this job description for a "
  const ImproveMiddle := " position. Make it more professional, action-oriented, and quantifiable where possible:\n\nOriginal: "
  const ImproveClosing := "\n\nReturn only the improved description, focusing on achievements and impact."

  /** The improve prompt quotes the job title and then the description
      verbatim, each at a fixed place between the fixed sentences. */
  function ImprovePrompt(description: string, jobTitle: string): (p: string)
    ensures |p| == |ImproveLead| + |jobTitle| + |ImproveMiddle| + |description| + |ImproveClosing|
    ensures p[..|ImproveLead|] == ImproveLead
    ensures p[|ImproveLead|..|ImproveLead| + |jobTitle|] == jobTitle
    ensures p[|ImproveLead| + |jobTitle|..|ImproveLead| + |jobTitle| + |ImproveMiddle|] == ImproveMiddle
    ensures p[|ImproveLead| + |jobTitle| + |ImproveMiddle|..|p| - |ImproveClosing|] == description
    ensures p[|p| - |ImproveClosing|..] == ImproveClosing
  {
    FiveParts(ImproveLead, jobTitle, ImproveMiddle, description, ImproveClosing);
    ImproveLead + jobTitle + ImproveMiddle + description + ImproveClosing
  }

  const SkillsLead := "Suggest 8-12 relevant technical and soft skills for a "
  const SkillsMiddle := " in the "
  const SkillsClosing := " industry. Return as a comma-separated list."

  /** The skills prompt quotes the job title and then the industry verbatim,
      and asks for a comma-separated list. */
  function SkillsPrompt(jobTitle: string, industry: string): (p: string)
    ensures |p| == |SkillsLead| + |jobTitle| + |SkillsMiddle| + |industry| + |SkillsClosing|
    ensures p[..|SkillsLead|] == SkillsLead
    ensures p[|SkillsLead|..|SkillsLead| + |jobTitle|] == jobTitle
    ensures p[|SkillsLead| + |jobTitle|..|SkillsLead| + |jobTitle| + |SkillsMiddle|] == SkillsMiddle
    ensures p[|SkillsLead| + |jobTitle| + |SkillsMiddle|..|p| - |SkillsClosing|] == industry
    ensures p[|p| - |SkillsClosing|..] == SkillsClosing
  {
    FiveParts(SkillsLead, jobTitle, SkillsMiddle, industry, SkillsClosing);
    SkillsLead + jobTitle + SkillsMiddle + industry + SkillsClosing
  }

  /** The experience block of the summary prompt reads back, line by line, as
      one `- position at company: description` line per entry, when no field
      holds a line break. */
  lemma ExperienceBlockLines(es: seq<SummaryEntry>)
    requires |es| >= 1
    requires forall i :: 0 <= i < |es| ==>
               '\n' !in es[i].company && '\n' !in es[i].position && '\n' !in es[i].description
    ensures Split(Join(ExperienceLines(es), "\n"), '\n') == ExperienceLines(es)
    ensures |Split(Join(ExperienceLines(es), "\n"), '\n')| == |es|
  {
    var lines := ExperienceLines(es);
    forall i | 0 <= i < |lines|
      ensures '\n' !in lines[i]
    {
      assert lines[i] == "- " + es[i].position + " at " + es[i].company + ": " + es[i].description;
    }
    SplitJoin(lines, '\n');
  }

  /** What the personal-information form sends (no experience, no skills)
      always gives the same prompt. */
  lemma EmptySummaryPrompt()
    ensures SummaryPrompt([], []) ==
      "Based on the following work experience and skills, generate a professional summary for a resume:\n\nExperience:\n" +
      "\n\nSkills: " +
      "\n\nGenerate a concise, professional summary (2-3 sentences) that highlights key strengths and career focus."
  {
    assert ExperienceLines([]) == [];
  }

  /** `generateSummary`: the trimmed reply, or the fallback sentence on failure. */
  function GenerateSummary(reply: Completion): (r: string)
    ensures reply.Ok? ==> r == Trim(reply.content)
    ensures reply.Failed? ==> r == FallbackSummary
    ensures reply.Ok? ==> IsTrimmed(r)
  {
    match reply
    case Ok(content) => Trim(content)
    case Failed => FallbackSummary
  }

  /** `improveDescription`: the trimmed reply, or the original description,
      untouched, on failure. */
  function ImproveDescription(description: string, reply: Completion): (r: string)
    ensures reply.Ok? ==> r == Trim(reply.content) && IsTrimmed(r)
    ensures reply.Failed? ==> r == description
  {
    match reply
    case Ok(content) => Trim(content)
    case Failed => description
  }

  /** `suggestSkills`: on success the reply is trimmed, split at every comma
      and each piece trimmed, so there is one skill more than there are
      commas, none empty-list, none with outer whitespace or a comma; on
      failure no skills. */
  function SuggestSkills(reply: Completion): (r: seq<string>)
    ensures reply.Failed? ==> r == []
    ensures reply.Ok? ==> |r| == Count(Trim(reply.content), ',') + 1
    ensures forall i :: 0 <= i < |r| ==> IsTrimmed(r[i]) && ',' !in r[i]
    ensures reply.Ok? ==>
              exists pieces :: Join(pieces, ",") == Trim(reply.content) && |pieces| == |r| &&
                forall i :: 0 <= i < |pieces| ==> ',' !in pieces[i] && r[i] == Trim(pieces[i])
  {
    match reply
    case Ok(content) =>
      var pieces := Split(Trim(content), ',');
      JoinSplit(Trim(content), ',');
      var r := TrimAll(pieces);
      forall i | 0 <= i < |r|
        ensures ',' !in r[i]
      {
        TrimInside(pieces[i]);
      }
      r
    case Failed => []
  }

  /** A reply that is empty or only whitespace still gives one skill: "". */
  lemma BlankReplyGivesOneEmptySkill(content: string)
    requires AllWhitespace(content)
    ensures SuggestSkills(Ok(content)) == [""]
  {
    assert Trim(content) == [];
  }

  /** The pieces after the first, each with the one space that ", " leaves. */
  function Padded(ys: seq<string>): (r: seq<string>)
    ensures |r| == |ys|
    ensures forall i :: 0 <= i < |ys| ==> r[i] == " " + ys[i]
  {
    if ys == [] then [] else [" " + ys[0]] + Padded(ys[1..])
  }

  lemma {:induction false} JoinPadded(ys: seq<string>)
    requires |ys| >= 1
    ensures Join(Padded(ys), ",") == " " + Join(ys, ", ")
  {
    if |ys| > 1 {
      JoinPadded(ys[1..]);
      assert Padded(ys)[1..] == Padded(ys[1..]);
      assert Join(Padded(ys), ",") == " " + ys[0] + "," + Join(Padded(ys[1..]), ",");
    }
  }

  lemma {:induction false} JoinLast(xs: seq<string>, sep: string)
    requires |xs| >= 1 && xs[|xs| - 1] != []
    ensures |Join(xs, sep)| >= |xs[|xs| - 1]|
    ensures Join(xs, sep)[|Join(xs, sep)| - 1] == xs[|xs| - 1][|xs[|xs| - 1]| - 1]
  {
    if |xs| > 1 {
      JoinLast(xs[1..], sep);
      assert xs[1..][|xs| - 2] == xs[|xs| - 1];
    }
  }

  /** ", " between pieces is "," between the pieces padded with one space. */
  lemma {:induction false} CommaSpaceJoin(xs: seq<string>)
    requires |xs| >= 1
    ensures Join(xs, ", ") == Join([xs[0]] + Padded(xs[1..]), ",")
  {
    var tail := Padded(xs[1..]);
    var pieces := [xs[0]] + tail;
    if |xs| == 1 {
      assert tail == [];
      assert pieces == [xs[0]];
    } else {
      JoinPadded(xs[1..]);
      assert |pieces| > 1 && pieces[0] == xs[0] && pieces[1..] == tail;
      calc {
        Join(pieces, ",");
        xs[0] + "," + Join(tail, ",");
        xs[0] + "," + (" " + Join(xs[1..], ", "));
        { assert "," + (" " + Join(xs[1..], ", ")) == ", " + Join(xs[1..], ", "); }
        xs[0] + ", " + Join(xs[1..], ", ");
      }
    }
  }

  /** Joining non-empty trimmed pieces gives a trimmed string. */
  lemma {:induction false} JoinOfTrimmed(xs: seq<string>, sep: string)
    requires |xs| >= 1
    requires forall i :: 0 <= i < |xs| ==> xs[i] != [] && IsTrimmed(xs[i])
    ensures IsTrimmed(Join(xs, sep))
  {
    var s := Join(xs, sep);
    assert s[0] == xs[0][0];
    JoinLast(xs, sep);
  }

  /** Trimming the padded pieces gives back the skills. */
  lemma {:induction false} TrimPaddedPieces(xs: seq<string>)
    requires |xs| >= 1
    requires forall i :: 0 <= i < |xs| ==> IsTrimmed(xs[i])
    ensures TrimAll([xs[0]] + Padded(xs[1..])) == xs
  {
    var pieces := [xs[0]] + Padded(xs[1..]);
    var r := TrimAll(pieces);
    forall i | 0 <= i < |xs|
      ensures r[i] == xs[i]
    {
      if i == 0 {
        TrimOfTrimmed(xs[0]);
      } else {
        assert pieces[i] == " " + xs[i];
        TrimPadded(xs[i]);
      }
    }
  }

  /** No padded piece holds a comma when no skill does. */
  lemma PaddedCommaFree(xs: seq<string>)
    requires |xs| >= 1
    requires forall i :: 0 <= i < |xs| ==> ',' !in xs[i]
    ensures forall i :: 0 <= i < |xs| ==> ',' !in ([xs[0]] + Padded(xs[1..]))[i]
  {
    var pieces := [xs[0]] + Padded(xs[1..]);
    forall i | 0 <= i < |pieces|
      ensures ',' !in pieces[i]
    {
      if i > 0 {
        assert pieces[i] == " " + xs[i];
      }
    }
  }

  lemma JoinedSkillsTrimmed(xs: seq<string>)
    requires |xs| >= 1
    requires forall i :: 0 <= i < |xs| ==> xs[i] != [] && IsTrimmed(xs[i])
    ensures Trim(Join(xs, ", ")) == Join(xs, ", ")
  {
    JoinOfTrimmed(xs, ", ");
    TrimOfTrimmed(Join(xs, ", "));
  }

  /** Skills written as "a, b, c" are trimmed as a whole and split at
      their commas into the padded pieces. */
  lemma {:induction false} JoinedSkillsPieces(xs: seq<string>)
    requires |xs| >= 1
    requires forall i :: 0 <= i < |xs| ==> xs[i] != [] && IsTrimmed(xs[i]) && ',' !in xs[i]
    ensures Split(Trim(Join(xs, ", ")), ',') == [xs[0]] + Padded(xs[1..])
  {
    var pieces := [xs[0]] + Padded(xs[1..]);
    JoinedSkillsTrimmed(xs);
    CommaSpaceJoin(xs);
    PaddedCommaFree(xs);
    SplitJoin(pieces, ',');
  }

  /** A list of skills written the way the prompt asks, "a, b, c", is read
      back as exactly that list, when every skill is non-empty, has no outer
      whitespace and holds no comma. */
  lemma {:induction false} SuggestSkillsRoundTrip(xs: seq<string>)
    requires |xs| >= 1
    requires forall i :: 0 <= i < |xs| ==> xs[i] != [] && IsTrimmed(xs[i]) && ',' !in xs[i]
    ensures SuggestSkills(Ok(Join(xs, ", "))) == xs
  {
    JoinedSkillsPieces(xs);
    TrimPaddedPieces(xs);
  }
}
