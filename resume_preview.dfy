/**
 * What the live preview shows for a resume, as a plan of its parts rather
 * than markup: the header (name, contact items, links row), then the
 * summary and the list sections, each only when it has something to show,
 * always in the same order.
 */
module ResumePreview {
  import opened Wrappers
  import opened Schema
  import opened JsText
  import ResumeStore

  /** The name shown when the resume has none. */
  const NamePlaceholder := "Your Name"

  datatype Contact = EmailItem(email: string) | PhoneItem(phone: string) | PlaceItem(location: string)
  {
    /** The item's place in the contact row. */
    function Rank(): nat {
      match this
      case EmailItem(_) => 0
      case PhoneItem(_) => 1
      case PlaceItem(_) => 2
    }
  }

  /** A link: its visible label and its target. */
  datatype Link = Link(caption: string, href: string)

  /** The place of a link caption in its row: website, LinkedIn, GitHub for
      the profile, and the live demo before GitHub for a project. */
  function CaptionRank(caption: string): nat {
    if caption == "Website" then 0
    else if caption == "LinkedIn" then 1
    else if caption == "Live Demo" then 1
    else if caption == "GitHub" then 2
    else 3
  }

  function Flag(b: bool): nat {
    if b then 1 else 0
  }

  datatype Header = Header(name: string, contacts: seq<Contact>, links: Option<seq<Link>>)

  datatype ExperienceView = ExperienceView(
    position: string, company: string, location: string, dates: string, description: Option<string>)

  datatype EducationView = EducationView(
    degree: string, institution: string, field: string, gpa: Option<string>, location: string, dates: string)

  datatype SkillsView = SkillsView(category: string, items: seq<string>)

  datatype ProjectView = ProjectView(name: string, links: seq<Link>, description: string, technologies: Option<seq<string>>)

  datatype CertificationView = CertificationView(name: string, issuer: string, date: string, link: Option<Link>)

  datatype LanguageView = LanguageView(language: string, proficiency: string)

  datatype Block =
    | SummaryBlock(text: string)
    | ExperienceBlock(experience: seq<ExperienceView>)
    | EducationBlock(education: seq<EducationView>)
    | SkillsBlock(skills: seq<SkillsView>)
    | ProjectsBlock(projects: seq<ProjectView>)
    | CertificationsBlock(certifications: seq<CertificationView>)
    | LanguagesBlock(languages: seq<LanguageView>)
  {
    /** The block's place in the fixed order. */
    function Rank(): nat {
      match this
      case SummaryBlock(_) => 0
      case ExperienceBlock(_) => 1
      case EducationBlock(_) => 2
      case SkillsBlock(_) => 3
      case ProjectsBlock(_) => 4
      case CertificationsBlock(_) => 5
      case LanguagesBlock(_) => 6
    }

    function Title(): string {
      match this
      case SummaryBlock(_) => "Professional Summary"
      case ExperienceBlock(_) => "Work Experience"
      case EducationBlock(_) => "Education"
      case SkillsBlock(_) => "Skills"
      case ProjectsBlock(_) => "Projects"
      case CertificationsBlock(_) => "Certifications"
      case LanguagesBlock(_) => "Languages"
    }
  }

  datatype Preview = Preview(header: Header, blocks: seq<Block>)

  /** A `{x && ...}` guard on a string: shown when non-empty. */
  function When<T>(shown: bool, x: T): seq<T> {
    if shown then [x] else []
  }

  /** Three optional items, shown in turn: item `i` of the row is the first,
      second or third one according to how many of those before it are shown. */
  lemma WhenThree<T>(showX: bool, x: T, showY: bool, y: T, showZ: bool, z: T)
    ensures var s := When(showX, x) + When(showY, y) + When(showZ, z);
      |s| == Flag(showX) + Flag(showY) + Flag(showZ) &&
      forall i :: 0 <= i < |s| ==> s[i] == (if i < Flag(showX) then x else if i < Flag(showX) + Flag(showY) then y else z)
  {
  }

  /** Email, phone and location, in that order, each only when non-empty. */
  function Contacts(p: PersonalInfo): (cs: seq<Contact>)
    ensures EmailItem(p.email) in cs <==> p.email != ""
    ensures PhoneItem(p.phone) in cs <==> p.phone != ""
    ensures PlaceItem(p.location) in cs <==> p.location != ""
    ensures forall i :: 0 <= i < |cs| ==> cs[i] in [EmailItem(p.email), PhoneItem(p.phone), PlaceItem(p.location)]
    ensures |cs| == Flag(p.email != "") + Flag(p.phone != "") + Flag(p.location != "")
    ensures forall i, j :: 0 <= i < j < |cs| ==> cs[i].Rank() < cs[j].Rank()
  {
    WhenThree(p.email != "", EmailItem(p.email), p.phone != "", PhoneItem(p.phone), p.location != "", PlaceItem(p.location));
    When(p.email != "", EmailItem(p.email)) + When(p.phone != "", PhoneItem(p.phone)) +
    When(p.location != "", PlaceItem(p.location))
  }

  /** Website, LinkedIn and GitHub, in that order, each only when truthy. */
  function ProfileLinks(p: PersonalInfo): (ls: seq<Link>)
    ensures ls == [] <==> !Truthy(p.website) && !Truthy(p.linkedin) && !Truthy(p.github)
    ensures Truthy(p.website) <==> |ls| > 0 && ls[0].caption == "Website"
    ensures Truthy(p.website) ==> ls[0] == Link("Website", p.website.value)
    ensures forall i :: 0 <= i < |ls| ==> ls[i].caption in ["Website", "LinkedIn", "GitHub"]
    ensures |ls| == Flag(Truthy(p.website)) + Flag(Truthy(p.linkedin)) + Flag(Truthy(p.github))
    ensures forall i, j :: 0 <= i < j < |ls| ==> CaptionRank(ls[i].caption) < CaptionRank(ls[j].caption)
    ensures (exists i :: 0 <= i < |ls| && ls[i] == Link("GitHub", p.github.GetOr(""))) <==> Truthy(p.github)
    ensures (exists i :: 0 <= i < |ls| && ls[i] == Link("LinkedIn", p.linkedin.GetOr(""))) <==> Truthy(p.linkedin)
  {
    var ls := When(Truthy(p.website), Link("Website", p.website.GetOr(""))) +
              When(Truthy(p.linkedin), Link("LinkedIn", p.linkedin.GetOr(""))) +
              When(Truthy(p.github), Link("GitHub", p.github.GetOr("")));
    WhenThree(Truthy(p.website), Link("Website", p.website.GetOr("")), Truthy(p.linkedin), Link("LinkedIn", p.linkedin.GetOr("")),
              Truthy(p.github), Link("GitHub", p.github.GetOr("")));
    assert CaptionRank("Website") == 0 && CaptionRank("LinkedIn") == 1 && CaptionRank("GitHub") == 2;
    assert Truthy(p.github) ==> ls[|ls| - 1] == Link("GitHub", p.github.GetOr(""));
    assert Truthy(p.linkedin) ==> ls[Flag(Truthy(p.website))] == Link("LinkedIn", p.linkedin.GetOr(""));
    ls
  }

  /** The header: the name or the placeholder, the contact items, and the
      links row only when at least one link is shown. */
  function RenderHeader(p: PersonalInfo): (h: Header)
    ensures p.fullName != "" ==> h.name == p.fullName
    ensures p.fullName == "" ==> h.name == NamePlaceholder
    ensures h.contacts == Contacts(p)
    ensures h.links.Some? <==> Truthy(p.website) || Truthy(p.linkedin) || Truthy(p.github)
    ensures h.links.Some? ==> h.links.value == ProfileLinks(p)
  {
    var links := ProfileLinks(p);
    Header(if p.fullName != "" then p.fullName else NamePlaceholder, Contacts(p), if links != [] then Some(links) else None)
  }

  /** The date line of a job: "start - Present" while current, otherwise
      "start - " and the end date, nothing after the dash when there is none. */
  function ExperienceDates(e: Experience): (line: string)
    ensures e.current ==> line == e.startDate + " - Present"
    ensures !e.current && e.endDate.Some? ==> line == e.startDate + " - " + e.endDate.value
    ensures !e.current && e.endDate.None? ==> line == e.startDate + " - "
  {
    e.startDate + " - " + (if e.current then "Present" else e.endDate.GetOr(""))
  }

  /** The date label of a degree: "Present" stands in for an empty or missing end date. */
  function EducationDates(e: Education): (line: string)
    ensures Truthy(e.endDate) ==> line == e.startDate + " - " + e.endDate.value
    ensures !Truthy(e.endDate) ==> line == e.startDate + " - Present"
  {
    e.startDate + " - " + OrElse(e.endDate, "Present")
  }

  function ExperienceItem(e: Experience): (v: ExperienceView)
    ensures v.description.Some? <==> e.description != ""
    ensures v.description.Some? ==> v.description.value == e.description
    ensures v.dates == ExperienceDates(e)
    ensures v.position == e.position && v.company == e.company && v.location == e.location
  {
    ExperienceView(e.position, e.company, e.location, ExperienceDates(e), if e.description != "" then Some(e.description) else None)
  }

  function EducationItem(e: Education): (v: EducationView)
    ensures v.gpa.Some? <==> Truthy(e.gpa)
    ensures v.gpa.Some? ==> v.gpa.value == "GPA: " + e.gpa.value
    ensures v.dates == EducationDates(e)
    ensures v.degree == e.degree && v.institution == e.institution && v.field == e.field && v.location == e.location
  {
    EducationView(e.degree, e.institution, e.field, if Truthy(e.gpa) then Some("GPA: " + e.gpa.value) else None,
                  e.location, EducationDates(e))
  }

  function ProjectItem(p: Project): (v: ProjectView)
    ensures v.technologies.Some? <==> p.technologies != []
    ensures v.technologies.Some? ==> v.technologies.value == p.technologies
    ensures (Link("Live Demo", p.link.GetOr("")) in v.links) <==> Truthy(p.link)
    ensures (Link("GitHub", p.github.GetOr("")) in v.links) <==> Truthy(p.github)
    ensures |v.links| == Flag(Truthy(p.link)) + Flag(Truthy(p.github))
    ensures forall i, j :: 0 <= i < j < |v.links| ==> CaptionRank(v.links[i].caption) < CaptionRank(v.links[j].caption)
    ensures v.name == p.name && v.description == p.description
  {
    ProjectView(
      p.name,
      When(Truthy(p.link), Link("Live Demo", p.link.GetOr(""))) + When(Truthy(p.github), Link("GitHub", p.github.GetOr(""))),
      p.description,
      if p.technologies != [] then Some(p.technologies) else None)
  }

  function CertificationItem(c: Certification): (v: CertificationView)
    ensures v.link.Some? <==> Truthy(c.link)
    ensures v.link.Some? ==> v.link.value == Link("View Certificate", c.link.value)
    ensures v.name == c.name && v.issuer == c.issuer && v.date == c.date
  {
    CertificationView(c.name, c.issuer, c.date, if Truthy(c.link) then Some(Link("View Certificate", c.link.value)) else None)
  }

  /** `xs.map(f)`: one view per entry, in list order. */
  function MapItems<A, B>(xs: seq<A>, f: A -> B): (r: seq<B>)
    ensures |r| == |xs|
    ensures forall i :: 0 <= i < |xs| ==> r[i] == f(xs[i])
  {
    if xs == [] then [] else [f(xs[0])] + MapItems(xs[1..], f)
  }

  function SkillsItem(s: SkillCategory): SkillsView { SkillsView(s.category, s.items) }

  function LanguageItem(l: Language): LanguageView { LanguageView(l.language, l.proficiency) }

  /** Whether the part of rank `k` has something to show: the summary when
      truthy, a list section when non-empty. */
  predicate Shows(r: Resume, k: nat) {
    match k
    case 0 => Truthy(r.personalInfo.summary)
    case 1 => |r.experience| > 0
    case 2 => |r.education| > 0
    case 3 => |r.skills| > 0
    case 4 => |r.projects| > 0
    case 5 => |r.certifications| > 0
    case 6 => |r.languages| > 0
    case _ => false
  }

  /** The block of rank `k`. */
  function BlockOf(r: Resume, k: nat): (b: Block)
    requires k <= LastRank
    ensures b.Rank() == k
  {
    match k
    case 0 => SummaryBlock(r.personalInfo.summary.GetOr(""))
    case 1 => ExperienceBlock(MapItems(r.experience, ExperienceItem))
    case 2 => EducationBlock(MapItems(r.education, EducationItem))
    case 3 => SkillsBlock(MapItems(r.skills, SkillsItem))
    case 4 => ProjectsBlock(MapItems(r.projects, ProjectItem))
    case 5 => CertificationsBlock(MapItems(r.certifications, CertificationItem))
    case 6 => LanguagesBlock(MapItems(r.languages, LanguageItem))
  }

  const LastRank: nat := 6

  /** The ranks from `k` up whose part has something to show, each
      `{cond && ...}` of the markup in turn: increasing, and each one shown. */
  function ShownRanks(r: Resume, k: nat): (ks: seq<nat>)
    ensures forall i :: 0 <= i < |ks| ==> k <= ks[i] <= LastRank && Shows(r, ks[i])
    ensures forall i, j :: 0 <= i < j < |ks| ==> ks[i] < ks[j]
    decreases LastRank + 1 - k
  {
    if k > LastRank then []
    else
      var rest := ShownRanks(r, k + 1);
      if Shows(r, k) then
        var ks := [k] + rest;
        assert ks[0] == k && ks[1..] == rest;
        ks
      else rest
  }

  /** No part with something to show is left out. */
  lemma {:induction false} ShownRanksComplete(r: Resume, k: nat, j: nat)
    requires k <= j <= LastRank && Shows(r, j)
    ensures j in ShownRanks(r, k)
    decreases LastRank + 1 - k
  {
    if j > k {
      ShownRanksComplete(r, k + 1, j);
    }
  }

  /** The blocks of the given ranks, in that order. */
  function BlocksAt(r: Resume, ks: seq<nat>): (bs: seq<Block>)
    requires forall i :: 0 <= i < |ks| ==> ks[i] <= LastRank
    ensures |bs| == |ks|
    ensures forall i :: 0 <= i < |ks| ==> bs[i] == BlockOf(r, ks[i])
  {
    if ks == [] then [] else [BlockOf(r, ks[0])] + BlocksAt(r, ks[1..])
  }

  /** The blocks of increasing ranks, each shown, are in increasing rank
      order and each is the block of its part. */
  lemma BlocksAtInOrder(r: Resume, ks: seq<nat>)
    requires forall i :: 0 <= i < |ks| ==> ks[i] <= LastRank && Shows(r, ks[i])
    requires forall i, j :: 0 <= i < j < |ks| ==> ks[i] < ks[j]
    ensures forall i, j :: 0 <= i < j < |BlocksAt(r, ks)| ==> BlocksAt(r, ks)[i].Rank() < BlocksAt(r, ks)[j].Rank()
    ensures forall i :: 0 <= i < |BlocksAt(r, ks)| ==>
              Shows(r, BlocksAt(r, ks)[i].Rank()) && BlocksAt(r, ks)[i] == BlockOf(r, BlocksAt(r, ks)[i].Rank())
  {
    var bs := BlocksAt(r, ks);
    assert forall i :: 0 <= i < |bs| ==> bs[i].Rank() == ks[i];
  }

  /** Every part with something to show has its block in the preview. */
  lemma RenderComplete(r: Resume, k: nat)
    requires k <= LastRank && Shows(r, k)
    ensures BlockOf(r, k) in BlocksAt(r, ShownRanks(r, 0))
  {
    var ks := ShownRanks(r, 0);
    ShownRanksComplete(r, 0, k);
    var i :| 0 <= i < |ks| && ks[i] == k;
    assert BlocksAt(r, ks)[i] == BlockOf(r, k);
  }

  /** The same, for every part at once. */
  lemma RenderCompleteAll(r: Resume)
    ensures forall k :: 0 <= k <= LastRank && Shows(r, k) ==> BlockOf(r, k) in BlocksAt(r, ShownRanks(r, 0))
  {
    forall k | 0 <= k <= LastRank && Shows(r, k)
      ensures BlockOf(r, k) in BlocksAt(r, ShownRanks(r, 0))
    {
      RenderComplete(r, k);
    }
  }

  /** The blocks of the preview: each part with something to show, in the
      fixed order, and no other. */
  function RenderBlocks(r: Resume): (bs: seq<Block>)
    ensures forall i, j :: 0 <= i < j < |bs| ==> bs[i].Rank() < bs[j].Rank()
    ensures forall i :: 0 <= i < |bs| ==> Shows(r, bs[i].Rank()) && bs[i] == BlockOf(r, bs[i].Rank())
    ensures forall k :: 0 <= k <= LastRank && Shows(r, k) ==> BlockOf(r, k) in bs
  {
    var ks := ShownRanks(r, 0);
    BlocksAtInOrder(r, ks);
    RenderCompleteAll(r);
    BlocksAt(r, ks)
  }

  /** The preview: the header, then each part with something to show, in
      the fixed order, and no other. */
  function Render(r: Resume): (p: Preview)
    ensures p.header == RenderHeader(r.personalInfo)
    ensures forall i, j :: 0 <= i < j < |p.blocks| ==> p.blocks[i].Rank() < p.blocks[j].Rank()
    ensures forall i :: 0 <= i < |p.blocks| ==> Shows(r, p.blocks[i].Rank()) && p.blocks[i] == BlockOf(r, p.blocks[i].Rank())
    ensures forall k :: 0 <= k <= LastRank && Shows(r, k) ==> BlockOf(r, k) in p.blocks
  {
    Preview(RenderHeader(r.personalInfo), RenderBlocks(r))
  }

  /** A freshly created resume previews as the placeholder name alone. */
  lemma NewResumePreview(owner: UserId, title: string, templateId: string, now: nat)
    ensures Render(ResumeStore.NewResume(owner, title, templateId, now)) == Preview(Header(NamePlaceholder, [], None), [])
  {
  }
}
