/**
 * The records of the document store: a resume with its nested sections, a
 * template of the catalog, and the `updates` object that `updateResume`
 * accepts. Optional fields of the schema are `Option`s; numbers that hold
 * millisecond timestamps are `nat`s.
 */
module Schema {
  import opened Wrappers

  /** The authenticated user's identifier. */
  type UserId = string

  /** A resume's identifier, assigned by the store when the row is inserted. */
  type ResumeId = nat

  datatype PersonalInfo = PersonalInfo(
    fullName: string,
    email: string,
    phone: string,
    location: string,
    website: Option<string>,
    linkedin: Option<string>,
    github: Option<string>,
    summary: Option<string>)

  datatype Experience = Experience(
    id: string,
    company: string,
    position: string,
    location: string,
    startDate: string,
    endDate: Option<string>,
    current: bool,
    description: string)

  datatype Education = Education(
    id: string,
    institution: string,
    degree: string,
    field: string,
    location: string,
    startDate: string,
    endDate: Option<string>,
    gpa: Option<string>)

  datatype SkillCategory = SkillCategory(
    id: string,
    category: string,
    items: seq<string>)

  datatype Project = Project(
    id: string,
    name: string,
    description: string,
    technologies: seq<string>,
    link: Option<string>,
    github: Option<string>)

  datatype Certification = Certification(
    id: string,
    name: string,
    issuer: string,
    date: string,
    link: Option<string>)

  datatype Language = Language(
    id: string,
    language: string,
    proficiency: string)

  datatype Resume = Resume(
    userId: UserId,
    title: string,
    templateId: string,
    personalInfo: PersonalInfo,
    experience: seq<Experience>,
    education: seq<Education>,
    skills: seq<SkillCategory>,
    projects: seq<Project>,
    certifications: seq<Certification>,
    languages: seq<Language>,
    isPublic: bool,
    lastModified: nat)

  datatype Colors = Colors(primary: string, secondary: string, text: string, background: string)
  datatype Fonts = Fonts(heading: string, body: string)
  datatype TemplateConfig = TemplateConfig(colors: Colors, fonts: Fonts, layout: string)

  datatype Template = Template(
    name: string,
    description: string,
    category: string,
    previewImage: Option<string>,
    config: TemplateConfig,
    isPremium: bool)

  /** The `updates` argument of `updateResume`: each key may be present or
      absent. The validator has no `userId`, `templateId`, `isPublic` or
      `lastModified` key, so no update can carry one. */
  datatype Updates = Updates(
    title: Option<string>,
    personalInfo: Option<PersonalInfo>,
    experience: Option<seq<Experience>>,
    education: Option<seq<Education>>,
    skills: Option<seq<SkillCategory>>,
    projects: Option<seq<Project>>,
    certifications: Option<seq<Certification>>,
    languages: Option<seq<Language>>)

  /** The empty object `{}`. */
  const NoUpdates: Updates := Updates(None, None, None, None, None, None, None, None)

  datatype UpdateKey =
    | TitleKey | PersonalInfoKey | ExperienceKey | EducationKey
    | SkillsKey | ProjectsKey | CertificationsKey | LanguagesKey

  const AllKeys: set<UpdateKey> :=
    {TitleKey, PersonalInfoKey, ExperienceKey, EducationKey, SkillsKey, ProjectsKey, CertificationsKey, LanguagesKey}

  /** Key `k` is present in `u`. */
  predicate Present(u: Updates, k: UpdateKey) {
    match k
    case TitleKey => u.title.Some?
    case PersonalInfoKey => u.personalInfo.Some?
    case ExperienceKey => u.experience.Some?
    case EducationKey => u.education.Some?
    case SkillsKey => u.skills.Some?
    case ProjectsKey => u.projects.Some?
    case CertificationsKey => u.certifications.Some?
    case LanguagesKey => u.languages.Some?
  }

  /** The keys present in an `updates` object. */
  function Keys(u: Updates): (ks: set<UpdateKey>)
    ensures forall k :: k in ks <==> Present(u, k)
  {
    set k | k in AllKeys && Present(u, k)
  }

  /** The value a record holds under one key, as JavaScript sees the object:
      a string, a flag, a list of strings, or `undefined`. */
  datatype FieldValue = Text(s: string) | Flag(b: bool) | Texts(items: seq<string>) | Undefined

  function OptionalText(o: Option<string>): FieldValue {
    match o
    case Some(s) => Text(s)
    case None => Undefined
  }
}
