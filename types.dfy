/** The records of the resume editor. Optional properties (`gpa?`, `link?`,
    `id?`, ...) are `Option`s; an absent property and an empty string are
    different values, as they are in the stored JSON. */
module ResumeTypes {

  datatype Option<+T> = None | Some(value: T)

  /** JavaScript truthiness of an optional string: present and non-empty. */
  predicate Truthy(o: Option<string>)
  {
    o.Some? && o.value != ""
  }

  /** What JSX prints for an optional string: nothing when it is absent. */
  function OrEmpty(o: Option<string>): string
  {
    if o.Some? then o.value else ""
  }

  datatype Experience = Experience(
    id: string,
    company: string,
    position: string,
    location: string,
    startDate: string,
    endDate: string,
    description: string)

  datatype Education = Education(
    id: string,
    school: string,
    degree: string,
    location: string,
    gradDate: string,
    gpa: Option<string>,
    grades: Option<string>)

  datatype Project = Project(
    id: string,
    title: string,
    link: Option<string>,
    description: string,
    date: string)

  datatype Certification = Certification(
    id: string,
    name: string,
    issuer: string,
    date: string)

  datatype Reference = Reference(
    id: string,
    name: string,
    position: string,
    organization: string,
    email: string,
    phone: string)

  /** The four layouts of `ResumeTemplateType`. */
  datatype TemplateKind = Standard | Technology | Business | Creative

  /** The string a layout is stored under in `ResumeData.template`. */
  function TemplateName(k: TemplateKind): string
  {
    match k
    case Standard => "Standard"
    case Technology => "Technology"
    case Business => "Business"
    case Creative => "Creative"
  }

  /** The compatibility result attached to a draft. */
  datatype AtsScore = AtsScore(score: int, feedback: string, missingKeywords: seq<string>)

  /** One resume: the active draft or a stored submission. `template` is the
      stored string, which a loaded record may set to any value. */
  datatype ResumeData = ResumeData(
    id: Option<string>,
    template: string,
    fullName: string,
    email: string,
    phone: string,
    location: string,
    linkedin: string,
    website: string,
    summary: string,
    experiences: seq<Experience>,
    education: seq<Education>,
    projects: seq<Project>,
    certifications: seq<Certification>,
    references: seq<Reference>,
    skills: string,
    languages: string,
    jobDescription: Option<string>,
    submittedAt: Option<string>,
    atsScore: Option<AtsScore>)

  /** Key functions for the `id`-keyed lists. */
  function ExperienceId(e: Experience): string { e.id }
  function EducationId(e: Education): string { e.id }
  function ProjectId(p: Project): string { p.id }
  function CertificationId(c: Certification): string { c.id }
  function ReferenceId(r: Reference): string { r.id }
  function ResumeId(d: ResumeData): Option<string> { d.id }
}
