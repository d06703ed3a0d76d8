/** The editable fields of the five kinds of list entry, and the records the
    "add" buttons create (App.tsx). A field is named by an enumeration in
    place of the `keyof` string the handlers receive; optional properties
    read back as `Option`s. */
module Records {
  import opened ResumeTypes

  // ---------------------------------------------------------------- experience

  datatype ExperienceField = Company | Position | Location | StartDate | EndDate | Description

  function GetExperience(e: Experience, f: ExperienceField): string
  {
    match f
    case Company => e.company
    case Position => e.position
    case Location => e.location
    case StartDate => e.startDate
    case EndDate => e.endDate
    case Description => e.description
  }

  /** `{ ...exp, [field]: value }`. */
  function SetExperience(e: Experience, f: ExperienceField, v: string): (r: Experience)
    ensures GetExperience(r, f) == v
    ensures forall g :: g != f ==> GetExperience(r, g) == GetExperience(e, g)
    ensures r.id == e.id
  {
    match f
    case Company => e.(company := v)
    case Position => e.(position := v)
    case Location => e.(location := v)
    case StartDate => e.(startDate := v)
    case EndDate => e.(endDate := v)
    case Description => e.(description := v)
  }

  /** An entry is determined by its id and its fields. */
  lemma ExperienceExtensional(a: Experience, b: Experience)
    requires a.id == b.id
    requires forall f :: GetExperience(a, f) == GetExperience(b, f)
    ensures a == b
  {
    assert GetExperience(a, Company) == GetExperience(b, Company);
    assert GetExperience(a, ExperienceField.Position) == GetExperience(b, ExperienceField.Position);
    assert GetExperience(a, ExperienceField.Location) == GetExperience(b, ExperienceField.Location);
    assert GetExperience(a, StartDate) == GetExperience(b, StartDate);
    assert GetExperience(a, EndDate) == GetExperience(b, EndDate);
    assert GetExperience(a, ExperienceField.Description) == GetExperience(b, ExperienceField.Description);
  }

  /** The record `addExperience` appends: the given id and every field empty. */
  function EmptyExperience(id: string): (e: Experience)
    ensures e.id == id
    ensures forall f :: GetExperience(e, f) == ""
  {
    Experience(id, "", "", "", "", "", "")
  }

  // ---------------------------------------------------------------- education

  datatype EducationField = School | Degree | Location | GradDate | Gpa | Grades

  /** The field's value; the two optional properties may be absent. */
  function GetEducation(e: Education, f: EducationField): Option<string>
  {
    match f
    case School => Some(e.school)
    case Degree => Some(e.degree)
    case Location => Some(e.location)
    case GradDate => Some(e.gradDate)
    case Gpa => e.gpa
    case Grades => e.grades
  }

  /** `{ ...edu, [field]: value }`: an absent property becomes present. */
  function SetEducation(e: Education, f: EducationField, v: string): (r: Education)
    ensures GetEducation(r, f) == Some(v)
    ensures forall g :: g != f ==> GetEducation(r, g) == GetEducation(e, g)
    ensures r.id == e.id
  {
    match f
    case School => e.(school := v)
    case Degree => e.(degree := v)
    case Location => e.(location := v)
    case GradDate => e.(gradDate := v)
    case Gpa => e.(gpa := Some(v))
    case Grades => e.(grades := Some(v))
  }

  lemma EducationExtensional(a: Education, b: Education)
    requires a.id == b.id
    requires forall f :: GetEducation(a, f) == GetEducation(b, f)
    ensures a == b
  {
    assert GetEducation(a, School) == GetEducation(b, School);
    assert GetEducation(a, Degree) == GetEducation(b, Degree);
    assert GetEducation(a, EducationField.Location) == GetEducation(b, EducationField.Location);
    assert GetEducation(a, GradDate) == GetEducation(b, GradDate);
    assert GetEducation(a, Gpa) == GetEducation(b, Gpa);
    assert GetEducation(a, Grades) == GetEducation(b, Grades);
  }

  /** The record `addEducation` appends: `grades` is set to the empty string
      while `gpa` is left absent. */
  function EmptyEducation(id: string): (e: Education)
    ensures e.id == id
    ensures GetEducation(e, Gpa) == None
    ensures forall f :: f != Gpa ==> GetEducation(e, f) == Some("")
  {
    Education(id, "", "", "", "", None, Some(""))
  }

  // ---------------------------------------------------------------- project

  datatype ProjectField = Title | Link | Description | Date

  function GetProject(p: Project, f: ProjectField): Option<string>
  {
    match f
    case Title => Some(p.title)
    case Link => p.link
    case Description => Some(p.description)
    case Date => Some(p.date)
  }

  /** `{ ...p, [field]: value }`. */
  function SetProject(p: Project, f: ProjectField, v: string): (r: Project)
    ensures GetProject(r, f) == Some(v)
    ensures forall g :: g != f ==> GetProject(r, g) == GetProject(p, g)
    ensures r.id == p.id
  {
    match f
    case Title => p.(title := v)
    case Link => p.(link := Some(v))
    case Description => p.(description := v)
    case Date => p.(date := v)
  }

  lemma ProjectExtensional(a: Project, b: Project)
    requires a.id == b.id
    requires forall f :: GetProject(a, f) == GetProject(b, f)
    ensures a == b
  {
    assert GetProject(a, Title) == GetProject(b, Title);
    assert GetProject(a, Link) == GetProject(b, Link);
    assert GetProject(a, ProjectField.Description) == GetProject(b, ProjectField.Description);
    assert GetProject(a, ProjectField.Date) == GetProject(b, ProjectField.Date);
  }

  /** The record `addProject` appends: `link` is left absent. */
  function EmptyProject(id: string): (p: Project)
    ensures p.id == id
    ensures GetProject(p, Link) == None
    ensures forall f :: f != Link ==> GetProject(p, f) == Some("")
  {
    Project(id, "", None, "", "")
  }

  // ---------------------------------------------------------------- certification

  datatype CertificationField = Name | Issuer | Date

  function GetCertification(c: Certification, f: CertificationField): string
  {
    match f
    case Name => c.name
    case Issuer => c.issuer
    case Date => c.date
  }

  /** `{ ...c, [field]: value }`. */
  function SetCertification(c: Certification, f: CertificationField, v: string): (r: Certification)
    ensures GetCertification(r, f) == v
    ensures forall g :: g != f ==> GetCertification(r, g) == GetCertification(c, g)
    ensures r.id == c.id
  {
    match f
    case Name => c.(name := v)
    case Issuer => c.(issuer := v)
    case Date => c.(date := v)
  }

  lemma CertificationExtensional(a: Certification, b: Certification)
    requires a.id == b.id
    requires forall f :: GetCertification(a, f) == GetCertification(b, f)
    ensures a == b
  {
    assert GetCertification(a, CertificationField.Name) == GetCertification(b, CertificationField.Name);
    assert GetCertification(a, Issuer) == GetCertification(b, Issuer);
    assert GetCertification(a, CertificationField.Date) == GetCertification(b, CertificationField.Date);
  }

  function EmptyCertification(id: string): (c: Certification)
    ensures c.id == id
    ensures forall f :: GetCertification(c, f) == ""
  {
    Certification(id, "", "", "")
  }

  // ---------------------------------------------------------------- reference

  datatype ReferenceField = Name | Position | Organization | Email | Phone

  function GetReference(r: Reference, f: ReferenceField): string
  {
    match f
    case Name => r.name
    case Position => r.position
    case Organization => r.organization
    case Email => r.email
    case Phone => r.phone
  }

  /** `{ ...r, [field]: value }`. */
  function SetReference(x: Reference, f: ReferenceField, v: string): (r: Reference)
    ensures GetReference(r, f) == v
    ensures forall g :: g != f ==> GetReference(r, g) == GetReference(x, g)
    ensures r.id == x.id
  {
    match f
    case Name => x.(name := v)
    case Position => x.(position := v)
    case Organization => x.(organization := v)
    case Email => x.(email := v)
    case Phone => x.(phone := v)
  }

  lemma ReferenceExtensional(a: Reference, b: Reference)
    requires a.id == b.id
    requires forall f :: GetReference(a, f) == GetReference(b, f)
    ensures a == b
  {
    assert GetReference(a, ReferenceField.Name) == GetReference(b, ReferenceField.Name);
    assert GetReference(a, ReferenceField.Position) == GetReference(b, ReferenceField.Position);
    assert GetReference(a, Organization) == GetReference(b, Organization);
    assert GetReference(a, Email) == GetReference(b, Email);
    assert GetReference(a, Phone) == GetReference(b, Phone);
  }

  function EmptyReference(id: string): (r: Reference)
    ensures r.id == id
    ensures forall f :: GetReference(r, f) == ""
  {
    Reference(id, "", "", "", "", "")
  }

  // ---------------------------------------------------------------- lens laws

  /** Writing back the value just read changes nothing. */
  lemma SetGetExperience(e: Experience, f: ExperienceField)
    ensures SetExperience(e, f, GetExperience(e, f)) == e
  {
    ExperienceExtensional(SetExperience(e, f, GetExperience(e, f)), e);
  }

  /** The second of two writes to the same field wins. */
  lemma SetSetExperience(e: Experience, f: ExperienceField, v: string, w: string)
    ensures SetExperience(SetExperience(e, f, v), f, w) == SetExperience(e, f, w)
  {
    ExperienceExtensional(SetExperience(SetExperience(e, f, v), f, w), SetExperience(e, f, w));
  }

  lemma SetGetEducation(e: Education, f: EducationField)
    requires GetEducation(e, f).Some?
    ensures SetEducation(e, f, GetEducation(e, f).value) == e
  {
    EducationExtensional(SetEducation(e, f, GetEducation(e, f).value), e);
  }

  lemma SetSetEducation(e: Education, f: EducationField, v: string, w: string)
    ensures SetEducation(SetEducation(e, f, v), f, w) == SetEducation(e, f, w)
  {
    EducationExtensional(SetEducation(SetEducation(e, f, v), f, w), SetEducation(e, f, w));
  }

  lemma SetGetProject(p: Project, f: ProjectField)
    requires GetProject(p, f).Some?
    ensures SetProject(p, f, GetProject(p, f).value) == p
  {
    ProjectExtensional(SetProject(p, f, GetProject(p, f).value), p);
  }

  lemma SetSetProject(p: Project, f: ProjectField, v: string, w: string)
    ensures SetProject(SetProject(p, f, v), f, w) == SetProject(p, f, w)
  {
    ProjectExtensional(SetProject(SetProject(p, f, v), f, w), SetProject(p, f, w));
  }

  lemma SetGetCertification(c: Certification, f: CertificationField)
    ensures SetCertification(c, f, GetCertification(c, f)) == c
  {
    CertificationExtensional(SetCertification(c, f, GetCertification(c, f)), c);
  }

  lemma SetSetCertification(c: Certification, f: CertificationField, v: string, w: string)
    ensures SetCertification(SetCertification(c, f, v), f, w) == SetCertification(c, f, w)
  {
    CertificationExtensional(SetCertification(SetCertification(c, f, v), f, w), SetCertification(c, f, w));
  }

  lemma SetGetReference(x: Reference, f: ReferenceField)
    ensures SetReference(x, f, GetReference(x, f)) == x
  {
    ReferenceExtensional(SetReference(x, f, GetReference(x, f)), x);
  }

  lemma SetSetReference(x: Reference, f: ReferenceField, v: string, w: string)
    ensures SetReference(SetReference(x, f, v), f, w) == SetReference(x, f, w)
  {
    ReferenceExtensional(SetReference(SetReference(x, f, v), f, w), SetReference(x, f, w));
  }
}
