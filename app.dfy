/** The editor's state and its handlers (App.tsx): the draft being edited,
    the list of submitted resumes, the two browser-storage entries, and the
    operations the buttons and inputs trigger. */
module App {
  import opened ResumeTypes
  import opened Seqs
  import Records
  import ResumeTemplate

  datatype AppMode = User | Admin

  datatype FormSection =
    | PersonalTab | SummaryTab | EducationTab | ExperienceTab | ProjectsTab
    | CertificationsTab | ReferencesTab | SkillsTab | AtsTab

  // ---------------------------------------------------------------- draft fields

  /** The text properties of a draft that `handleInputChange` writes. */
  datatype DraftField =
    | Template | FullName | Email | Phone | Location | Linkedin | Website
    | Summary | Skills | Languages | JobDescription

  /** The field's value; only `jobDescription` may be absent. */
  function GetDraft(d: ResumeData, f: DraftField): Option<string>
  {
    match f
    case Template => Some(d.template)
    case FullName => Some(d.fullName)
    case Email => Some(d.email)
    case Phone => Some(d.phone)
    case Location => Some(d.location)
    case Linkedin => Some(d.linkedin)
    case Website => Some(d.website)
    case Summary => Some(d.summary)
    case Skills => Some(d.skills)
    case Languages => Some(d.languages)
    case JobDescription => d.jobDescription
  }

  /** Everything of a draft that is not a text field is the same in both. */
  predicate SameStructure(a: ResumeData, b: ResumeData)
  {
    a.id == b.id && a.experiences == b.experiences && a.education == b.education
    && a.projects == b.projects && a.certifications == b.certifications
    && a.references == b.references && a.submittedAt == b.submittedAt && a.atsScore == b.atsScore
  }

  /** `handleInputChange(field, value)`: `{ ...prev, [field]: value }`. */
  function SetDraft(d: ResumeData, f: DraftField, v: string): (r: ResumeData)
    ensures GetDraft(r, f) == Some(v)
    ensures forall g :: g != f ==> GetDraft(r, g) == GetDraft(d, g)
    ensures SameStructure(r, d)
  {
    match f
    case Template => d.(template := v)
    case FullName => d.(fullName := v)
    case Email => d.(email := v)
    case Phone => d.(phone := v)
    case Location => d.(location := v)
    case Linkedin => d.(linkedin := v)
    case Website => d.(website := v)
    case Summary => d.(summary := v)
    case Skills => d.(skills := v)
    case Languages => d.(languages := v)
    case JobDescription => d.(jobDescription := Some(v))
  }

  /** A draft is determined by its text fields and its structure. */
  lemma DraftExtensional(a: ResumeData, b: ResumeData)
    requires SameStructure(a, b)
    requires forall f :: GetDraft(a, f) == GetDraft(b, f)
    ensures a == b
  {
    assert GetDraft(a, Template) == GetDraft(b, Template);
    assert GetDraft(a, FullName) == GetDraft(b, FullName);
    assert GetDraft(a, Email) == GetDraft(b, Email);
    assert GetDraft(a, Phone) == GetDraft(b, Phone);
    assert GetDraft(a, Location) == GetDraft(b, Location);
    assert GetDraft(a, Linkedin) == GetDraft(b, Linkedin);
    assert GetDraft(a, Website) == GetDraft(b, Website);
    assert GetDraft(a, Summary) == GetDraft(b, Summary);
    assert GetDraft(a, Skills) == GetDraft(b, Skills);
    assert GetDraft(a, Languages) == GetDraft(b, Languages);
    assert GetDraft(a, JobDescription) == GetDraft(b, JobDescription);
  }

  /** Writing back a present value changes nothing. */
  lemma SetGetDraft(d: ResumeData, f: DraftField)
    requires GetDraft(d, f).Some?
    ensures SetDraft(d, f, GetDraft(d, f).value) == d
  {
    DraftExtensional(SetDraft(d, f, GetDraft(d, f).value), d);
  }

  /** The later of two writes to one field wins. */
  lemma SetSetDraft(d: ResumeData, f: DraftField, v: string, w: string)
    ensures SetDraft(SetDraft(d, f, v), f, w) == SetDraft(d, f, w)
  {
    DraftExtensional(SetDraft(SetDraft(d, f, v), f, w), SetDraft(d, f, w));
  }

  /** Writes to different fields do not interfere. */
  lemma SetDraftCommutes(d: ResumeData, f: DraftField, g: DraftField, v: string, w: string)
    requires f != g
    ensures SetDraft(SetDraft(d, f, v), g, w) == SetDraft(SetDraft(d, g, w), f, v)
  {
    DraftExtensional(SetDraft(SetDraft(d, f, v), g, w), SetDraft(SetDraft(d, g, w), f, v));
  }

  // ---------------------------------------------------------------- initial draft, autosave

  /** The autosave effect only schedules a save when the draft has a name, an
      e-mail address or at least one experience entry. */
  predicate AutosaveEligible(d: ResumeData)
  {
    d.fullName != "" || d.email != "" || |d.experiences| > 0
  }

  /** `initialData` under a given fresh id (what `createNewResume` installs). */
  function InitialData(id: string): (d: ResumeData)
    ensures d.id == Some(id)
    ensures d.template == "Standard" && ResumeTemplate.SelectTemplate(d.template) == Standard
    ensures forall f :: f != Template ==> GetDraft(d, f) == Some("")
    ensures d.experiences == [] && d.education == [] && d.projects == []
    ensures d.certifications == [] && d.references == []
    ensures d.submittedAt == None && d.atsScore == None
    ensures !AutosaveEligible(d)
  {
    ResumeData(Some(id), "Standard", "", "", "", "", "", "", "", [], [], [], [], [], "", "", Some(""), None, None)
  }

  /** Only the name and e-mail fields affect autosave eligibility. */
  lemma SetDraftAutosave(d: ResumeData, f: DraftField, v: string)
    ensures f != FullName && f != Email ==> (AutosaveEligible(SetDraft(d, f, v)) <==> AutosaveEligible(d))
    ensures (f == FullName || f == Email) && v != "" ==> AutosaveEligible(SetDraft(d, f, v))
  {
    var r := SetDraft(d, f, v);
    assert GetDraft(r, FullName) == Some(r.fullName) && GetDraft(d, FullName) == Some(d.fullName);
    assert GetDraft(r, Email) == Some(r.email) && GetDraft(d, Email) == Some(d.email);
  }

  // ---------------------------------------------------------------- experiences

  /** `addExperience`: one empty entry appended, nothing else changed. */
  function ExperienceAdded(d: ResumeData, id: string): (r: ResumeData)
    ensures |r.experiences| == |d.experiences| + 1
    ensures r.experiences[..|d.experiences|] == d.experiences
    ensures r.experiences[|d.experiences|] == Records.EmptyExperience(id)
    ensures r.(experiences := d.experiences) == d
  {
    d.(experiences := d.experiences + [Records.EmptyExperience(id)])
  }

  /** `updateExperience`: the field of every entry with that id is set. */
  function ExperienceUpdated(d: ResumeData, id: string, f: Records.ExperienceField, v: string): (r: ResumeData)
    ensures |r.experiences| == |d.experiences|
    ensures forall i :: 0 <= i < |d.experiences| && d.experiences[i].id != id ==> r.experiences[i] == d.experiences[i]
    ensures forall i :: 0 <= i < |d.experiences| && d.experiences[i].id == id ==> r.experiences[i] == Records.SetExperience(d.experiences[i], f, v)
    ensures r.(experiences := d.experiences) == d
  {
    d.(experiences := UpdateWhere(d.experiences, ExperienceId, id, e => Records.SetExperience(e, f, v)))
  }

  /** The inline remove button: every entry with that id is dropped. */
  function ExperienceRemoved(d: ResumeData, id: string): (r: ResumeData)
    ensures forall e :: e in r.experiences <==> e in d.experiences && e.id != id
    ensures r.(experiences := d.experiences) == d
  {
    d.(experiences := Without(d.experiences, ExperienceId, id))
  }

  /** Removing the entry just added under a fresh id restores the draft;
      updating an id that is absent changes nothing. */
  lemma ExperienceAddRemove(d: ResumeData, id: string, f: Records.ExperienceField, v: string)
    requires forall e :: e in d.experiences ==> e.id != id
    ensures ExperienceRemoved(ExperienceAdded(d, id), id) == d
    ensures ExperienceUpdated(d, id, f, v) == d
  {
    WithoutAfterAppend(d.experiences, ExperienceId, Records.EmptyExperience(id));
    UpdateWhereAbsent(d.experiences, ExperienceId, id, e => Records.SetExperience(e, f, v));
  }

  /** Update and remove keep entry ids unique; so does adding a fresh id. */
  lemma ExperienceIdsStayUnique(d: ResumeData, id: string, f: Records.ExperienceField, v: string)
    requires UniqueKeys(d.experiences, ExperienceId)
    ensures UniqueKeys(ExperienceUpdated(d, id, f, v).experiences, ExperienceId)
    ensures UniqueKeys(ExperienceRemoved(d, id).experiences, ExperienceId)
    ensures (forall e :: e in d.experiences ==> e.id != id) ==> UniqueKeys(ExperienceAdded(d, id).experiences, ExperienceId)
  {
    UpdateWhereKeepsKeys(d.experiences, ExperienceId, id, e => Records.SetExperience(e, f, v));
    WithoutKeepsUnique(d.experiences, ExperienceId, id);
    if forall e :: e in d.experiences ==> e.id != id {
      AppendFreshKeepsUnique(d.experiences, ExperienceId, Records.EmptyExperience(id));
    }
  }

  // ---------------------------------------------------------------- education

  /** `addEducation`. */
  function EducationAdded(d: ResumeData, id: string): (r: ResumeData)
    ensures |r.education| == |d.education| + 1
    ensures r.education[..|d.education|] == d.education
    ensures r.education[|d.education|] == Records.EmptyEducation(id)
    ensures r.(education := d.education) == d
  {
    d.(education := d.education + [Records.EmptyEducation(id)])
  }

  /** `updateEducation`. */
  function EducationUpdated(d: ResumeData, id: string, f: Records.EducationField, v: string): (r: ResumeData)
    ensures |r.education| == |d.education|
    ensures forall i :: 0 <= i < |d.education| && d.education[i].id != id ==> r.education[i] == d.education[i]
    ensures forall i :: 0 <= i < |d.education| && d.education[i].id == id ==> r.education[i] == Records.SetEducation(d.education[i], f, v)
    ensures r.(education := d.education) == d
  {
    d.(education := UpdateWhere(d.education, EducationId, id, e => Records.SetEducation(e, f, v)))
  }

  /** The inline remove button of an education entry. */
  function EducationRemoved(d: ResumeData, id: string): (r: ResumeData)
    ensures forall e :: e in r.education <==> e in d.education && e.id != id
    ensures r.(education := d.education) == d
  {
    d.(education := Without(d.education, EducationId, id))
  }

  lemma EducationAddRemove(d: ResumeData, id: string, f: Records.EducationField, v: string)
    requires forall e :: e in d.education ==> e.id != id
    ensures EducationRemoved(EducationAdded(d, id), id) == d
    ensures EducationUpdated(d, id, f, v) == d
  {
    WithoutAfterAppend(d.education, EducationId, Records.EmptyEducation(id));
    UpdateWhereAbsent(d.education, EducationId, id, e => Records.SetEducation(e, f, v));
  }

  lemma EducationIdsStayUnique(d: ResumeData, id: string, f: Records.EducationField, v: string)
    requires UniqueKeys(d.education, EducationId)
    ensures UniqueKeys(EducationUpdated(d, id, f, v).education, EducationId)
    ensures UniqueKeys(EducationRemoved(d, id).education, EducationId)
    ensures (forall e :: e in d.education ==> e.id != id) ==> UniqueKeys(EducationAdded(d, id).education, EducationId)
  {
    UpdateWhereKeepsKeys(d.education, EducationId, id, e => Records.SetEducation(e, f, v));
    WithoutKeepsUnique(d.education, EducationId, id);
    if forall e :: e in d.education ==> e.id != id {
      AppendFreshKeepsUnique(d.education, EducationId, Records.EmptyEducation(id));
    }
  }

  // ---------------------------------------------------------------- projects

  /** `addProject`. */
  function ProjectAdded(d: ResumeData, id: string): (r: ResumeData)
    ensures |r.projects| == |d.projects| + 1
    ensures r.projects[..|d.projects|] == d.projects
    ensures r.projects[|d.projects|] == Records.EmptyProject(id)
    ensures r.(projects := d.projects) == d
  {
    d.(projects := d.projects + [Records.EmptyProject(id)])
  }

  /** `updateProject`. */
  function ProjectUpdated(d: ResumeData, id: string, f: Records.ProjectField, v: string): (r: ResumeData)
    ensures |r.projects| == |d.projects|
    ensures forall i :: 0 <= i < |d.projects| && d.projects[i].id != id ==> r.projects[i] == d.projects[i]
    ensures forall i :: 0 <= i < |d.projects| && d.projects[i].id == id ==> r.projects[i] == Records.SetProject(d.projects[i], f, v)
    ensures r.(projects := d.projects) == d
  {
    d.(projects := UpdateWhere(d.projects, ProjectId, id, p => Records.SetProject(p, f, v)))
  }

  /** The inline remove button of a project. */
  function ProjectRemoved(d: ResumeData, id: string): (r: ResumeData)
    ensures forall p :: p in r.projects <==> p in d.projects && p.id != id
    ensures r.(projects := d.projects) == d
  {
    d.(projects := Without(d.projects, ProjectId, id))
  }

  lemma ProjectAddRemove(d: ResumeData, id: string, f: Records.ProjectField, v: string)
    requires forall p :: p in d.projects ==> p.id != id
    ensures ProjectRemoved(ProjectAdded(d, id), id) == d
    ensures ProjectUpdated(d, id, f, v) == d
  {
    WithoutAfterAppend(d.projects, ProjectId, Records.EmptyProject(id));
    UpdateWhereAbsent(d.projects, ProjectId, id, p => Records.SetProject(p, f, v));
  }

  lemma ProjectIdsStayUnique(d: ResumeData, id: string, f: Records.ProjectField, v: string)
    requires UniqueKeys(d.projects, ProjectId)
    ensures UniqueKeys(ProjectUpdated(d, id, f, v).projects, ProjectId)
    ensures UniqueKeys(ProjectRemoved(d, id).projects, ProjectId)
    ensures (forall p :: p in d.projects ==> p.id != id) ==> UniqueKeys(ProjectAdded(d, id).projects, ProjectId)
  {
    UpdateWhereKeepsKeys(d.projects, ProjectId, id, p => Records.SetProject(p, f, v));
    WithoutKeepsUnique(d.projects, ProjectId, id);
    if forall p :: p in d.projects ==> p.id != id {
      AppendFreshKeepsUnique(d.projects, ProjectId, Records.EmptyProject(id));
    }
  }

  // ---------------------------------------------------------------- certifications

  /** `addCertification`. */
  function CertificationAdded(d: ResumeData, id: string): (r: ResumeData)
    ensures |r.certifications| == |d.certifications| + 1
    ensures r.certifications[..|d.certifications|] == d.certifications
    ensures r.certifications[|d.certifications|] == Records.EmptyCertification(id)
    ensures r.(certifications := d.certifications) == d
  {
    d.(certifications := d.certifications + [Records.EmptyCertification(id)])
  }

  /** `updateCertification`. */
  function CertificationUpdated(d: ResumeData, id: string, f: Records.CertificationField, v: string): (r: ResumeData)
    ensures |r.certifications| == |d.certifications|
    ensures forall i :: 0 <= i < |d.certifications| && d.certifications[i].id != id ==> r.certifications[i] == d.certifications[i]
    ensures forall i :: 0 <= i < |d.certifications| && d.certifications[i].id == id ==> r.certifications[i] == Records.SetCertification(d.certifications[i], f, v)
    ensures r.(certifications := d.certifications) == d
  {
    d.(certifications := UpdateWhere(d.certifications, CertificationId, id, c => Records.SetCertification(c, f, v)))
  }

  /** The inline remove button of a certification. */
  function CertificationRemoved(d: ResumeData, id: string): (r: ResumeData)
    ensures forall c :: c in r.certifications <==> c in d.certifications && c.id != id
    ensures r.(certifications := d.certifications) == d
  {
    d.(certifications := Without(d.certifications, CertificationId, id))
  }

  lemma CertificationAddRemove(d: ResumeData, id: string, f: Records.CertificationField, v: string)
    requires forall c :: c in d.certifications ==> c.id != id
    ensures CertificationRemoved(CertificationAdded(d, id), id) == d
    ensures CertificationUpdated(d, id, f, v) == d
  {
    WithoutAfterAppend(d.certifications, CertificationId, Records.EmptyCertification(id));
    UpdateWhereAbsent(d.certifications, CertificationId, id, c => Records.SetCertification(c, f, v));
  }

  lemma CertificationIdsStayUnique(d: ResumeData, id: string, f: Records.CertificationField, v: string)
    requires UniqueKeys(d.certifications, CertificationId)
    ensures UniqueKeys(CertificationUpdated(d, id, f, v).certifications, CertificationId)
    ensures UniqueKeys(CertificationRemoved(d, id).certifications, CertificationId)
    ensures (forall c :: c in d.certifications ==> c.id != id) ==> UniqueKeys(CertificationAdded(d, id).certifications, CertificationId)
  {
    UpdateWhereKeepsKeys(d.certifications, CertificationId, id, c => Records.SetCertification(c, f, v));
    WithoutKeepsUnique(d.certifications, CertificationId, id);
    if forall c :: c in d.certifications ==> c.id != id {
      AppendFreshKeepsUnique(d.certifications, CertificationId, Records.EmptyCertification(id));
    }
  }

  // ---------------------------------------------------------------- references

  /** `addReference`. */
  function ReferenceAdded(d: ResumeData, id: string): (r: ResumeData)
    ensures |r.references| == |d.references| + 1
    ensures r.references[..|d.references|] == d.references
    ensures r.references[|d.references|] == Records.EmptyReference(id)
    ensures r.(references := d.references) == d
  {
    d.(references := d.references + [Records.EmptyReference(id)])
  }

  /** `updateReference`. */
  function ReferenceUpdated(d: ResumeData, id: string, f: Records.ReferenceField, v: string): (r: ResumeData)
    ensures |r.references| == |d.references|
    ensures forall i :: 0 <= i < |d.references| && d.references[i].id != id ==> r.references[i] == d.references[i]
    ensures forall i :: 0 <= i < |d.references| && d.references[i].id == id ==> r.references[i] == Records.SetReference(d.references[i], f, v)
    ensures r.(references := d.references) == d
  {
    d.(references := UpdateWhere(d.references, ReferenceId, id, x => Records.SetReference(x, f, v)))
  }

  /** The inline remove button of a reference. */
  function ReferenceRemoved(d: ResumeData, id: string): (r: ResumeData)
    ensures forall x :: x in r.references <==> x in d.references && x.id != id
    ensures r.(references := d.references) == d
  {
    d.(references := Without(d.references, ReferenceId, id))
  }

  lemma ReferenceAddRemove(d: ResumeData, id: string, f: Records.ReferenceField, v: string)
    requires forall x :: x in d.references ==> x.id != id
    ensures ReferenceRemoved(ReferenceAdded(d, id), id) == d
    ensures ReferenceUpdated(d, id, f, v) == d
  {
    WithoutAfterAppend(d.references, ReferenceId, Records.EmptyReference(id));
    UpdateWhereAbsent(d.references, ReferenceId, id, x => Records.SetReference(x, f, v));
  }

  lemma ReferenceIdsStayUnique(d: ResumeData, id: string, f: Records.ReferenceField, v: string)
    requires UniqueKeys(d.references, ReferenceId)
    ensures UniqueKeys(ReferenceUpdated(d, id, f, v).references, ReferenceId)
    ensures UniqueKeys(ReferenceRemoved(d, id).references, ReferenceId)
    ensures (forall x :: x in d.references ==> x.id != id) ==> UniqueKeys(ReferenceAdded(d, id).references, ReferenceId)
  {
    UpdateWhereKeepsKeys(d.references, ReferenceId, id, x => Records.SetReference(x, f, v));
    WithoutKeepsUnique(d.references, ReferenceId, id);
    if forall x :: x in d.references ==> x.id != id {
      AppendFreshKeepsUnique(d.references, ReferenceId, Records.EmptyReference(id));
    }
  }

  // ---------------------------------------------------------------- AI guards

  /** The first entry with `id` exists and has a non-empty description. */
  predicate FirstWithIdHasDescription(xs: seq<Experience>, id: string)
  {
    exists i :: 0 <= i < |xs| && xs[i].id == id && xs[i].description != ""
                && forall j :: 0 <= j < i ==> xs[j].id != id
  }

  /** `aiEnhanceExp` goes ahead only when the first entry with that id exists
      and has a non-empty description. */
  function CanEnhance(d: ResumeData, id: string): (ok: bool)
    ensures ok <==> FirstWithIdHasDescription(d.experiences, id)
  {
    var i := FirstIndex(d.experiences, ExperienceId, id);
    assert i >= 0 ==> d.experiences[i].id == id && forall j :: 0 <= j < i ==> d.experiences[j].id != id;
    i >= 0 && d.experiences[i].description != ""
  }

  /** After the description of the entries with an id is edited, the
      experience AI action may run exactly when such an entry exists and the
      new description is non-empty. */
  lemma EnhanceAfterDescriptionEdit(d: ResumeData, id: string, v: string)
    ensures CanEnhance(ExperienceUpdated(d, id, Records.ExperienceField.Description, v), id)
            <==> (exists e :: e in d.experiences && e.id == id) && v != ""
  {
    var r := ExperienceUpdated(d, id, Records.ExperienceField.Description, v);
    var xs, ys := d.experiences, r.experiences;
    assert forall i :: 0 <= i < |xs| ==> ys[i].id == xs[i].id && (xs[i].id == id ==> ys[i].description == v) by {
      forall i | 0 <= i < |xs| ensures ys[i].id == xs[i].id && (xs[i].id == id ==> ys[i].description == v) {
        if xs[i].id == id {
          assert Records.GetExperience(ys[i], Records.ExperienceField.Description) == v;
        }
      }
    }
    FirstMatchAfterEdit(xs, ys, id, v);
  }

  /** When an edit keeps every id and gives each entry with `id` the
      description `v`, the first entry with `id` has a non-empty description
      exactly when such an entry exists and `v` is non-empty. */
  lemma FirstMatchAfterEdit(xs: seq<Experience>, ys: seq<Experience>, id: string, v: string)
    requires |ys| == |xs|
    requires forall i :: 0 <= i < |xs| ==> ys[i].id == xs[i].id && (xs[i].id == id ==> ys[i].description == v)
    ensures FirstWithIdHasDescription(ys, id) <==> (exists e :: e in xs && e.id == id) && v != ""
  {
    if exists e :: e in xs && e.id == id {
      var k := FirstIndex(xs, ExperienceId, id);
      assert ys[k].id == id && forall j :: 0 <= j < k ==> ys[j].id != id;
    }
    if exists i :: 0 <= i < |ys| && ys[i].id == id && ys[i].description != "" {
      var i :| 0 <= i < |ys| && ys[i].id == id && ys[i].description != "";
      assert xs[i] in xs;
    }
  }

  /** `runATSAnalysis` goes ahead only when the job description is present
      and non-empty. */
  predicate CanAnalyse(d: ResumeData)
  {
    Truthy(d.jobDescription)
  }

  // ---------------------------------------------------------------- submissions

  /** `{ ...data, submittedAt }`: the draft stamped with the submission time. */
  function SubmissionOf(d: ResumeData, at: string): (r: ResumeData)
    ensures r.submittedAt == Some(at)
    ensures r.(submittedAt := d.submittedAt) == d
  {
    d.(submittedAt := Some(at))
  }

  /** The list `submitResume` stores: the first entry with the same id
      (absent ids matching each other) is replaced in place, otherwise the
      entry is appended. */
  function Upsert(subs: seq<ResumeData>, entry: ResumeData): (r: seq<ResumeData>)
    ensures entry in r
    ensures forall x :: x in r ==> x == entry || x in subs
    ensures |r| == |subs| || |r| == |subs| + 1
  {
    var i := FirstIndex(subs, ResumeId, entry.id);
    if i >= 0 then
      assert subs[i := entry][i] == entry;
      subs[i := entry]
    else
      assert (subs + [entry])[|subs|] == entry;
      subs + [entry]
  }

  /** With an entry of that id present, the first one is replaced and the
      length and every other position are kept. */
  lemma UpsertReplacesFirst(subs: seq<ResumeData>, entry: ResumeData, i: int)
    requires 0 <= i < |subs| && subs[i].id == entry.id
    requires forall j :: 0 <= j < i ==> subs[j].id != entry.id
    ensures |Upsert(subs, entry)| == |subs|
    ensures Upsert(subs, entry)[i] == entry
    ensures forall j :: 0 <= j < |subs| && j != i ==> Upsert(subs, entry)[j] == subs[j]
  {
    var k := FirstIndex(subs, ResumeId, entry.id);
    assert ResumeId(subs[i]) == entry.id;
    assert k == i;
  }

  /** With no entry of that id, the entry is appended at the end. */
  lemma UpsertAppends(subs: seq<ResumeData>, entry: ResumeData)
    requires forall x :: x in subs ==> x.id != entry.id
    ensures Upsert(subs, entry) == subs + [entry]
    ensures |Upsert(subs, entry)| == |subs| + 1
  {
    var k := FirstIndex(subs, ResumeId, entry.id);
    if k >= 0 {
      assert subs[k] in subs;
    }
  }

  /** From a list with unique ids, the result still has unique ids, and the
      only entry carrying the submitted id is the submitted entry. */
  lemma UpsertKeepsUnique(subs: seq<ResumeData>, entry: ResumeData)
    requires UniqueKeys(subs, ResumeId)
    ensures UniqueKeys(Upsert(subs, entry), ResumeId)
    ensures forall x :: x in Upsert(subs, entry) && x.id == entry.id ==> x == entry
    ensures CountKey(Upsert(subs, entry), ResumeId, entry.id) == 1
  {
    var r := Upsert(subs, entry);
    var i := FirstIndex(subs, ResumeId, entry.id);
    if i >= 0 {
      assert forall p :: 0 <= p < |r| ==> ResumeId(r[p]) == ResumeId(subs[p]);
      assert UniqueKeys(r, ResumeId);
    } else {
      AppendFreshKeepsUnique(subs, ResumeId, entry);
    }
    forall x | x in r && x.id == entry.id ensures x == entry {
      var p :| 0 <= p < |r| && r[p] == x;
      var q :| 0 <= q < |r| && r[q] == entry;
      assert ResumeId(r[p]) == ResumeId(r[q]);
    }
    UniqueCountAtMostOne(r, ResumeId, entry.id);
  }

  /** Submitting two drafts with the same id in a row is the same as
      submitting only the second. */
  lemma UpsertTwice(subs: seq<ResumeData>, e1: ResumeData, e2: ResumeData)
    requires e1.id == e2.id
    ensures Upsert(Upsert(subs, e1), e2) == Upsert(subs, e2)
  {
    var r1 := Upsert(subs, e1);
    var i := FirstIndex(subs, ResumeId, e1.id);
    var k := FirstIndex(r1, ResumeId, e2.id);
    if i >= 0 {
      assert ResumeId(r1[i]) == e2.id;
      assert forall j :: 0 <= j < i ==> r1[j] == subs[j];
      assert k == i;
    } else {
      assert ResumeId(r1[|subs|]) == e2.id;
      assert forall j :: 0 <= j < |subs| ==> r1[j] == subs[j];
      assert k == |subs|;
    }
  }

  /** Submitting the same draft twice leaves exactly one entry with its id,
      the later submission, when the ids were unique before. */
  lemma SubmitTwiceKeepsOne(subs: seq<ResumeData>, d: ResumeData, t1: string, t2: string)
    requires UniqueKeys(subs, ResumeId)
    ensures CountKey(Upsert(Upsert(subs, SubmissionOf(d, t1)), SubmissionOf(d, t2)), ResumeId, d.id) == 1
    ensures SubmissionOf(d, t2) in Upsert(Upsert(subs, SubmissionOf(d, t1)), SubmissionOf(d, t2))
    ensures forall x :: x in Upsert(Upsert(subs, SubmissionOf(d, t1)), SubmissionOf(d, t2)) && x.id == d.id ==> x == SubmissionOf(d, t2)
  {
    UpsertTwice(subs, SubmissionOf(d, t1), SubmissionOf(d, t2));
    UpsertKeepsUnique(subs, SubmissionOf(d, t2));
  }

  // ---------------------------------------------------------------- the editor

  /** The component's state: mode, open form tab, draft, submissions, and the
      two storage entries (`None` when the key is absent). */
  class Editor {
    var mode: AppMode
    var section: FormSection
    var draft: ResumeData
    var submissions: seq<ResumeData>
    var savedDraft: Option<ResumeData>
    var savedSubmissions: Option<seq<ResumeData>>

    /** The state every handler that edits only the draft leaves alone. */
    function Others(): (AppMode, FormSection, seq<ResumeData>, Option<ResumeData>, Option<seq<ResumeData>>)
      reads this
    {
      (mode, section, submissions, savedDraft, savedSubmissions)
    }

    /** First render, before the storage is read: user mode, the personal
        tab, a fresh initial draft, no submissions. */
    constructor (freshId: string, storedDraft: Option<ResumeData>, storedSubmissions: Option<seq<ResumeData>>)
      ensures mode == User && section == PersonalTab
      ensures draft == InitialData(freshId) && submissions == []
      ensures savedDraft == storedDraft && savedSubmissions == storedSubmissions
    {
      mode := User;
      section := PersonalTab;
      draft := InitialData(freshId);
      submissions := [];
      savedDraft := storedDraft;
      savedSubmissions := storedSubmissions;
    }

    /** The mount effect: the stored submissions and the stored draft, each
        when its key is present, replace the in-memory ones. */
    method Restore()
      modifies this
      ensures submissions == (if savedSubmissions.Some? then savedSubmissions.value else old(submissions))
      ensures draft == (if savedDraft.Some? then savedDraft.value else old(draft))
      ensures mode == old(mode) && section == old(section)
      ensures savedDraft == old(savedDraft) && savedSubmissions == old(savedSubmissions)
    {
      if savedSubmissions.Some? {
        submissions := savedSubmissions.value;
      }
      if savedDraft.Some? {
        draft := savedDraft.value;
      }
    }

    /** The debounced save, when its timer fires: only an eligible draft is
        written. */
    method Autosave()
      modifies this
      ensures savedDraft == (if AutosaveEligible(draft) then Some(draft) else old(savedDraft))
      ensures draft == old(draft) && submissions == old(submissions)
      ensures mode == old(mode) && section == old(section) && savedSubmissions == old(savedSubmissions)
    {
      if AutosaveEligible(draft) {
        savedDraft := Some(draft);
      }
    }

    /** The two mode buttons of the header. */
    method SetMode(m: AppMode)
      modifies this
      ensures mode == m
      ensures section == old(section) && draft == old(draft) && submissions == old(submissions)
      ensures savedDraft == old(savedDraft) && savedSubmissions == old(savedSubmissions)
    {
      mode := m;
    }

    /** The tab buttons of the form. */
    method SetSection(s: FormSection)
      modifies this
      ensures section == s
      ensures mode == old(mode) && draft == old(draft) && submissions == old(submissions)
      ensures savedDraft == old(savedDraft) && savedSubmissions == old(savedSubmissions)
    {
      section := s;
    }

    method HandleInputChange(f: DraftField, v: string)
      modifies this
      ensures draft == SetDraft(old(draft), f, v)
      ensures Others() == old(Others())
    {
      draft := SetDraft(draft, f, v);
    }

    /** `submitResume`: copy the list, overwrite the first entry with the
        draft's id or push, then store the new list. */
    method SubmitResume(now: string)
      modifies this
      ensures submissions == Upsert(old(submissions), SubmissionOf(old(draft), now))
      ensures savedSubmissions == Some(submissions)
      ensures draft == old(draft) && mode == old(mode) && section == old(section)
      ensures savedDraft == old(savedDraft)
    {
      var entry := SubmissionOf(draft, now);
      var updated := submissions;
      var existing := FirstIndex(updated, ResumeId, draft.id);
      if existing >= 0 {
        updated := updated[existing := entry];
      } else {
        updated := updated + [entry];
      }
      submissions := updated;
      savedSubmissions := Some(updated);
    }

    /** `createNewResume`, with the answer to its confirmation dialog. */
    method CreateNewResume(confirmed: bool, freshId: string)
      modifies this
      ensures confirmed ==> draft == InitialData(freshId) && savedDraft == None && section == PersonalTab
      ensures !confirmed ==> draft == old(draft) && savedDraft == old(savedDraft) && section == old(section)
      ensures mode == old(mode) && submissions == old(submissions) && savedSubmissions == old(savedSubmissions)
    {
      if confirmed {
        draft := InitialData(freshId);
        savedDraft := None;
        section := PersonalTab;
      }
    }

    /** `loadSubmission`: the stored entry becomes the draft, in user mode on
        the personal tab. */
    method LoadSubmission(sub: ResumeData)
      modifies this
      ensures draft == sub && mode == User && section == PersonalTab
      ensures submissions == old(submissions)
      ensures savedDraft == old(savedDraft) && savedSubmissions == old(savedSubmissions)
    {
      draft := sub;
      mode := User;
      section := PersonalTab;
    }

    /** `deleteSubmission`, with the answer to its confirmation dialog. The
        dashboard passes `sub.id!`, which is absent for an entry without id. */
    method DeleteSubmission(confirmed: bool, id: Option<string>)
      modifies this
      ensures confirmed ==> submissions == Without(old(submissions), ResumeId, id) && savedSubmissions == Some(submissions)
      ensures !confirmed ==> submissions == old(submissions) && savedSubmissions == old(savedSubmissions)
      ensures draft == old(draft) && mode == old(mode) && section == old(section)
      ensures savedDraft == old(savedDraft)
    {
      if confirmed {
        var updated := Without(submissions, ResumeId, id);
        submissions := updated;
        savedSubmissions := Some(updated);
      }
    }

    method AddExperience(freshId: string)
      modifies this
      ensures draft == ExperienceAdded(old(draft), freshId)
      ensures Others() == old(Others())
    {
      draft := ExperienceAdded(draft, freshId);
    }

    method UpdateExperience(id: string, f: Records.ExperienceField, v: string)
      modifies this
      ensures draft == ExperienceUpdated(old(draft), id, f, v)
      ensures Others() == old(Others())
    {
      draft := ExperienceUpdated(draft, id, f, v);
    }

    method RemoveExperience(id: string)
      modifies this
      ensures draft == ExperienceRemoved(old(draft), id)
      ensures Others() == old(Others())
    {
      draft := ExperienceRemoved(draft, id);
    }

    method AddEducation(freshId: string)
      modifies this
      ensures draft == EducationAdded(old(draft), freshId)
      ensures Others() == old(Others())
    {
      draft := EducationAdded(draft, freshId);
    }

    method UpdateEducation(id: string, f: Records.EducationField, v: string)
      modifies this
      ensures draft == EducationUpdated(old(draft), id, f, v)
      ensures Others() == old(Others())
    {
      draft := EducationUpdated(draft, id, f, v);
    }

    method RemoveEducation(id: string)
      modifies this
      ensures draft == EducationRemoved(old(draft), id)
      ensures Others() == old(Others())
    {
      draft := EducationRemoved(draft, id);
    }

    method AddProject(freshId: string)
      modifies this
      ensures draft == ProjectAdded(old(draft), freshId)
      ensures Others() == old(Others())
    {
      draft := ProjectAdded(draft, freshId);
    }

    method UpdateProject(id: string, f: Records.ProjectField, v: string)
      modifies this
      ensures draft == ProjectUpdated(old(draft), id, f, v)
      ensures Others() == old(Others())
    {
      draft := ProjectUpdated(draft, id, f, v);
    }

    method RemoveProject(id: string)
      modifies this
      ensures draft == ProjectRemoved(old(draft), id)
      ensures Others() == old(Others())
    {
      draft := ProjectRemoved(draft, id);
    }

    method AddCertification(freshId: string)
      modifies this
      ensures draft == CertificationAdded(old(draft), freshId)
      ensures Others() == old(Others())
    {
      draft := CertificationAdded(draft, freshId);
    }

    method UpdateCertification(id: string, f: Records.CertificationField, v: string)
      modifies this
      ensures draft == CertificationUpdated(old(draft), id, f, v)
      ensures Others() == old(Others())
    {
      draft := CertificationUpdated(draft, id, f, v);
    }

    method RemoveCertification(id: string)
      modifies this
      ensures draft == CertificationRemoved(old(draft), id)
      ensures Others() == old(Others())
    {
      draft := CertificationRemoved(draft, id);
    }

    method AddReference(freshId: string)
      modifies this
      ensures draft == ReferenceAdded(old(draft), freshId)
      ensures Others() == old(Others())
    {
      draft := ReferenceAdded(draft, freshId);
    }

    method UpdateReference(id: string, f: Records.ReferenceField, v: string)
      modifies this
      ensures draft == ReferenceUpdated(old(draft), id, f, v)
      ensures Others() == old(Others())
    {
      draft := ReferenceUpdated(draft, id, f, v);
    }

    method RemoveReference(id: string)
      modifies this
      ensures draft == ReferenceRemoved(old(draft), id)
      ensures Others() == old(Others())
    {
      draft := ReferenceRemoved(draft, id);
    }

    /** The summary's AI button: the returned text replaces the summary. */
    method EnhanceSummary(enhanced: string)
      modifies this
      ensures draft == SetDraft(old(draft), Summary, enhanced)
      ensures Others() == old(Others())
    {
      draft := SetDraft(draft, Summary, enhanced);
    }

    /** `aiEnhanceExp` with the service's answer: a no-op unless the guard
        holds; otherwise the description of the entries with that id. */
    method AiEnhanceExperience(id: string, enhanced: string)
      modifies this
      ensures CanEnhance(old(draft), id) ==> draft == ExperienceUpdated(old(draft), id, Records.ExperienceField.Description, enhanced)
      ensures !CanEnhance(old(draft), id) ==> draft == old(draft)
      ensures Others() == old(Others())
    {
      if CanEnhance(draft, id) {
        draft := ExperienceUpdated(draft, id, Records.ExperienceField.Description, enhanced);
      }
    }

    /** `runATSAnalysis` with the service's answer: a no-op without a job
        description; otherwise the score is attached to the draft. */
    method RunAtsAnalysis(result: AtsScore)
      modifies this
      ensures CanAnalyse(old(draft)) ==> draft == old(draft).(atsScore := Some(result))
      ensures !CanAnalyse(old(draft)) ==> draft == old(draft)
      ensures Others() == old(Others())
    {
      if CanAnalyse(draft) {
        draft := draft.(atsScore := Some(result));
      }
    }
  }
}
