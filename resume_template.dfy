/** The resume preview (components/ResumeTemplate.tsx) as an abstract
    document: a name block, a contact header, and a list of sections whose
    entries are lines, inline runs with separators, bullet lists or chips. */
module ResumeTemplate {
  import opened ResumeTypes
  import opened Seqs
  import opened Text

  // ---------------------------------------------------------------- bullets

  predicate IsBulletGlyph(c: char)
  {
    c == '•' || c == '-' || c == '*'
  }

  /** `line.replace(/^[•\-\*]\s*\/, '')`: one leading glyph and the white
      space right after it are removed; any other line is kept verbatim. */
  function StripBullet(line: string): (r: string)
    ensures |r| <= |line| && r == line[|line| - |r|..]
    ensures (line == [] || !IsBulletGlyph(line[0])) ==> r == line
    ensures line != [] && IsBulletGlyph(line[0]) ==>
              |r| < |line|
              && (forall i :: 1 <= i < |line| - |r| ==> IsSpace(line[i]))
              && (r == [] || !IsSpace(r[0]))
  {
    if line != [] && IsBulletGlyph(line[0]) then TrimStart(line[1..]) else line
  }

  /** `line => line.trim()` used as a filter condition. */
  predicate NonBlankLine(line: string)
  {
    Trim(line) != []
  }

  /** The list items of `renderBullets`: split at line feeds, blank lines
      dropped, one bullet glyph stripped from each remaining line. */
  function BulletItems(text: string): seq<string>
  {
    MapSeq(StripBullet, Filter(NonBlankLine, Split(text, '\n')))
  }

  /** `renderBullets(text)`: nothing at all for the empty string, otherwise a
      list (possibly empty, when every line is blank). */
  function RenderBullets(text: string): (r: Option<seq<string>>)
    ensures r.None? <==> text == []
    ensures r.Some? ==> |r.value| <= CountChar(text, '\n') + 1
  {
    if text == [] then None else Some(BulletItems(text))
  }

  /** Every non-blank line contributes its stripped form as an item. */
  lemma BulletItemOfLine(text: string, line: string)
    requires line in Split(text, '\n') && !IsBlank(line)
    ensures StripBullet(line) in BulletItems(text)
  {
    TrimEmptyIffBlank(line);
    var kept := Filter(NonBlankLine, Split(text, '\n'));
    assert line in kept;
    var i :| 0 <= i < |kept| && kept[i] == line;
    assert MapSeq(StripBullet, kept)[i] == StripBullet(line);
  }

  /** Every item is the stripped form of a non-blank line. */
  lemma BulletItemHasLine(text: string, x: string)
    requires x in BulletItems(text)
    ensures exists line :: line in Split(text, '\n') && !IsBlank(line) && StripBullet(line) == x
  {
    var kept := Filter(NonBlankLine, Split(text, '\n'));
    var i :| 0 <= i < |kept| && MapSeq(StripBullet, kept)[i] == x;
    assert kept[i] in kept;
    TrimEmptyIffBlank(kept[i]);
  }

  /** Items keep the order of their lines: the items of two texts joined by a
      line feed are the items of the first followed by those of the second. */
  lemma BulletItemsConcat(a: string, b: string)
    ensures BulletItems(a + "\n" + b) == BulletItems(a) + BulletItems(b)
  {
    SplitConcat(a, b, '\n');
    FilterAppend(NonBlankLine, Split(a, '\n'), Split(b, '\n'));
    MapAppend(StripBullet, Filter(NonBlankLine, Split(a, '\n')), Filter(NonBlankLine, Split(b, '\n')));
  }

  /** A single line yields nothing when blank and its stripped self otherwise. */
  lemma BulletItemsOfLine(line: string)
    requires '\n' !in line
    ensures BulletItems(line) == if IsBlank(line) then [] else [StripBullet(line)]
  {
    SplitSingle(line, '\n');
    TrimEmptyIffBlank(line);
    assert Filter(NonBlankLine, [line]) == if NonBlankLine(line) then [line] else [];
  }

  /** A line with content that starts with neither white space nor a glyph. */
  predicate PlainLine(line: string)
  {
    '\n' !in line && line != [] && !IsSpace(line[0]) && !IsBulletGlyph(line[0])
  }

  /** A plain line is its own single item. */
  lemma PlainLineItems(line: string)
    requires PlainLine(line)
    ensures BulletItems(line) == [line]
  {
    BulletItemsOfLine(line);
  }

  // ---------------------------------------------------------------- header

  datatype HeaderPiece = Item(text: string) | Separator | LineBreak

  predicate NonEmpty(s: string)
  {
    s != []
  }

  /** `[email, phone, location, linkedin].filter(Boolean)`. */
  function HeaderInfo(d: ResumeData): (info: seq<string>)
    ensures |info| <= 4
    ensures forall x :: x in info ==> x != []
  {
    Filter(NonEmpty, [d.email, d.phone, d.location, d.linkedin])
  }

  /** The header lists the non-empty contact fields, each in its fixed place. */
  lemma HeaderInfoOrder(d: ResumeData)
    ensures HeaderInfo(d) ==
              (if d.email != [] then [d.email] else [])
              + (if d.phone != [] then [d.phone] else [])
              + (if d.location != [] then [d.location] else [])
              + (if d.linkedin != [] then [d.linkedin] else [])
  {
    var e, p, l, k := [d.email], [d.phone], [d.location], [d.linkedin];
    assert HeaderInfo(d) == Filter(NonEmpty, e) + Filter(NonEmpty, p) + Filter(NonEmpty, l) + Filter(NonEmpty, k) by {
      assert [d.email, d.phone, d.location, d.linkedin] == e + p + l + k;
      FilterAppend(NonEmpty, e + p + l, k);
      FilterAppend(NonEmpty, e + p, l);
      FilterAppend(NonEmpty, e, p);
    }
    FilterSingleton(NonEmpty, d.email);
    FilterSingleton(NonEmpty, d.phone);
    FilterSingleton(NonEmpty, d.location);
    FilterSingleton(NonEmpty, d.linkedin);
  }

  /** `info.map((item, idx) => item, then '|' when idx < info.length - 1)`. */
  function Interleave(info: seq<string>): (pieces: seq<HeaderPiece>)
    ensures |info| == 0 ==> pieces == []
    ensures |info| > 0 ==> |pieces| == 2 * |info| - 1
    decreases |info|
  {
    if |info| == 0 then []
    else if |info| == 1 then [Item(info[0])]
    else [Item(info[0]), Separator] + Interleave(info[1..])
  }

  /** Item `i` sits at position `2 * i`, followed by a separator unless it
      is the last one. */
  lemma {:induction false} InterleaveAt(info: seq<string>, i: nat)
    requires i < |info|
    ensures Interleave(info)[2 * i] == Item(info[i])
    ensures i < |info| - 1 ==> Interleave(info)[2 * i + 1] == Separator
    decreases i
  {
    if i > 0 {
      InterleaveAt(info[1..], i - 1);
      assert Interleave(info) == [Item(info[0]), Separator] + Interleave(info[1..]);
    }
  }

  function SeparatorCount(pieces: seq<HeaderPiece>): nat
    decreases |pieces|
  {
    if pieces == [] then 0
    else (if pieces[0] == Separator then 1 else 0) + SeparatorCount(pieces[1..])
  }

  /** The texts of the items, separators dropped. */
  function ItemTexts(pieces: seq<HeaderPiece>): seq<string>
    decreases |pieces|
  {
    if pieces == [] then []
    else (if pieces[0].Item? then [pieces[0].text] else []) + ItemTexts(pieces[1..])
  }

  /** `n` items are shown with exactly `n - 1` separators, and dropping the
      separators gives the items back in order. */
  lemma {:induction false} InterleaveSeparators(info: seq<string>)
    ensures SeparatorCount(Interleave(info)) == if |info| == 0 then 0 else |info| - 1
    ensures ItemTexts(Interleave(info)) == info
    decreases |info|
  {
    if |info| > 1 {
      var p := Interleave(info);
      InterleaveSeparators(info[1..]);
      assert p[1..] == [Separator] + Interleave(info[1..]);
      assert p[1..][1..] == Interleave(info[1..]);
    }
  }

  // ---------------------------------------------------------------- document

  datatype SectionKind =
    | SummarySection | ContactSection | SkillsSection | ExperienceSection
    | EducationSection | ProjectsSection | CertificationsSection | ReferencesSection

  /** Visible content: a text line, an inline run with separators, the list of
      `renderBullets`, or skill chips. */
  datatype Block = Line(text: string) | Pieces(pieces: seq<HeaderPiece>) | Bullets(items: seq<string>) | Chips(chips: seq<string>)

  /** A headed section; one entry (a list of blocks) per record it shows. */
  datatype Section = Section(kind: SectionKind, entries: seq<seq<Block>>)

  datatype Document = Document(layout: TemplateKind, nameLines: seq<string>, header: seq<HeaderPiece>, sections: seq<Section>)

  function KindOf(s: Section): SectionKind { s.kind }

  /** The entries of a list section: one per record, in the records' order,
      each drawn by `draw`. */
  predicate OneEntryEach<T>(entries: seq<seq<Block>>, records: seq<T>, draw: T -> seq<Block>)
  {
    |entries| == |records| && forall i :: 0 <= i < |records| ==> entries[i] == draw(records[i])
  }

  function Kinds(doc: Document): seq<SectionKind>
  {
    MapSeq(KindOf, doc.sections)
  }

  /** `value || fallback` on strings. */
  function OrText(s: string, fallback: string): (r: string)
    ensures s != [] ==> r == s
    ensures s == [] ==> r == fallback
    ensures r != [] <==> s != [] || fallback != []
  {
    if s != [] then s else fallback
  }

  /** `renderBullets(text)` placed in an entry: absent for empty text. */
  function BulletBlocks(text: string): seq<Block>
  {
    match RenderBullets(text)
    case None => []
    case Some(items) => [Bullets(items)]
  }

  /** `{cond && <p>line</p>}`. */
  function LineIf(cond: bool, text: string): seq<Block>
  {
    if cond then [Line(text)] else []
  }

  // ---------------------------------------------------------------- Standard

  /** Standard's sections in page order. */
  const StandardOrder: seq<SectionKind> :=
    [SummarySection, EducationSection, ExperienceSection, ProjectsSection,
     CertificationsSection, SkillsSection, ReferencesSection]

  /** The `{cond && <section>}` guard of each Standard section. */
  predicate StandardShows(d: ResumeData, k: SectionKind)
  {
    match k
    case SummarySection => d.summary != []
    case EducationSection => |d.education| > 0
    case ExperienceSection => |d.experiences| > 0
    case ProjectsSection => |d.projects| > 0
    case CertificationsSection => |d.certifications| > 0
    case SkillsSection => d.skills != [] || d.languages != []
    case ReferencesSection => |d.references| > 0
    case ContactSection => false
  }

  /** The sections Standard shows: those whose guard holds, in page order. */
  function StandardKinds(d: ResumeData): seq<SectionKind>
  {
    Filter((k: SectionKind) => StandardShows(d, k), StandardOrder)
  }

  /** Standard's grade line: the GPA part, the honours part, and a separator
      only between the two. */
  function EducationDetail(edu: Education): (r: Option<seq<HeaderPiece>>)
    ensures r.Some? <==> Truthy(edu.gpa) || Truthy(edu.grades)
    ensures r.Some? ==> (Separator in r.value <==> Truthy(edu.gpa) && Truthy(edu.grades))
    ensures r.Some? ==> |r.value| == if Truthy(edu.gpa) && Truthy(edu.grades) then 3 else 1
  {
    if !Truthy(edu.gpa) && !Truthy(edu.grades) then None
    else Some(
      (if Truthy(edu.gpa) then [Item("Academic Performance: Grade Point Average " + edu.gpa.value)] else [])
      + (if Truthy(edu.gpa) && Truthy(edu.grades) then [Separator] else [])
      + (if Truthy(edu.grades) then [Item("Examination Honors Result: " + edu.grades.value)] else []))
  }

  function StandardEducation(edu: Education): seq<Block>
  {
    [Line(edu.school), Line(edu.location), Line(edu.degree), Line(edu.gradDate)]
    + (match EducationDetail(edu) case None => [] case Some(p) => [Pieces(p)])
  }

  function StandardExperience(exp: Experience): seq<Block>
  {
    [Line(exp.company), Line(exp.location), Line(exp.position), Line(exp.startDate + " – " + exp.endDate)]
    + BulletBlocks(exp.description)
  }

  function StandardProject(proj: Project): seq<Block>
  {
    [Line(proj.title), Line(proj.date)] + LineIf(Truthy(proj.link), OrEmpty(proj.link)) + BulletBlocks(proj.description)
  }

  function StandardCertification(cert: Certification): seq<Block>
  {
    [Line(cert.name + " — " + cert.issuer), Line(cert.date)]
  }

  function StandardReference(ref: Reference): seq<Block>
  {
    [Line(ref.name), Line(ref.position + ", " + ref.organization)]
    + LineIf(ref.email != [], "Electronic Mail: " + ref.email)
    + LineIf(ref.phone != [], "Telephone Number: " + ref.phone)
  }

  /** One Standard section; the entries follow the records one for one. */
  function StandardSection(d: ResumeData, k: SectionKind): (s: Section)
    ensures s.kind == k
    ensures k == SummarySection ==> s.entries == [[Line(d.summary)]]
    ensures k == EducationSection ==> OneEntryEach(s.entries, d.education, StandardEducation)
    ensures k == ExperienceSection ==> OneEntryEach(s.entries, d.experiences, StandardExperience)
    ensures k == ProjectsSection ==> OneEntryEach(s.entries, d.projects, StandardProject)
    ensures k == CertificationsSection ==> OneEntryEach(s.entries, d.certifications, StandardCertification)
    ensures k == ReferencesSection ==> OneEntryEach(s.entries, d.references, StandardReference)
    ensures k == SkillsSection ==>
              |s.entries| == 1
              && |s.entries[0]| == (if d.skills != [] then 1 else 0) + (if d.languages != [] then 1 else 0)
              && (d.skills != [] ==> s.entries[0][0] == Line("Core Competencies: " + d.skills))
              && (d.languages != [] ==> s.entries[0][|s.entries[0]| - 1] == Line("Languages Spoken: " + d.languages))
  {
    match k
    case SummarySection => Section(k, [[Line(d.summary)]])
    case EducationSection => Section(k, MapSeq(StandardEducation, d.education))
    case ExperienceSection => Section(k, MapSeq(StandardExperience, d.experiences))
    case ProjectsSection => Section(k, MapSeq(StandardProject, d.projects))
    case CertificationsSection => Section(k, MapSeq(StandardCertification, d.certifications))
    case SkillsSection =>
      Section(k, [LineIf(d.skills != [], "Core Competencies: " + d.skills)
                  + LineIf(d.languages != [], "Languages Spoken: " + d.languages)])
    case ReferencesSection => Section(k, MapSeq(StandardReference, d.references))
    case ContactSection => Section(k, [])
  }

  function StandardLayout(d: ResumeData): Document
  {
    Document(Standard,
             [OrText(d.fullName, "Your Full Identification Name")],
             Interleave(HeaderInfo(d)),
             MapSeq((k: SectionKind) => StandardSection(d, k), StandardKinds(d)))
  }

  /** The layout's sections are the chosen kinds, one section each. */
  lemma StandardSectionsFollowKinds(d: ResumeData)
    ensures Kinds(StandardLayout(d)) == StandardKinds(d)
  {
    var ks := StandardKinds(d);
    var secs := StandardLayout(d).sections;
    forall i | 0 <= i < |ks| ensures MapSeq(KindOf, secs)[i] == ks[i] {
      assert secs[i] == StandardSection(d, ks[i]);
    }
  }

  /** Standard shows a section exactly when its guard holds: the summary,
      education, experience, projects, certifications and references sections
      when their text or list is non-empty, the skills section when skills or
      languages is non-empty, and never a separate contact section. */
  lemma StandardSectionPresence(d: ResumeData)
    ensures forall k :: k in Kinds(StandardLayout(d)) <==> StandardShows(d, k)
  {
    StandardSectionsFollowKinds(d);
    forall k ensures k in StandardKinds(d) <==> StandardShows(d, k) {
      assert k != ContactSection ==> k in StandardOrder;
    }
  }

  // ---------------------------------------------------------------- chips and names

  /** `skills.split(',').map(s => s.trim())`: one chip per comma-separated
      piece, with no comma inside and no white space at either end. */
  function SkillChips(skills: string): (chips: seq<string>)
    ensures |chips| == CountChar(skills, ',') + 1
    ensures forall i :: 0 <= i < |chips| ==> chips[i] == Trim(Split(skills, ',')[i])
    ensures forall i :: 0 <= i < |chips| ==>
              ',' !in chips[i] && (chips[i] == [] || (!IsSpace(chips[i][0]) && !IsSpace(chips[i][|chips[i]| - 1])))
  {
    var pieces := Split(skills, ',');
    var chips := MapSeq(Trim, pieces);
    assert forall i :: 0 <= i < |chips| ==>
             ',' !in chips[i] && (chips[i] == [] || (!IsSpace(chips[i][0]) && !IsSpace(chips[i][|chips[i]| - 1]))) by {
      forall i | 0 <= i < |chips| {
        TrimShape(pieces[i]);
      }
    }
    chips
  }

  /** Creative's two name lines: the text before the first space, and the
      remaining space-separated words joined again by single spaces. */
  function CreativeNameLines(fullName: string): (lines: seq<string>)
    ensures |lines| == 2 && ' ' !in lines[0]
    ensures ' ' in fullName ==> fullName == lines[0] + " " + lines[1]
    ensures ' ' !in fullName ==> lines == [fullName, ""]
  {
    var words := Split(fullName, ' ');
    JoinSplit(fullName, ' ');
    assert ' ' !in fullName ==> words == [fullName] by {
      if ' ' !in fullName { SplitSingle(fullName, ' '); }
    }
    [words[0], Join(words[1..], ' ')]
  }

  // ---------------------------------------------------------------- Technology

  /** Technology's sections in page order, printed whatever the draft holds. */
  const TechnologyOrder: seq<SectionKind> :=
    [SkillsSection, ExperienceSection, EducationSection, CertificationsSection, ReferencesSection]

  function TechnologySection(d: ResumeData, k: SectionKind): (s: Section)
    ensures s.kind == k
    ensures k == SkillsSection ==>
              |s.entries| == 1 && |s.entries[0]| == 1 + (if d.languages != [] then 1 else 0)
              && s.entries[0][0] == Chips(SkillChips(d.skills))
              && (Line("Languages: " + d.languages) in s.entries[0] <==> d.languages != [])
    ensures k == ExperienceSection ==> OneEntryEach(s.entries, d.experiences, TechnologyExperience)
    ensures k == EducationSection ==> OneEntryEach(s.entries, d.education, TechnologyEducation)
    ensures k == CertificationsSection ==> OneEntryEach(s.entries, d.certifications, TechnologyCertification)
    ensures k == ReferencesSection ==> OneEntryEach(s.entries, d.references, TechnologyReference)
  {
    match k
    case SkillsSection => Section(k, [[Chips(SkillChips(d.skills))] + LineIf(d.languages != [], "Languages: " + d.languages)])
    case ExperienceSection => Section(k, MapSeq(TechnologyExperience, d.experiences))
    case EducationSection => Section(k, MapSeq(TechnologyEducation, d.education))
    case CertificationsSection => Section(k, MapSeq(TechnologyCertification, d.certifications))
    case ReferencesSection => Section(k, MapSeq(TechnologyReference, d.references))
    case _ => Section(k, [])
  }

  function TechnologyLayout(d: ResumeData): Document
  {
    Document(Technology,
             [OrText(d.fullName, "Your Full Legal Name")],
             Interleave(HeaderInfo(d)),
             MapSeq((k: SectionKind) => TechnologySection(d, k), TechnologyOrder))
  }

  function TechnologyExperience(exp: Experience): seq<Block>
  {
    [Line(exp.position), Line(exp.startDate + " - " + exp.endDate), Line(exp.company)] + BulletBlocks(exp.description)
  }

  function TechnologyEducation(edu: Education): seq<Block>
  {
    [Line(edu.school), Line(edu.gradDate), Line(edu.degree),
     Line("Grade Point Average: " + OrText(OrEmpty(edu.gpa), "Not Specified")
          + " | Honors: " + OrText(OrEmpty(edu.grades), "None"))]
  }

  function TechnologyCertification(cert: Certification): seq<Block>
  {
    [Line(cert.name), Line(cert.issuer + " | " + cert.date)]
  }

  function TechnologyReference(ref: Reference): seq<Block>
  {
    [Line(ref.name), Line(ref.position + " at " + ref.organization), Line(ref.phone)]
  }

  // ---------------------------------------------------------------- Business

  /** Business's sections in page order, printed whatever the draft holds. */
  const BusinessOrder: seq<SectionKind> :=
    [ExperienceSection, EducationSection, SkillsSection, CertificationsSection, ReferencesSection]

  function BusinessSection(d: ResumeData, k: SectionKind): (s: Section)
    ensures s.kind == k
    ensures k == SkillsSection ==>
              s.entries == [[Line("Professional Skills: " + d.skills), Line("Languages Spoken: " + d.languages)]]
    ensures k == ExperienceSection ==> OneEntryEach(s.entries, d.experiences, BusinessExperience)
    ensures k == EducationSection ==> OneEntryEach(s.entries, d.education, BusinessEducation)
    ensures k == CertificationsSection ==> OneEntryEach(s.entries, d.certifications, BusinessCertification)
    ensures k == ReferencesSection ==> OneEntryEach(s.entries, d.references, BusinessReference)
  {
    match k
    case ExperienceSection => Section(k, MapSeq(BusinessExperience, d.experiences))
    case EducationSection => Section(k, MapSeq(BusinessEducation, d.education))
    case SkillsSection => Section(k, [[Line("Professional Skills: " + d.skills), Line("Languages Spoken: " + d.languages)]])
    case CertificationsSection => Section(k, MapSeq(BusinessCertification, d.certifications))
    case ReferencesSection => Section(k, MapSeq(BusinessReference, d.references))
    case _ => Section(k, [])
  }

  /** The Business header always prints all four contact fields, with two
      separators and a line break, whether they are empty or not. */
  function BusinessLayout(d: ResumeData): Document
  {
    Document(Business,
             [OrText(d.fullName, "Your Full Name")],
             [Item(d.email), Separator, Item(d.phone), Separator, Item(d.location), LineBreak, Item(d.linkedin)],
             MapSeq((k: SectionKind) => BusinessSection(d, k), BusinessOrder))
  }

  function BusinessExperience(exp: Experience): seq<Block>
  {
    [Line(exp.company), Line(exp.location), Line(exp.position), Line(exp.startDate + " - " + exp.endDate)]
    + BulletBlocks(exp.description)
  }

  function BusinessEducation(edu: Education): seq<Block>
  {
    [Line(edu.school), Line(edu.gradDate), Line(edu.degree),
     Line("Grade Point Average: " + OrText(OrEmpty(edu.gpa), "Not Specified"))]
    + LineIf(Truthy(edu.grades), "Examination Result Honors: " + OrEmpty(edu.grades))
  }

  function BusinessCertification(cert: Certification): seq<Block>
  {
    [Line(cert.name), Line(cert.issuer + " (" + cert.date + ")")]
  }

  function BusinessReference(ref: Reference): seq<Block>
  {
    [Line(ref.name), Line(ref.position + " at " + ref.organization),
     Line("Contact Method: " + OrText(ref.phone, ref.email))]
  }

  // ---------------------------------------------------------------- Creative

  /** Creative's sections: the sidebar (summary, contact, skills,
      references), then the main column; printed whatever the draft holds. */
  const CreativeOrder: seq<SectionKind> :=
    [SummarySection, ContactSection, SkillsSection, ReferencesSection,
     ExperienceSection, EducationSection, CertificationsSection, ProjectsSection]

  function CreativeSection(d: ResumeData, k: SectionKind): (s: Section)
    ensures s.kind == k
    ensures k == SummarySection ==> s.entries == [[Line(d.summary)]]
    ensures k == ContactSection ==> s.entries == [[Line(d.email)], [Line(d.phone)], [Line(d.location)], [Line(d.linkedin)]]
    ensures k == SkillsSection ==> s.entries == [[Chips(SkillChips(d.skills))]]
    ensures k == ReferencesSection ==> OneEntryEach(s.entries, d.references, CreativeReference)
    ensures k == ExperienceSection ==> OneEntryEach(s.entries, d.experiences, CreativeExperience)
    ensures k == EducationSection ==> OneEntryEach(s.entries, d.education, CreativeEducation)
    ensures k == CertificationsSection ==> OneEntryEach(s.entries, d.certifications, CreativeCertification)
    ensures k == ProjectsSection ==> OneEntryEach(s.entries, d.projects, CreativeProject)
  {
    match k
    case SummarySection => Section(k, [[Line(d.summary)]])
    case ContactSection => Section(k, [[Line(d.email)], [Line(d.phone)], [Line(d.location)], [Line(d.linkedin)]])
    case SkillsSection => Section(k, [[Chips(SkillChips(d.skills))]])
    case ReferencesSection => Section(k, MapSeq(CreativeReference, d.references))
    case ExperienceSection => Section(k, MapSeq(CreativeExperience, d.experiences))
    case EducationSection => Section(k, MapSeq(CreativeEducation, d.education))
    case CertificationsSection => Section(k, MapSeq(CreativeCertification, d.certifications))
    case ProjectsSection => Section(k, MapSeq(CreativeProject, d.projects))
  }

  function CreativeLayout(d: ResumeData): Document
  {
    Document(Creative,
             CreativeNameLines(d.fullName),
             [],
             MapSeq((k: SectionKind) => CreativeSection(d, k), CreativeOrder))
  }

  function CreativeReference(ref: Reference): seq<Block>
  {
    [Line(ref.name), Line(ref.organization), Line(ref.phone), Line(ref.email)]
  }

  function CreativeExperience(exp: Experience): seq<Block>
  {
    [Line(exp.position), Line(exp.startDate + " – " + exp.endDate), Line(exp.company)] + BulletBlocks(exp.description)
  }

  function CreativeEducation(edu: Education): seq<Block>
  {
    [Line(edu.school), Line(edu.degree), Line(edu.gradDate),
     Line("Performance: Grade Point Average " + OrEmpty(edu.gpa) + " | Honors: " + OrEmpty(edu.grades))]
  }

  function CreativeCertification(cert: Certification): seq<Block>
  {
    [Line(cert.name), Line(cert.issuer), Line(cert.date)]
  }

  /** Creative prints a project's description as one paragraph, not as bullets. */
  function CreativeProject(proj: Project): seq<Block>
  {
    [Line(proj.title), Line(proj.date), Line(proj.description)]
  }

  // ---------------------------------------------------------------- selection

  /** `templates[data.template] || templates.Standard`: the layout stored
      under that name, and Standard for any other string. */
  function SelectTemplate(name: string): (k: TemplateKind)
    ensures TemplateName(k) == name || (k == Standard && forall j :: TemplateName(j) != name)
  {
    if name == "Technology" then Technology
    else if name == "Business" then Business
    else if name == "Creative" then Creative
    else Standard
  }

  /** The preview of a draft: the selected layout applied to it. */
  function Render(d: ResumeData): (doc: Document)
    ensures doc.layout == SelectTemplate(d.template)
    ensures doc.layout != Creative ==> |doc.nameLines| == 1 && (d.fullName != [] ==> doc.nameLines == [d.fullName])
    ensures doc.layout == Standard && d.fullName == [] ==> doc.nameLines == ["Your Full Identification Name"]
    ensures doc.layout == Technology && d.fullName == [] ==> doc.nameLines == ["Your Full Legal Name"]
    ensures doc.layout == Business && d.fullName == [] ==> doc.nameLines == ["Your Full Name"]
    ensures doc.layout == Creative ==> doc.nameLines == CreativeNameLines(d.fullName)
    ensures doc.layout == Standard || doc.layout == Technology ==> doc.header == Interleave(HeaderInfo(d))
    ensures doc.layout == Business ==>
              doc.header == [Item(d.email), Separator, Item(d.phone), Separator, Item(d.location), LineBreak, Item(d.linkedin)]
    ensures doc.layout == Creative ==> doc.header == []
    ensures doc.layout == Standard ==> forall s :: s in doc.sections ==> s == StandardSection(d, s.kind)
    ensures doc.layout == Technology ==> forall s :: s in doc.sections ==> s == TechnologySection(d, s.kind)
    ensures doc.layout == Business ==> forall s :: s in doc.sections ==> s == BusinessSection(d, s.kind)
    ensures doc.layout == Creative ==> forall s :: s in doc.sections ==> s == CreativeSection(d, s.kind)
  {
    match SelectTemplate(d.template)
    case Standard => StandardLayout(d)
    case Technology => TechnologyLayout(d)
    case Business => BusinessLayout(d)
    case Creative => CreativeLayout(d)
  }

  /** A draft with no content at all gets no section from Standard. */
  lemma StandardBlankHasNoSections(d: ResumeData)
    requires d.summary == [] && d.skills == [] && d.languages == []
    requires d.experiences == [] && d.education == [] && d.projects == []
    requires d.certifications == [] && d.references == []
    ensures Kinds(StandardLayout(d)) == []
  {
    StandardSectionsFollowKinds(d);
    FilterNone((k: SectionKind) => StandardShows(d, k), StandardOrder);
  }

  /** Sections built one per kind, each carrying its kind, follow the order
      of the kinds. */
  lemma SectionsFollowOrder(f: SectionKind -> Section, order: seq<SectionKind>)
    requires forall k :: f(k).kind == k
    ensures MapSeq(KindOf, MapSeq(f, order)) == order
  {
    var secs := MapSeq(f, order);
    forall i | 0 <= i < |order| ensures MapSeq(KindOf, secs)[i] == order[i] {
      assert secs[i] == f(order[i]);
    }
  }

  /** Technology shows each of its headings whatever the draft holds. */
  lemma TechnologyKeepsHeadings(d: ResumeData)
    ensures Kinds(TechnologyLayout(d)) == TechnologyOrder
  {
    SectionsFollowOrder((k: SectionKind) => TechnologySection(d, k), TechnologyOrder);
  }

  /** Business shows each of its headings whatever the draft holds. */
  lemma BusinessKeepsHeadings(d: ResumeData)
    ensures Kinds(BusinessLayout(d)) == BusinessOrder
  {
    SectionsFollowOrder((k: SectionKind) => BusinessSection(d, k), BusinessOrder);
  }

  /** Creative shows each of its headings whatever the draft holds. */
  lemma CreativeKeepsHeadings(d: ResumeData)
    ensures Kinds(CreativeLayout(d)) == CreativeOrder
  {
    SectionsFollowOrder((k: SectionKind) => CreativeSection(d, k), CreativeOrder);
  }

  /** The preview follows the selected layout's rule for sections: Standard
      leaves out each section whose guard fails, the other three print their
      fixed headings whatever the draft holds. */
  lemma RenderSections(d: ResumeData)
    ensures SelectTemplate(d.template) == Standard ==> forall k :: k in Kinds(Render(d)) <==> StandardShows(d, k)
    ensures SelectTemplate(d.template) == Technology ==> Kinds(Render(d)) == TechnologyOrder
    ensures SelectTemplate(d.template) == Business ==> Kinds(Render(d)) == BusinessOrder
    ensures SelectTemplate(d.template) == Creative ==> Kinds(Render(d)) == CreativeOrder
  {
    match SelectTemplate(d.template)
    case Standard => StandardSectionPresence(d);
    case Technology => TechnologyKeepsHeadings(d);
    case Business => BusinessKeepsHeadings(d);
    case Creative => CreativeKeepsHeadings(d);
  }
}
