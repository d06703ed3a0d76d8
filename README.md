# Resume editor: editor state, template shaping, administrator search

This project models the logic underneath a browser resume editor. The model
is in Dafny, and the properties below are proved about it.

- **The editor** (`App.tsx`). It holds a draft resume and a list of
  submitted resumes, and it keeps both in browser storage. The model is the
  class `App.Editor`, which has one method per handler:
  - setting a text field;
  - adding, updating and removing experience, education, project,
    certification and reference entries;
  - submitting, with an upsert by id;
  - deleting, starting a new resume, loading a submission;
  - the autosave and mount-time restore effects;
  - the three AI actions (summary, experience description, ATS analysis),
    whose answers are parameters.

  The pure `{ ...prev, ... }` updaters each handler applies are modelled as
  functions on `ResumeData`.
- **The preview** (`components/ResumeTemplate.tsx`). It is modelled as an
  abstract document, not HTML: headed sections of entries made of lines,
  separated runs, bullet lists and chips. The module `ResumeTemplate`
  covers:
  - bullet rendering of descriptions;
  - the contact header with its `|` separators;
  - the four layouts, with Standard's section-omission guards;
  - the comma-split skill chips;
  - Creative's two-line name;
  - the layout selection with its fall-back to Standard.
- **The administrator dashboard** (`components/AdminDashboard.tsx`). The
  module `AdminDashboard` covers the case-insensitive search over name and
  e-mail, the table rows with their placeholder labels, and the empty state.

The supporting modules are:
- `Seqs`: `filter`, `map`, `findIndex`, removal and update by key;
- `Text`: `trim`, `\s` and one-character `split`/`join` with JavaScript's
  semantics, such as `"".split(c)` being `[""]`;
- `ResumeTypes`: the records of `types.ts`, with optional properties as
  `Option`;
- `Records`: the per-record field lenses and the empty entries the "add"
  buttons create.

Only the Standard layout guards its sections, printing each one only when
its text or list is non-empty (components/ResumeTemplate.tsx:54-157).
Technology, Business and Creative always print their headings
(components/ResumeTemplate.tsx:168-229, 246-307, 317-409), even for an empty
draft. `ResumeTemplate.StandardSectionPresence` proves the first rule;
`ResumeTemplate.TechnologyKeepsHeadings`, `ResumeTemplate.BusinessKeepsHeadings`
and `ResumeTemplate.CreativeKeepsHeadings` prove the fixed heading lists; and
`ResumeTemplate.RenderSections` carries both rules through to the preview.

## Model

| member | source | states |
|---|---|---|
| Seqs.Filter | components/ResumeTemplate.tsx:11-16 | `filter` keeps exactly the elements satisfying the condition and never lengthens the list |
| Seqs.FilterAppend | components/AdminDashboard.tsx:15-18 | filtering distributes over concatenation, so relative order is preserved |
| Seqs.FilterKeepsAll | components/AdminDashboard.tsx:15-18 | when every element passes, `filter` returns the list unchanged |
| Seqs.FilterAgree | components/AdminDashboard.tsx:15-18 | two conditions that agree on every element filter alike |
| Seqs.MapSeq | components/ResumeTemplate.tsx:34 | `map` keeps the length and applies the function at every position |
| Seqs.FirstIndex | App.tsx:97 | `findIndex` returns -1 exactly when no element has the key, otherwise the first index with the key |
| Seqs.Without | App.tsx:134 | removal by key keeps exactly the elements whose key differs |
| Seqs.WithoutAppend | App.tsx:134 | removal keeps the survivors in their original relative order |
| Seqs.WithoutAbsent | App.tsx:134 | removing a key no element carries changes nothing |
| Seqs.WithoutAfterAppend | App.tsx:149-152 | removing the key of an element just appended under a fresh key gives back the list |
| Seqs.WithoutKeepsUnique | App.tsx:132-138 | removal never introduces a duplicate key |
| Seqs.UpdateWhere | App.tsx:155 | the `map` of an update rewrites every element with the key, keeps every other element and keeps the length |
| Seqs.UpdateWhereAbsent | App.tsx:155 | updating a key no element carries changes nothing |
| Seqs.UpdateWhereKeepsKeys | App.tsx:155 | an update that keeps ids keeps the id at every position, so unique ids stay unique |
| Seqs.CountKey | App.tsx:97-108 | the number of elements with a key is zero exactly when none has it |
| Seqs.CountKeyAppend | App.tsx:107 | counts add up over concatenation |
| Seqs.UniqueCountAtMostOne | App.tsx:97-108 | with unique keys every key occurs at most once |
| Seqs.AppendFreshKeepsUnique | App.tsx:107 | pushing an element with a new key keeps keys unique |
| Text.TrimStart | components/ResumeTemplate.tsx:34 | drops exactly the leading white space: what remains is a suffix that starts with a non-space |
| Text.TrimEnd | components/ResumeTemplate.tsx:34 | drops exactly the trailing white space |
| Text.TrimShape | components/ResumeTemplate.tsx:172 | a trimmed string keeps only characters of the original and has no white space at either end |
| Text.CountChar | components/ResumeTemplate.tsx:34 | the count of a character is zero exactly when it does not occur |
| Text.Split | components/ResumeTemplate.tsx:34 | `split` yields one piece more than there are separators, and no piece holds a separator |
| Text.JoinSplit | components/ResumeTemplate.tsx:34 | joining the pieces of a split restores the string |
| Text.SplitJoin | components/ResumeTemplate.tsx:34 | splitting a join of separator-free pieces restores the pieces |
| Text.SplitSingle | components/ResumeTemplate.tsx:34 | a separator-free string splits into itself |
| Text.SplitFirstPiece | components/ResumeTemplate.tsx:34 | a separator-free first piece is split off whole |
| Text.JoinAppend | components/ResumeTemplate.tsx:316 | `join` of a concatenation is the two joins around one separator |
| Text.SplitConcat | components/ResumeTemplate.tsx:34 | splitting at a separator splits the two sides independently |
| ResumeTemplate.StripBullet | components/ResumeTemplate.tsx:37 | the result is a suffix of the line; a line not starting with a glyph is unchanged; otherwise exactly one glyph and the white space after it are removed |
| ResumeTemplate.RenderBullets | components/ResumeTemplate.tsx:30-42 | nothing is rendered exactly for the empty text; there are never more items than lines |
| ResumeTemplate.BulletItems | components/ResumeTemplate.tsx:34-37 | the items of a description: its line-feed pieces, blank ones dropped, each with one leading glyph and the white space after it stripped |
| ResumeTemplate.BulletItemOfLine | components/ResumeTemplate.tsx:34-37 | every non-blank line contributes its stripped form as an item |
| ResumeTemplate.BulletItemHasLine | components/ResumeTemplate.tsx:34-37 | every item is the stripped form of some non-blank line |
| ResumeTemplate.BulletItemsConcat | components/ResumeTemplate.tsx:34 | items keep the order of their lines |
| ResumeTemplate.BulletItemsOfLine | components/ResumeTemplate.tsx:34-37 | a single line gives no item when blank, otherwise its stripped self |
| ResumeTemplate.PlainLineItems | components/ResumeTemplate.tsx:37 | a line starting with neither white space nor a glyph is kept verbatim |
| ResumeTemplate.HeaderInfo | components/ResumeTemplate.tsx:11-16 | at most four contact items, none of them empty |
| ResumeTemplate.HeaderInfoOrder | components/ResumeTemplate.tsx:11-16 | the header lists e-mail, phone, location and LinkedIn in that order, each only when non-empty |
| ResumeTemplate.Interleave | components/ResumeTemplate.tsx:20-25 | n items give 2n-1 pieces, and none for no items |
| ResumeTemplate.InterleaveAt | components/ResumeTemplate.tsx:20-25 | item i sits at position 2i and is followed by a separator unless it is the last |
| ResumeTemplate.InterleaveSeparators | components/ResumeTemplate.tsx:20-25 | n items carry exactly n-1 separators, and dropping the separators gives back the items |
| ResumeTemplate.OrText | components/ResumeTemplate.tsx:49 | the value when it is non-empty, otherwise the fallback; so the result is non-empty exactly when either one is |
| ResumeTemplate.EducationDetail | components/ResumeTemplate.tsx:74-78 | the grade line appears exactly when the GPA or the honours is present and non-empty, with a separator exactly when both are |
| ResumeTemplate.StandardShows | components/ResumeTemplate.tsx:54-141 | the guard of each Standard section: non-empty summary, non-empty list, or skills or languages non-empty |
| ResumeTemplate.StandardSection | components/ResumeTemplate.tsx:54-157 | each Standard section carries the requested kind; a list section has one entry per record, in order, drawn by that section's entry layout; the skills entry holds the competencies line exactly when skills is non-empty and the languages line exactly when languages is |
| ResumeTemplate.StandardLayout | components/ResumeTemplate.tsx:45-158 | the Standard page: the name or its fallback, the interleaved header, and the guarded sections in page order |
| ResumeTemplate.StandardSectionsFollowKinds | components/ResumeTemplate.tsx:45-158 | the Standard layout's sections are the guarded kinds in page order |
| ResumeTemplate.StandardSectionPresence | components/ResumeTemplate.tsx:54-157 | Standard shows a section exactly when its guard holds: non-empty summary or list, or skills or languages non-empty |
| ResumeTemplate.StandardBlankHasNoSections | components/ResumeTemplate.tsx:54-157 | a draft without content gets no Standard section |
| ResumeTemplate.TechnologySection | components/ResumeTemplate.tsx:168-229 | each Technology section carries the requested kind; the skills entry is the skill chips, followed by the languages line exactly when languages is non-empty; a list section has one entry per record, in order |
| ResumeTemplate.TechnologyLayout | components/ResumeTemplate.tsx:160-233 | the Technology page: the name or its fallback, the interleaved header, and its five sections |
| ResumeTemplate.TechnologyKeepsHeadings | components/ResumeTemplate.tsx:160-233 | Technology always shows skills, experience, education, certifications and references, in that order, whatever the draft holds |
| ResumeTemplate.BusinessSection | components/ResumeTemplate.tsx:246-307 | each Business section carries the requested kind; the skills entry always holds both the skills and the languages line; a list section has one entry per record, in order |
| ResumeTemplate.BusinessLayout | components/ResumeTemplate.tsx:234-310 | the Business page: the name or its fallback, all four contact fields whatever their value, and its five sections |
| ResumeTemplate.BusinessKeepsHeadings | components/ResumeTemplate.tsx:234-310 | Business always shows experience, education, skills, certifications and references, in that order, whatever the draft holds |
| ResumeTemplate.CreativeSection | components/ResumeTemplate.tsx:317-409 | each Creative section carries the requested kind; the summary, the four contact lines and the skill chips are always printed; a list section has one entry per record, in order |
| ResumeTemplate.CreativeLayout | components/ResumeTemplate.tsx:311-412 | the Creative page: the name on two lines, no header run, and its eight sections |
| ResumeTemplate.CreativeKeepsHeadings | components/ResumeTemplate.tsx:311-412 | Creative always shows summary, contact, skills and references in its sidebar, then experience, education, certifications and projects, whatever the draft holds |
| ResumeTemplate.SkillChips | components/ResumeTemplate.tsx:171-172 | one chip per comma-separated piece (commas + 1), chip i being the trimmed i-th piece; so none holds a comma and none has leading or trailing white space |
| ResumeTemplate.CreativeNameLines | components/ResumeTemplate.tsx:316 | two lines: the first has no space; with a space in the name, first line, one space and second line give back the name; otherwise the second line is empty |
| ResumeTemplate.SelectTemplate | components/ResumeTemplate.tsx:415 | the layout whose name is the stored string, and Standard for any other string |
| ResumeTemplate.Render | components/ResumeTemplate.tsx:44-415 | the preview is built by the selected layout: its name line (the name, or that layout's fallback when the name is empty; Creative's two name lines), its header (the interleaved non-empty contact fields for Standard and Technology, all four fields for Business, none for Creative), and each of its sections as that layout draws the section's kind |
| ResumeTemplate.RenderSections | components/ResumeTemplate.tsx:44-415 | in the preview, Standard shows a section exactly when its guard holds, and Technology, Business and Creative show their fixed heading lists |
| AdminDashboard.Lower | components/AdminDashboard.tsx:16 | lower-casing keeps the length and folds each character |
| AdminDashboard.Upper | components/AdminDashboard.tsx:16 | upper-casing keeps the length and folds each character |
| AdminDashboard.LowerOfUpper | components/AdminDashboard.tsx:16-17 | upper-casing first does not change the lower-cased form |
| AdminDashboard.LowerIdempotent | components/AdminDashboard.tsx:16-17 | lower-casing twice is lower-casing once |
| AdminDashboard.ContainsEmpty | components/AdminDashboard.tsx:16 | every string includes the empty string |
| AdminDashboard.Matches | components/AdminDashboard.tsx:15-18 | the search condition: the lower-cased name or the lower-cased e-mail includes the lower-cased term |
| AdminDashboard.Filtered | components/AdminDashboard.tsx:15-18 | a submission is shown exactly when its lower-cased name or e-mail contains the lower-cased term; never more rows than submissions |
| AdminDashboard.FilteredKeepsOrder | components/AdminDashboard.tsx:15-18 | the search never reorders submissions |
| AdminDashboard.EmptyTermKeepsAll | components/AdminDashboard.tsx:15-18 | an empty term shows every submission |
| AdminDashboard.SameLowerSameResult | components/AdminDashboard.tsx:16-17 | terms equal up to case select the same submissions |
| AdminDashboard.SearchIgnoresCase | components/AdminDashboard.tsx:16-17 | upper- or lower-casing the term does not change the result |
| AdminDashboard.RowOf | components/AdminDashboard.tsx:61-89 | each cell shows its field, or its placeholder exactly when the field is empty; "never" exactly when the submission time is absent or empty; the template name is shown as stored; the delete button carries the entry's id |
| AdminDashboard.Dashboard | components/AdminDashboard.tsx:25-107 | the heading counts all submissions whatever the search; the empty-state row is shown exactly when no submission matches; otherwise the rows are those of the matches, one each, in stored order |
| AdminDashboard.DashboardWithoutTerm | components/AdminDashboard.tsx:15-60 | without a term every submission has its row, in order |
| Records.SetExperience | App.tsx:155 | `{ ...exp, [field]: value }` sets that field and leaves the id and the other fields |
| Records.EmptyExperience | App.tsx:150 | the new entry has the fresh id and every field empty |
| Records.ExperienceExtensional | types.ts:2-10 | an entry is determined by its id and its fields |
| Records.SetGetExperience | App.tsx:155 | writing back a field's value changes nothing |
| Records.SetSetExperience | App.tsx:155 | the later of two writes to a field wins |
| Records.SetEducation | App.tsx:191 | sets that field (an absent GPA or honours becomes present) and leaves the id and the other fields |
| Records.EmptyEducation | App.tsx:186 | the new entry has the fresh id, empty strings, honours set to empty and GPA absent |
| Records.EducationExtensional | types.ts:12-20 | an entry is determined by its id and its fields |
| Records.SetGetEducation | App.tsx:191 | writing back a present value changes nothing |
| Records.SetSetEducation | App.tsx:191 | the later of two writes to a field wins |
| Records.SetProject | App.tsx:200 | sets that field (an absent link becomes present) and leaves the id and the other fields |
| Records.EmptyProject | App.tsx:195 | the new entry has the fresh id, empty strings and no link |
| Records.ProjectExtensional | types.ts:22-28 | an entry is determined by its id and its fields |
| Records.SetGetProject | App.tsx:200 | writing back a present value changes nothing |
| Records.SetSetProject | App.tsx:200 | the later of two writes to a field wins |
| Records.SetCertification | App.tsx:209 | sets that field and leaves the id and the other fields |
| Records.EmptyCertification | App.tsx:204 | the new entry has the fresh id and every field empty |
| Records.CertificationExtensional | types.ts:30-35 | an entry is determined by its id and its fields |
| Records.SetGetCertification | App.tsx:209 | writing back a field's value changes nothing |
| Records.SetSetCertification | App.tsx:209 | the later of two writes to a field wins |
| Records.SetReference | App.tsx:218 | sets that field and leaves the id and the other fields |
| Records.EmptyReference | App.tsx:213 | the new entry has the fresh id and every field empty |
| Records.ReferenceExtensional | types.ts:37-44 | an entry is determined by its id and its fields |
| Records.SetGetReference | App.tsx:218 | writing back a field's value changes nothing |
| Records.SetSetReference | App.tsx:218 | the later of two writes to a field wins |
| App.SetDraft | App.tsx:90-92 | the single-field setter changes exactly that field: the other text fields, the id, the lists, the submission time and the score are kept |
| App.DraftExtensional | types.ts:48-72 | a draft is determined by its text fields and the rest of its structure |
| App.SetGetDraft | App.tsx:90-92 | writing back a present value changes nothing |
| App.SetSetDraft | App.tsx:90-92 | the later of two writes to a field wins |
| App.SetDraftCommutes | App.tsx:90-92 | writes to different fields commute |
| App.InitialData | App.tsx:36-54 | the new draft has the fresh id, stores the template name "Standard", has every text field empty, no entries, no submission time or score, and is not eligible for autosave |
| App.AutosaveEligible | App.tsx:74 | the autosave condition: a non-empty name, a non-empty e-mail or at least one experience |
| App.SetDraftAutosave | App.tsx:75 | only the name and e-mail fields change autosave eligibility, and a non-empty one makes the draft eligible |
| App.ExperienceAdded | App.tsx:149-152 | one empty entry with the fresh id is appended; the existing entries and the rest of the draft are kept |
| App.ExperienceUpdated | App.tsx:154-156 | entries with the id get the field set, all others are kept; the length and the rest of the draft are kept |
| App.ExperienceRemoved | App.tsx:355 | exactly the entries with the id are dropped; the rest of the draft is kept |
| App.ExperienceAddRemove | App.tsx:149-156 | removing a freshly added entry restores the draft; updating an absent id is a no-op |
| App.ExperienceIdsStayUnique | App.tsx:149-156 | update and remove keep entry ids unique, and so does adding a fresh id |
| App.EducationAdded | App.tsx:185-188 | one empty entry with the fresh id is appended; the rest is kept |
| App.EducationUpdated | App.tsx:190-192 | entries with the id get the field set, all others are kept |
| App.EducationRemoved | App.tsx:334 | exactly the entries with the id are dropped |
| App.EducationAddRemove | App.tsx:185-192 | removing a freshly added entry restores the draft; updating an absent id is a no-op |
| App.EducationIdsStayUnique | App.tsx:185-192 | update, remove and a fresh add keep entry ids unique |
| App.ProjectAdded | App.tsx:194-197 | one empty entry with the fresh id is appended; the rest is kept |
| App.ProjectUpdated | App.tsx:199-201 | entries with the id get the field set, all others are kept |
| App.ProjectRemoved | App.tsx:379 | exactly the entries with the id are dropped |
| App.ProjectAddRemove | App.tsx:194-201 | removing a freshly added entry restores the draft; updating an absent id is a no-op |
| App.ProjectIdsStayUnique | App.tsx:194-201 | update, remove and a fresh add keep entry ids unique |
| App.CertificationAdded | App.tsx:203-206 | one empty entry with the fresh id is appended; the rest is kept |
| App.CertificationUpdated | App.tsx:208-210 | entries with the id get the field set, all others are kept |
| App.CertificationRemoved | App.tsx:411 | exactly the entries with the id are dropped |
| App.CertificationAddRemove | App.tsx:203-210 | removing a freshly added entry restores the draft; updating an absent id is a no-op |
| App.CertificationIdsStayUnique | App.tsx:203-210 | update, remove and a fresh add keep entry ids unique |
| App.ReferenceAdded | App.tsx:212-215 | one empty entry with the fresh id is appended; the rest is kept |
| App.ReferenceUpdated | App.tsx:217-219 | entries with the id get the field set, all others are kept |
| App.ReferenceRemoved | App.tsx:428 | exactly the entries with the id are dropped |
| App.ReferenceAddRemove | App.tsx:212-219 | removing a freshly added entry restores the draft; updating an absent id is a no-op |
| App.ReferenceIdsStayUnique | App.tsx:212-219 | update, remove and a fresh add keep entry ids unique |
| App.CanAnalyse | App.tsx:173 | the analysis runs only when the job description is present and non-empty |
| App.CanEnhance | App.tsx:159-160 | the experience AI action proceeds exactly when the first entry with the id (the one `find` returns) has a non-empty description; an empty first match stops it even when a later entry with the same id has a description |
| App.EnhanceAfterDescriptionEdit | App.tsx:154-160 | after the description of the entries with an id is set to v, the action may run exactly when such an entry exists and v is non-empty |
| App.SubmissionOf | App.tsx:99-102 | the submitted entry is the draft with only the submission time set |
| App.Upsert | App.tsx:96-108 | the submitted entry is in the new list, every other entry was there before, and the length grows by at most one |
| App.UpsertReplacesFirst | App.tsx:104-105 | with an entry of that id, the first one is replaced in place and every other position and the length are kept |
| App.UpsertAppends | App.tsx:106-108 | with no entry of that id, the entry is appended and the length grows by one |
| App.UpsertKeepsUnique | App.tsx:96-108 | from unique ids, ids stay unique and the submitted entry is the only one with its id |
| App.UpsertTwice | App.tsx:96-108 | two submissions with the same id in a row equal the second alone |
| App.SubmitTwiceKeepsOne | App.tsx:94-116 | submitting a draft twice leaves exactly one entry with its id, the later submission |
| App.Editor.constructor | App.tsx:29-56 | first render: user mode, personal tab, the initial draft, no submissions |
| App.Editor.Restore | App.tsx:58-72 | the stored submissions and draft, when present, replace the in-memory ones |
| App.Editor.Autosave | App.tsx:74-88 | the draft is stored only when eligible; nothing else changes |
| App.Editor.SetMode | App.tsx:244-247 | the mode buttons set the mode only |
| App.Editor.SetSection | App.tsx:221-230 | the tab buttons set the open tab only |
| App.Editor.HandleInputChange | App.tsx:90-92 | the draft gets the field set; nothing else changes |
| App.Editor.SubmitResume | App.tsx:94-116 | the submissions become the upsert of the stamped draft and are stored; the draft is not modified |
| App.Editor.CreateNewResume | App.tsx:118-124 | when confirmed: the initial draft with the fresh id, stored draft removed, personal tab; otherwise nothing changes; submissions kept |
| App.Editor.LoadSubmission | App.tsx:126-130 | the submission becomes the draft, in user mode on the personal tab; submissions kept |
| App.Editor.DeleteSubmission | App.tsx:132-138 | when confirmed, every entry with the id is removed and the list stored; otherwise nothing changes; the draft is kept |
| App.Editor.AddExperience | App.tsx:149-152 | the draft gets the entry appended; nothing else changes |
| App.Editor.UpdateExperience | App.tsx:154-156 | the draft gets the update; nothing else changes |
| App.Editor.RemoveExperience | App.tsx:355 | the draft gets the removal; nothing else changes |
| App.Editor.AddEducation | App.tsx:185-188 | the draft gets the entry appended; nothing else changes |
| App.Editor.UpdateEducation | App.tsx:190-192 | the draft gets the update; nothing else changes |
| App.Editor.RemoveEducation | App.tsx:334 | the draft gets the removal; nothing else changes |
| App.Editor.AddProject | App.tsx:194-197 | the draft gets the entry appended; nothing else changes |
| App.Editor.UpdateProject | App.tsx:199-201 | the draft gets the update; nothing else changes |
| App.Editor.RemoveProject | App.tsx:379 | the draft gets the removal; nothing else changes |
| App.Editor.AddCertification | App.tsx:203-206 | the draft gets the entry appended; nothing else changes |
| App.Editor.UpdateCertification | App.tsx:208-210 | the draft gets the update; nothing else changes |
| App.Editor.RemoveCertification | App.tsx:411 | the draft gets the removal; nothing else changes |
| App.Editor.AddReference | App.tsx:212-215 | the draft gets the entry appended; nothing else changes |
| App.Editor.UpdateReference | App.tsx:217-219 | the draft gets the update; nothing else changes |
| App.Editor.RemoveReference | App.tsx:428 | the draft gets the removal; nothing else changes |
| App.Editor.EnhanceSummary | App.tsx:318 | the returned text replaces the summary; nothing else changes |
| App.Editor.AiEnhanceExperience | App.tsx:158-170 | a no-op unless the first entry with the id has a non-empty description; otherwise the description of the entries with the id is replaced |
| App.Editor.RunAtsAnalysis | App.tsx:172-183 | a no-op without a non-empty job description; otherwise the score is attached to the draft |

## Left out

- Browser storage is two fields of `App.Editor`, `savedDraft` and `savedSubmissions`. The model does not cover serialisation through `JSON.stringify`/`JSON.parse`, a parse failure on restore, or a write failing because storage is full (the `catch` branches and their alerts).
- The debounce of the autosave effect is not modelled: no timers, no `clearTimeout`, no save-status indicator. `App.Editor.Autosave` is the moment the timer fires.
- Id generation through `crypto.randomUUID` or `Math.random` is not modelled; fresh ids are method parameters. The add lemmas assume freshness only where they need it.
- The clock is not modelled: `submittedAt` is an opaque string parameter. Locale date formatting in the dashboard and the export filename are also left out.
- `confirm` dialogs are boolean parameters. `alert`, `window.print` and the JSON export download are host I/O and are not modelled.
- The AI service is not part of this model. `services/geminiService.ts` is a wrapper over a remote model, so its answers are parameters of `App.Editor.EnhanceSummary`, `App.Editor.AiEnhanceExperience` and `App.Editor.RunAtsAnalysis`. The fallbacks the service returns when its own call fails are ordinary answers, so the methods cover them:
  - the summary sentence "Professional summary could not be generated at this time.";
  - the description of the first entry with the id, which the handler then writes into every entry with that id;
  - the zero score with the feedback "Error analyzing resume.".

  The asynchrony of those calls is not modelled: the answer is applied at once. This means the following are not modelled:
  - interleaving with other edits, such as an edit made while a call is pending, which the experience answer overwrites;
  - an exception that escapes the service (for example one raised before its own `try`): the experience and analysis handlers catch it and leave the draft unchanged; the summary button has no `catch`, so the rejection goes unhandled and `isEnhancing` stays set;
  - the busy flags `isEnhancing` and `isAnalyzing`.
- AdminDashboard.Lower: folds ASCII letters only, not full Unicode `toLowerCase`, which also maps other scripts and can change the length of a string.
- AdminDashboard.SearchIgnoresCase: its upper-case half holds only because `Upper` and `Lower` are ASCII-only. With JavaScript's full `toUpperCase`, "ß" becomes "SS", so "weiß" matches a search for "ß" but not one for "SS". AdminDashboard.SameLowerSameResult does not depend on the fold.
- The `keyof` field parameters of the update handlers exclude `id`: no input in the editor passes it. `handleInputChange` is modelled for the text fields the form writes. Its one non-text use, attaching the score, is modelled in `App.Editor.RunAtsAnalysis`.
- ResumeTemplate.SelectTemplate: maps only the four layout names. In the source, `templates[data.template]` would also accept a name inherited from `Object.prototype`, such as `"constructor"`, and yield a non-element; the model sends every other string to Standard.
- JSX layout, CSS classes, fonts, the template badge colours and the fixed heading texts are presentation and are not modelled. The rendered document keeps the structure (sections, entries, lines, separators, bullets, chips) and the text that the data determines.
