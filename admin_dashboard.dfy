/** The administrator's list of submissions (components/AdminDashboard.tsx):
    a case-insensitive search over name and e-mail, the table rows with their
    placeholder labels, and the empty-state row. */
module AdminDashboard {
  import opened ResumeTypes
  import opened Seqs

  // ---------------------------------------------------------------- case folding

  function LowerChar(c: char): char
  {
    if 'A' <= c <= 'Z' then (c as int + 32) as char else c
  }

  function UpperChar(c: char): char
  {
    if 'a' <= c <= 'z' then (c as int - 32) as char else c
  }

  /** `s.toLowerCase()`, on ASCII letters. */
  function Lower(s: string): (r: string)
    ensures |r| == |s|
    ensures forall i :: 0 <= i < |s| ==> r[i] == LowerChar(s[i])
  {
    MapSeq(LowerChar, s)
  }

  /** `s.toUpperCase()`, on ASCII letters. */
  function Upper(s: string): (r: string)
    ensures |r| == |s|
    ensures forall i :: 0 <= i < |s| ==> r[i] == UpperChar(s[i])
  {
    MapSeq(UpperChar, s)
  }

  /** Upper-casing first does not change what lower-casing gives. */
  lemma LowerOfUpper(s: string)
    ensures Lower(Upper(s)) == Lower(s)
  {
    forall i | 0 <= i < |s| ensures Lower(Upper(s))[i] == Lower(s)[i] {
      var c := s[i];
      assert Upper(s)[i] == UpperChar(c);
    }
  }

  /** Lower-casing twice is lower-casing once. */
  lemma LowerIdempotent(s: string)
    ensures Lower(Lower(s)) == Lower(s)
  {
    forall i | 0 <= i < |s| ensures Lower(Lower(s))[i] == Lower(s)[i] {
      assert Lower(s)[i] == LowerChar(s[i]);
    }
  }

  // ---------------------------------------------------------------- search

  /** `s.includes(t)`: `t` occurs in `s` at some position. */
  predicate Contains(s: string, t: string)
  {
    exists i :: 0 <= i <= |s| && t <= s[i..]
  }

  /** The empty string occurs in every string. */
  lemma ContainsEmpty(s: string)
    ensures Contains(s, [])
  {
    assert [] <= s[0..];
  }

  /** The `filter` condition: the lower-cased name or e-mail contains the
      lower-cased search term. */
  predicate Matches(sub: ResumeData, term: string)
  {
    Contains(Lower(sub.fullName), Lower(term)) || Contains(Lower(sub.email), Lower(term))
  }

  /** `filtered`: the matching submissions, in their stored order. */
  function Filtered(subs: seq<ResumeData>, term: string): (r: seq<ResumeData>)
    ensures |r| <= |subs|
    ensures forall s :: s in r <==> s in subs && Matches(s, term)
  {
    Filter((s: ResumeData) => Matches(s, term), subs)
  }

  /** The filter never reorders: filtering two stretches of the list and
      concatenating equals filtering the whole list. */
  lemma FilteredKeepsOrder(a: seq<ResumeData>, b: seq<ResumeData>, term: string)
    ensures Filtered(a + b, term) == Filtered(a, term) + Filtered(b, term)
  {
    FilterAppend((s: ResumeData) => Matches(s, term), a, b);
  }

  /** An empty search term keeps every submission. */
  lemma EmptyTermKeepsAll(subs: seq<ResumeData>)
    ensures Filtered(subs, []) == subs
  {
    forall s | s in subs ensures Matches(s, []) {
      ContainsEmpty(Lower(s.fullName));
    }
    FilterKeepsAll((s: ResumeData) => Matches(s, []), subs);
  }

  /** Terms that lower-case alike select the same submissions. */
  lemma SameLowerSameResult(subs: seq<ResumeData>, t1: string, t2: string)
    requires Lower(t1) == Lower(t2)
    ensures Filtered(subs, t1) == Filtered(subs, t2)
  {
    FilterAgree((s: ResumeData) => Matches(s, t1), (s: ResumeData) => Matches(s, t2), subs);
  }

  /** Changing the case of the term does not change the result. */
  lemma SearchIgnoresCase(subs: seq<ResumeData>, term: string)
    ensures Filtered(subs, Upper(term)) == Filtered(subs, term)
    ensures Filtered(subs, Lower(term)) == Filtered(subs, term)
  {
    LowerOfUpper(term);
    SameLowerSameResult(subs, Upper(term), term);
    LowerIdempotent(term);
    SameLowerSameResult(subs, Lower(term), term);
  }

  // ---------------------------------------------------------------- table

  const NoNameLabel := "Unspecified Individual Name"
  const NoPhoneLabel := "No Telephone Number Provided"
  const NoEmailLabel := "No Electronic Mail Provided"

  /** The date cell: the stored submission time, or "never" when it is
      absent or empty. */
  datatype DateCell = SubmittedOn(iso: string) | NeverSubmitted

  /** One table row; `id` is what the delete button hands back. */
  datatype Row = Row(name: string, phone: string, email: string, template: string, submitted: DateCell, id: Option<string>)

  /** A row shows each field, or its placeholder label when the field is empty. */
  function RowOf(sub: ResumeData): (row: Row)
    ensures row.name != [] && row.phone != [] && row.email != []
    ensures sub.fullName != [] ==> row.name == sub.fullName
    ensures sub.fullName == [] ==> row.name == NoNameLabel
    ensures sub.phone != [] ==> row.phone == sub.phone
    ensures sub.phone == [] ==> row.phone == NoPhoneLabel
    ensures sub.email != [] ==> row.email == sub.email
    ensures sub.email == [] ==> row.email == NoEmailLabel
    ensures row.submitted.NeverSubmitted? <==> !Truthy(sub.submittedAt)
    ensures row.template == sub.template
    ensures row.id == sub.id
  {
    Row(if sub.fullName != [] then sub.fullName else NoNameLabel,
        if sub.phone != [] then sub.phone else NoPhoneLabel,
        if sub.email != [] then sub.email else NoEmailLabel,
        sub.template,
        if Truthy(sub.submittedAt) then SubmittedOn(sub.submittedAt.value) else NeverSubmitted,
        sub.id)
  }

  datatype Body = EmptyState | Rows(rows: seq<Row>)

  /** The dashboard: the total count, which is that of all submissions
      whatever the search leaves, and either the rows or the empty state. */
  datatype View = View(total: nat, body: Body)

  function Dashboard(subs: seq<ResumeData>, term: string): (v: View)
    ensures v.total == |subs|
    ensures v.body.EmptyState? <==> Filtered(subs, term) == []
    ensures v.body.Rows? ==> v.body.rows == MapSeq(RowOf, Filtered(subs, term))
    ensures v.body.Rows? ==> |v.body.rows| == |Filtered(subs, term)| <= |subs|
  {
    var shown := Filtered(subs, term);
    View(|subs|, if |shown| > 0 then Rows(MapSeq(RowOf, shown)) else EmptyState)
  }

  /** With no search term the table lists every submission, in order. */
  lemma DashboardWithoutTerm(subs: seq<ResumeData>)
    requires subs != []
    ensures Dashboard(subs, []).body == Rows(MapSeq(RowOf, subs))
  {
    EmptyTermKeepsAll(subs);
  }
}
