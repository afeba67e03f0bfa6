/** The roster page (src/pages/StudentsPage.jsx): the teacher's students,
    each merged with its newest risk record and newest weekly metric, and
    the case-insensitive search over name and roll number. */
module StudentsPage {
  import opened Common
  import opened Roster

  const LOW := "Low"
  const NO_RECENT_DATA := "No recent data"

  /** The outcome of the two parallel requests made for one student:
      `LookupFailed` when either `GET /students/{id}/history` or
      `GET /students/{id}/metrics` rejects, else both bodies. */
  datatype Lookup = LookupFailed | Looked(history: seq<RiskRecord>, metrics: seq<WeeklyMetric>)

  /** `{...s, risk, score, attendance, assignment, issue}`. `issue` is `None`
      where the source's object has no `issue` field (the `catch` branch);
      otherwise it is the raw reasons field or the no-data text. */
  datatype EnrichedStudent = EnrichedStudent(
    student: Student, risk: string, score: real,
    attendance: int, assignment: int, issue: Option<string>)

  /** What the roster promises about one enriched row, case by case: the
      student's own fields are kept; a failed lookup gives the fixed
      fallback; an empty history gives Low, 0.0 and the no-data text; an
      empty metrics list gives zero attendance and assignment rate;
      otherwise the values come from the newest record of each list. */
  predicate EnrichedFrom(s: Student, lookup: Lookup, e: EnrichedStudent) {
    && e.student == s
    && match lookup
       case LookupFailed =>
         e.risk == LOW && e.score == 0.0 && e.attendance == 0 && e.assignment == 0 && e.issue == None
       case Looked(history, metrics) =>
         && (if |history| == 0
             then e.risk == LOW && e.score == 0.0 && e.issue == Some(NO_RECENT_DATA)
             else e.risk == history[0].level && e.score == history[0].score
                  && e.issue == Some(history[0].reasons))
         && (if |metrics| == 0
             then e.attendance == 0 && e.assignment == 0
             else e.attendance == metrics[0].attendanceScore
                  && e.assignment == metrics[0].homeworkSubmissionRate)
  }

  /** The per-student `async (s) => { try … catch … }` of `fetchStudents`. */
  function Enrich(s: Student, lookup: Lookup): (e: EnrichedStudent)
    ensures EnrichedFrom(s, lookup, e)
  {
    match lookup
    case LookupFailed => EnrichedStudent(s, LOW, 0.0, 0, 0, None)
    case Looked(history, metrics) =>
      var latestRisk := if history == [] then None else Some(history[0]);
      var latestMetric := if metrics == [] then None else Some(metrics[0]);
      EnrichedStudent(
        s,
        if latestRisk.Some? then latestRisk.value.level else LOW,
        if latestRisk.Some? then latestRisk.value.score else 0.0,
        if latestMetric.Some? then latestMetric.value.attendanceScore else 0,
        if latestMetric.Some? then latestMetric.value.homeworkSubmissionRate else 0,
        Some(if latestRisk.Some? then latestRisk.value.reasons else NO_RECENT_DATA))
  }

  /** `Promise.all(myStudents.map(…))`: one enriched row per student, same
      length and order, each built from that student's own lookup only. */
  function EnrichRoster(mine: seq<Student>, lookup: int -> Lookup): (r: seq<EnrichedStudent>)
    ensures |r| == |mine|
    ensures forall i :: 0 <= i < |r| ==> EnrichedFrom(mine[i], lookup(mine[i].id), r[i])
  {
    seq(|mine|, i requires 0 <= i < |mine| => Enrich(mine[i], lookup(mine[i].id)))
  }

  /** A failing lookup for one student id gives that student the fallback
      row and leaves every other row as it was. */
  lemma OneFailureLeavesOthers(mine: seq<Student>, lookup: int -> Lookup, failing: int)
    ensures var after := EnrichRoster(mine, x => if x == failing then LookupFailed else lookup(x));
      && |after| == |mine|
      && (forall i :: 0 <= i < |mine| && mine[i].id != failing ==>
            after[i] == EnrichRoster(mine, lookup)[i])
      && (forall i :: 0 <= i < |mine| && mine[i].id == failing ==>
            after[i] == EnrichedStudent(mine[i], LOW, 0.0, 0, 0, None))
  {
  }

  /** The rows `fetchStudents` stores: the enriched roster of the teacher's
      students, or the initial empty list when `GET /students/` fails. */
  function FetchStudents(stored: Option<string>, response: Option<seq<Student>>, lookup: int -> Lookup)
    : (r: seq<EnrichedStudent>)
    ensures response.None? ==> r == []
    ensures response.Some? ==> |r| == |MyStudents(response.value, stored)|
    ensures response.Some? ==> forall i :: 0 <= i < |r| ==>
      var s := MyStudents(response.value, stored)[i];
      EnrichedFrom(s, lookup(s.id), r[i])
  {
    match response
    case None => []
    case Some(all) => EnrichRoster(MyStudents(all, stored), lookup)
  }

  // ---------------------------------------------------------------------
  // The search box

  /** `toLowerCase` on one character; only the ASCII letters are mapped. */
  function LowerChar(c: char): char {
    if 'A' <= c <= 'Z' then (c as int - 'A' as int + 'a' as int) as char else c
  }

  function ToLower(s: string): (r: string)
    ensures |r| == |s|
    ensures forall i :: 0 <= i < |s| ==> r[i] == LowerChar(s[i])
  {
    if s == [] then [] else [LowerChar(s[0])] + ToLower(s[1..])
  }

  lemma ToLowerIdempotent(s: string)
    ensures ToLower(ToLower(s)) == ToLower(s)
  {
    assert forall i :: 0 <= i < |s| ==> LowerChar(LowerChar(s[i])) == LowerChar(s[i]);
  }

  /** `t` occurs in `s` starting at index `i`. */
  predicate OccursAt(s: string, t: string, i: int) {
    0 <= i && i + |t| <= |s| && s[i..i + |t|] == t
  }

  /** `String.prototype.includes`: `t` is a prefix of `s` or of one of its
      suffixes. */
  predicate Includes(s: string, t: string) {
    (|t| <= |s| && s[..|t|] == t) || (s != [] && Includes(s[1..], t))
  }

  /** An occurrence in the tail is an occurrence one place further on in
      the whole string. */
  lemma OccursInTail(s: string, t: string, i: int)
    requires s != [] && 0 <= i
    ensures OccursAt(s[1..], t, i) <==> OccursAt(s, t, i + 1)
  {
    if i + |t| <= |s[1..]| {
      assert s[1..][i..i + |t|] == s[i + 1..i + 1 + |t|];
    }
  }

  /** `includes` finds exactly the occurrences of `t` in `s`. */
  lemma {:induction false} IncludesIffOccurs(s: string, t: string)
    ensures Includes(s, t) <==> exists i :: OccursAt(s, t, i)
  {
    if s != [] {
      IncludesIffOccurs(s[1..], t);
      if |t| <= |s| && s[..|t|] == t {
        assert OccursAt(s, t, 0);
      }
      if exists i :: OccursAt(s[1..], t, i) {
        var i :| OccursAt(s[1..], t, i);
        OccursInTail(s, t, i);
      }
      if exists i :: OccursAt(s, t, i) {
        var i :| OccursAt(s, t, i);
        if i > 0 {
          OccursInTail(s, t, i - 1);
        }
      }
    } else {
      if exists i :: OccursAt(s, t, i) {
        var i :| OccursAt(s, t, i);
        assert t == [];
      }
      if t == [] {
        assert OccursAt(s, t, 0);
      }
    }
  }

  /** `name.toLowerCase().includes(term.toLowerCase()) ||
      roll_number.toLowerCase().includes(term.toLowerCase())` */
  predicate MatchesSearch(e: EnrichedStudent, term: string) {
    Includes(ToLower(e.student.name), ToLower(term))
    || Includes(ToLower(e.student.rollNumber), ToLower(term))
  }

  /** `t` occurs somewhere in `s`. */
  ghost predicate OccursIn(s: string, t: string) {
    exists i :: OccursAt(s, t, i)
  }

  /** A row matches exactly when its lower-cased name or roll number
      contains the lower-cased term at some position. */
  lemma MatchesSearchIffOccurs(e: EnrichedStudent, term: string)
    ensures MatchesSearch(e, term) <==>
      OccursIn(ToLower(e.student.name), ToLower(term))
      || OccursIn(ToLower(e.student.rollNumber), ToLower(term))
  {
    IncludesIffOccurs(ToLower(e.student.name), ToLower(term));
    IncludesIffOccurs(ToLower(e.student.rollNumber), ToLower(term));
  }

  /** Only the lower-cased term matters: typing it in any letter case gives
      the same decision. */
  lemma MatchesSearchIgnoresTermCase(e: EnrichedStudent, term: string)
    ensures MatchesSearch(e, ToLower(term)) == MatchesSearch(e, term)
  {
    ToLowerIdempotent(term);
  }

  /** `filteredStudents`: the rows whose name or roll number contains the
      term, case-insensitively, in roster order and with their multiplicity;
      the empty term keeps every row. */
  function FilteredStudents(roster: seq<EnrichedStudent>, term: string): (r: seq<EnrichedStudent>)
    ensures IsSubsequence(r, roster)
    ensures forall e :: e in r <==> e in roster && MatchesSearch(e, term)
    ensures forall e :: multiset(r)[e] == if MatchesSearch(e, term) then multiset(roster)[e] else 0
    ensures term == "" ==> r == roster
  {
    var p := (e: EnrichedStudent) => MatchesSearch(e, term);
    if term == "" then
      assert forall e :: e in roster ==> p(e) by {
        forall e | e in roster ensures p(e) {
          assert ToLower(term) == [];
          assert ToLower(e.student.name)[..0] == [];
        }
      }
      FilterKeepsAll(p, roster);
      Filter(p, roster)
    else
      Filter(p, roster)
  }
}
