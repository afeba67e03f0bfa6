/** The records this client receives from the backend, and the rule every
    page applies first: keep only the students of the logged-in teacher,
    whose id the session store holds as a string. */
module Roster {
  import opened Common
  import opened Numbers

  /** An entry of `GET /students/`. `teacherId` is `None` when the backend
      sends no owning teacher. */
  datatype Student = Student(id: int, name: string, rollNumber: string, teacherId: Option<int>)

  /** An entry of `GET /students/{id}/history`, newest first. `level` is the
      backend's string (`"Low"`, `"Medium"` or `"High"`); `reasons` is the raw
      reasons field, usually a JSON-encoded array of strings. */
  datatype RiskRecord = RiskRecord(level: string, score: real, reasons: string)

  /** An entry of `GET /students/{id}/metrics`, newest first (only the two
      fields the roster shows). */
  datatype WeeklyMetric = WeeklyMetric(attendanceScore: int, homeworkSubmissionRate: int)

  /** The teacher id that `parseInt(localStorage.getItem('user_id'))` yields,
      or `None` when the pages fall back to the empty roster: nothing stored,
      the empty string (falsy), or a value that parses to `NaN`, which no
      student's `teacher_id` equals. */
  function SessionTeacher(stored: Option<string>): (t: Option<int>)
    ensures stored.None? || stored == Some("") ==> t.None?
    ensures stored.Some? && stored.value != "" ==> t == ParseInt(stored.value)
  {
    match stored
    case None => None
    case Some(v) => if v == "" then None else ParseInt(v)
  }

  /** The session stores the id the login response carried, rendered as a
      string; reading it back gives that id. */
  lemma SessionTeacherReadsLoginId(id: int)
    ensures SessionTeacher(Some(FormatInt(id))) == Some(id)
  {
    ParseIntFormatInt(id);
    assert FormatInt(id) != "" by {
      if id < 0 { } else { assert |FormatNat(id)| > 0; }
    }
  }

  predicate OwnedBy(teacher: int, s: Student) {
    s.teacherId == Some(teacher)
  }

  /** `currentTeacherId ? all.filter(s => s.teacher_id === parseInt(currentTeacherId)) : []`:
      exactly the students owned by the session's teacher, in the order of
      the backend's list and as often as it lists them, and none when no
      usable id is stored. */
  function MyStudents(all: seq<Student>, stored: Option<string>): (r: seq<Student>)
    ensures SessionTeacher(stored).None? ==> r == []
    ensures forall s :: s in r <==>
      s in all && SessionTeacher(stored).Some? && OwnedBy(SessionTeacher(stored).value, s)
    ensures IsSubsequence(r, all)
    ensures var t := SessionTeacher(stored);
      forall s :: multiset(r)[s] == (if t.Some? && OwnedBy(t.value, s) then multiset(all)[s] else 0)
  {
    match SessionTeacher(stored)
    case None => []
    case Some(t) => Filter(s => OwnedBy(t, s), all)
  }
}
