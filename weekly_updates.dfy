/** The manual weekly-update form (src/pages/WeeklyUpdates.jsx): the page's
    state, loading the teacher's students into the selector, and
    `handleSubmit`, which maps the homework status to a rate, builds the
    `POST /metrics/` body and steps the messages and the form. */
module WeeklyUpdates {
  import opened Common
  import opened Numbers
  import opened Roster

  const COMPLETED := "Completed"
  const PARTIAL := "Partial"
  const MISSING := "Missing"
  const SUCCESS_MSG := "Weekly update submitted successfully! Risk analysis updated."
  const FAILURE_MSG := "Failed to submit update. Please try again."

  /** The bound form fields. Text inputs and selects hold strings (the
      student selector holds the chosen id as a string); toggles hold
      booleans. */
  datatype FormData = FormData(
    studentId: string, attendance: string, assignmentScore: string,
    missingAssignments: string, lateSubmissions: string, homeworkStatus: string,
    feesPending: bool, ptmPresence: bool, behaviorIssue: bool)

  const INITIAL_FORM := FormData("", "", "", "", "", COMPLETED, false, true, false)

  /** The body of `POST /metrics/`. A score of `None` is `NaN`, which the
      request serialises as `null`. The form's missing-assignment,
      late-submission, fees and meeting fields have no place in it. */
  datatype MetricPayload = MetricPayload(
    studentId: string, weekStartDate: string, attendanceScore: Option<int>,
    homeworkSubmissionRate: int, testScoreAverage: Option<int>, behaviorFlag: bool)

  /** The three-point homework scale. */
  function HomeworkRateOf(status: string): int {
    if status == PARTIAL then 50 else if status == MISSING then 0 else 100
  }

  /** Partial is 50, Missing is 0, and Completed or anything else is 100;
      no other rate is ever sent. */
  lemma HomeworkRateScale(status: string)
    ensures HomeworkRateOf(status) == 50 <==> status == PARTIAL
    ensures HomeworkRateOf(status) == 0 <==> status == MISSING
    ensures HomeworkRateOf(status) == 100 <==> status != PARTIAL && status != MISSING
    ensures HomeworkRateOf(COMPLETED) == 100
  {
  }

  /** `let hwRate = 100; if (…'Partial') hwRate = 50; if (…'Missing') hwRate = 0;` */
  method HomeworkRate(status: string) returns (hwRate: int)
    ensures hwRate == HomeworkRateOf(status)
  {
    hwRate := 100;
    if status == PARTIAL {
      hwRate := 50;
    }
    if status == MISSING {
      hwRate := 0;
    }
  }

  /** The `payload` object literal; `weekStart` is the date part of the
      current time, which the caller supplies. */
  function BuildPayload(form: FormData, weekStart: string, hwRate: int): MetricPayload {
    MetricPayload(form.studentId, weekStart, ParseInt(form.attendance), hwRate,
                  ParseInt(form.assignmentScore), form.behaviorIssue)
  }

  /** Whole numbers typed into the two score fields reach the backend as
      those numbers, next to the copied student id and behaviour flag. */
  lemma PayloadCarriesFormNumbers(form: FormData, weekStart: string, attendance: int, score: int)
    requires form.attendance == FormatInt(attendance)
    requires form.assignmentScore == FormatInt(score)
    ensures BuildPayload(form, weekStart, HomeworkRateOf(form.homeworkStatus))
      == MetricPayload(form.studentId, weekStart, Some(attendance),
                       HomeworkRateOf(form.homeworkStatus), Some(score), form.behaviorIssue)
  {
    ParseIntFormatInt(attendance);
    ParseIntFormatInt(score);
  }

  /** The fields the payload leaves out cannot influence it: two forms that
      agree on the sent fields produce the same payload. */
  lemma PayloadIgnoresUnsentFields(f1: FormData, f2: FormData, weekStart: string)
    requires f1.studentId == f2.studentId && f1.attendance == f2.attendance
    requires f1.assignmentScore == f2.assignmentScore && f1.homeworkStatus == f2.homeworkStatus
    requires f1.behaviorIssue == f2.behaviorIssue
    ensures BuildPayload(f1, weekStart, HomeworkRateOf(f1.homeworkStatus))
      == BuildPayload(f2, weekStart, HomeworkRateOf(f2.homeworkStatus))
  {
  }

  /** The `{...prev, attendance: '', assignment_score: '', behavior_issue: false}`
      update after a successful submit. */
  function ClearScores(form: FormData): (cleared: FormData)
    ensures cleared.attendance == "" && cleared.assignmentScore == "" && !cleared.behaviorIssue
    ensures cleared.studentId == form.studentId && cleared.homeworkStatus == form.homeworkStatus
    ensures cleared.missingAssignments == form.missingAssignments
    ensures cleared.lateSubmissions == form.lateSubmissions
    ensures cleared.feesPending == form.feesPending && cleared.ptmPresence == form.ptmPresence
  {
    form.(attendance := "", assignmentScore := "", behaviorIssue := false)
  }

  /** Submitting a just-cleared form again sends no scores (both are `NaN`)
      and no behaviour flag, for the same student. */
  lemma ClearedFormSendsNoScores(form: FormData, weekStart: string)
    ensures var p := BuildPayload(ClearScores(form), weekStart, HomeworkRateOf(form.homeworkStatus));
      p.attendanceScore == None && p.testScoreAverage == None
      && !p.behaviorFlag && p.studentId == form.studentId
  {
    NoDigitIsNaN("");
  }

  /** The component's state. */
  class WeeklyUpdatesPage {
    var students: seq<Student>
    var loading: bool
    var successMsg: string
    var errorMsg: string
    var formData: FormData

    constructor ()
      ensures students == [] && !loading && successMsg == "" && errorMsg == ""
      ensures formData == INITIAL_FORM
    {
      students := [];
      loading := false;
      successMsg := "";
      errorMsg := "";
      formData := INITIAL_FORM;
    }

    /** The mount effect: the selector offers exactly the teacher's students;
        a failed `GET /students/` is only logged and leaves the list as it
        was. */
    method FetchStudents(stored: Option<string>, response: Option<seq<Student>>)
      modifies this
      ensures response.Some? ==> students == MyStudents(response.value, stored)
      ensures response.None? ==> students == old(students)
      ensures loading == old(loading) && formData == old(formData)
      ensures successMsg == old(successMsg) && errorMsg == old(errorMsg)
    {
      if response.Some? {
        students := MyStudents(response.value, stored);
      }
    }

    /** `handleSubmit`. `weekStart` is today's date, `posted` whether
        `api.post('/metrics/', payload)` resolved. Returns the payload sent. */
    method HandleSubmit(weekStart: string, posted: bool) returns (payload: MetricPayload)
      modifies this
      ensures payload == BuildPayload(old(formData), weekStart, HomeworkRateOf(old(formData).homeworkStatus))
      ensures !loading && unchanged(`students)
      ensures posted ==>
        successMsg == SUCCESS_MSG && errorMsg == "" && formData == ClearScores(old(formData))
      ensures !posted ==>
        successMsg == "" && errorMsg == FAILURE_MSG && formData == old(formData)
    {
      loading, successMsg, errorMsg := true, "", "";
      var form := formData;

      var hwRate := HomeworkRate(form.homeworkStatus);
      payload := BuildPayload(form, weekStart, hwRate);

      if posted {
        successMsg := SUCCESS_MSG;
        formData := ClearScores(form);
      } else {
        errorMsg := FAILURE_MSG;
      }
      loading := false;
    }
  }
}
