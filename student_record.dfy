/** The student record page: the labels it derives from the navigation state,
    with their fallbacks, the draft record template, and the save handler. */
module StudentRecordPage {
  import opened JsText
  import StudentPage

  const NAME_FALLBACK: string := "알 수 없는 학생"
  const CLASSROOM_FALLBACK: string := "학급 정보 없음"
  const MISSION_FALLBACK: string := "오늘 미션 정보 없음"
  const MSG_SAVED: string := "생기부 초안이 임시 저장되었습니다."

  /** The fields of `location.state` the page reads; `None` is `undefined`. */
  datatype NavState = NavState(name: Option<Scalar>, number: Option<Scalar>,
                               grade: Option<Scalar>, classNo: Option<Scalar>,
                               mission: Option<Scalar>)

  /** `location.state || {}`. */
  function StateOrEmpty(state: Option<NavState>): (s: NavState)
    ensures state.Some? ==> s == state.value
    ensures state.None? ==> s.name.None? && s.number.None? && s.grade.None?
                            && s.classNo.None? && s.mission.None?
  {
    state.GetOr(NavState(None, None, None, None, None))
  }

  /** A truthy scalar never renders as the empty string. */
  lemma TruthyTextNonEmpty(x: Option<Scalar>)
    requires Truthy(x)
    ensures ScalarText(x.value) != ""
  {
  }

  /** `state.name || "알 수 없는 학생"`. */
  function StudentName(s: NavState): (r: string)
    ensures r != ""
    ensures Truthy(s.name) ==> r == ScalarText(s.name.value)
    ensures !Truthy(s.name) ==> r == NAME_FALLBACK
  {
    if Truthy(s.name) then (TruthyTextNonEmpty(s.name); ScalarText(s.name.value)) else NAME_FALLBACK
  }

  /** `state.number ? `${state.number}번` : ""`. */
  function StudentNumber(s: NavState): (r: string)
    ensures r == "" <==> !Truthy(s.number)
    ensures Truthy(s.number) ==> r == ScalarText(s.number.value) + "번"
  {
    if Truthy(s.number) then ScalarText(s.number.value) + "번" else ""
  }

  /** `state.grade && state.classNo ? "G학년 C반" : "학급 정보 없음"`. */
  function ClassroomLabel(s: NavState): (r: string)
    ensures r == CLASSROOM_FALLBACK <==> !(Truthy(s.grade) && Truthy(s.classNo))
    ensures Truthy(s.grade) && Truthy(s.classNo) ==>
      r == ScalarText(s.grade.value) + "학년 " + ScalarText(s.classNo.value) + "반"
  {
    if Truthy(s.grade) && Truthy(s.classNo) then
      var r := ScalarText(s.grade.value) + "학년 " + ScalarText(s.classNo.value) + "반";
      assert r[|r| - 1] == '반' != CLASSROOM_FALLBACK[|CLASSROOM_FALLBACK| - 1];
      r
    else CLASSROOM_FALLBACK
  }

  /** `state.mission || "오늘 미션 정보 없음"`. */
  function Mission(s: NavState): (r: string)
    ensures r != ""
    ensures Truthy(s.mission) ==> r == ScalarText(s.mission.value)
    ensures !Truthy(s.mission) ==> r == MISSION_FALLBACK
  {
    if Truthy(s.mission) then (TruthyTextNonEmpty(s.mission); ScalarText(s.mission.value))
    else MISSION_FALLBACK
  }

  /** The twelve lines of the draft. */
  function RecordLines(s: NavState): (lines: seq<string>)
    ensures |lines| == 12
    ensures lines[0] == ClassroomLabel(s) + " " + StudentNumber(s) + " " + StudentName(s)
                        + " 학생 생기부 초안"
    ensures lines[7] == "- 미션 내용: " + Mission(s)
  {
    [ClassroomLabel(s) + " " + StudentNumber(s) + " " + StudentName(s) + " 학생 생기부 초안",
     "",
     "1. 기본 소견",
     "- 수업 참여도: ",
     "- 생활 태도: ",
     "",
     "2. 금일 미션 수행",
     "- 미션 내용: " + Mission(s),
     "- 수행 결과 및 피드백: ",
     "",
     "3. 향후 지도 계획",
     "- "]
  }

  /** `defaultRecord`. */
  function DefaultRecord(s: NavState): (r: string)
    ensures RecordLines(s)[0] <= r
  {
    JoinStartsWithFirst(RecordLines(s), "\n");
    Join(RecordLines(s), "\n")
  }

  /** No label holds a line break. */
  predicate NoLineBreaks(s: NavState) {
    '\n' !in StudentName(s) && '\n' !in StudentNumber(s)
    && '\n' !in ClassroomLabel(s) && '\n' !in Mission(s)
  }

  /** With single-line labels every line of the draft is a single line. */
  lemma LinesAreSingle(s: NavState)
    requires NoLineBreaks(s)
    ensures forall i :: 0 <= i < 12 ==> '\n' !in RecordLines(s)[i]
  {
    var lines := RecordLines(s);
    var header := ClassroomLabel(s) + " " + StudentNumber(s) + " " + StudentName(s);
    assert '\n' !in header;
    assert lines[0] == header + " 학생 생기부 초안";
    assert lines[7] == "- 미션 내용: " + Mission(s);
  }

  /** With single-line labels the draft has exactly twelve lines: eleven breaks. */
  lemma DefaultRecordLineCount(s: NavState)
    requires NoLineBreaks(s)
    ensures Count(DefaultRecord(s), '\n') == 11
  {
    var lines := RecordLines(s);
    LinesAreSingle(s);
    forall i | 0 <= i < |lines|
      ensures Count(lines[i], '\n') == 0
    {
      CountZeroIffAbsent(lines[i], '\n');
    }
    JoinSeparatorCount(lines, '\n');
  }

  /** The state `handleGoDetail` sends: no mission is included. */
  function FromDetail(nav: StudentPage.DetailNavigation): (s: NavState)
    ensures s.mission.None?
  {
    NavState(Some(Str(nav.name)), Some(Num(nav.number)), Some(Num(nav.grade)),
             Some(Num(nav.classNo)), None)
  }

  /** A roster student's navigation state labels the class "2학년 2반" and the
      student "N번", but always falls back for the mission. */
  lemma DetailStateLabels(stu: StudentPage.Student)
    requires stu in StudentPage.ROSTER
    ensures var s := FromDetail(StudentPage.GoDetail(stu));
      ClassroomLabel(s) == "2학년 2반"
      && StudentNumber(s) == IntToDecimal(stu.number) + "번"
      && StudentName(s) == stu.name
      && Mission(s) == MISSION_FALLBACK
  {
    var s := FromDetail(StudentPage.GoDetail(stu));
    assert IntToDecimal(2) == "2";
    assert ScalarText(s.grade.value) == "2";
  }

  class StudentRecordForm {
    var studentId: Option<string>
    var record: string
    var saveMessage: string

    /** The text area starts from the draft; no save message yet. */
    constructor(state: Option<NavState>, id: Option<string>)
      ensures studentId == id && saveMessage == ""
      ensures record == DefaultRecord(StateOrEmpty(state))
    {
      studentId := id;
      record := DefaultRecord(StateOrEmpty(state));
      saveMessage := "";
    }

    /** The text area's change handler. */
    method SetRecord(text: string)
      modifies this`record
      ensures record == text
    {
      record := text;
    }

    /** `handleSubmit`: logs the id and the record, and shows the save message;
        the record is kept as typed. */
    method HandleSubmit() returns (loggedId: Option<string>, loggedRecord: string)
      modifies this`saveMessage
      ensures saveMessage == MSG_SAVED && saveMessage != ""
      ensures loggedId == studentId && loggedRecord == record
    {
      loggedId, loggedRecord := studentId, record;
      saveMessage := MSG_SAVED;
    }
  }
}
