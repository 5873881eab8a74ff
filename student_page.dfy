/** The teacher's student list: a fixed roster of one class, the O/X mission
    check kept per student id, and the navigation to a student's record. */
module StudentPage {
  import opened JsText
  import App

  datatype Student = Student(id: string, name: string, number: int)

  const CLASSROOM_GRADE: int := 2
  const CLASSROOM_CLASS_NO: int := 2

  /** The sample roster shown on the page. */
  const ROSTER: seq<Student> :=
    [Student("S01", "정희진", 1), Student("S02", "김도현", 2), Student("S03", "박수연", 3),
     Student("S04", "이서준", 4), Student("S05", "최예진", 5), Student("S06", "오지후", 6)]

  /** Six students, numbered 1 to 6 in order, with pairwise different ids. */
  lemma RosterShape()
    ensures |ROSTER| == 6
    ensures forall i :: 0 <= i < |ROSTER| ==> ROSTER[i].number == i + 1
    ensures forall i, j :: 0 <= i < j < |ROSTER| ==> ROSTER[i].id != ROSTER[j].id
  {
  }

  /** What `navigate` receives from `handleGoDetail`: a path and a state object. */
  datatype DetailNavigation = DetailNavigation(path: string, grade: int, classNo: int,
                                               name: string, number: int, id: string)

  const DETAIL_PREFIX: string := "/teacher/students/"

  /** `handleGoDetail(stu)`: the path ends in the student's id, and the state
      carries the student and the classroom. */
  function GoDetail(stu: Student): (nav: DetailNavigation)
    ensures nav.path == DETAIL_PREFIX + stu.id
    ensures nav.id == stu.id && nav.name == stu.name && nav.number == stu.number
    ensures nav.grade == CLASSROOM_GRADE && nav.classNo == CLASSROOM_CLASS_NO
  {
    DetailNavigation(DETAIL_PREFIX + stu.id, CLASSROOM_GRADE, CLASSROOM_CLASS_NO,
                     stu.name, stu.number, stu.id)
  }

  /** Different students are sent to different paths. */
  lemma GoDetailInjective(a: Student, b: Student)
    requires GoDetail(a).path == GoDetail(b).path
    ensures a.id == b.id
  {
    assert a.id == GoDetail(a).path[|DETAIL_PREFIX|..];
    assert b.id == GoDetail(b).path[|DETAIL_PREFIX|..];
  }

  /** No roster student's detail path is a route of the application, and each
      counts as depth 0. */
  lemma DetailPathsUnrouted()
    ensures forall s :: s in ROSTER ==>
      GoDetail(s).path !in App.ROUTES && App.RouteDepth(GoDetail(s).path) == 0
  {
  }

  /** `{ ...prev, [id]: result }`. */
  function Check(status: map<string, string>, id: string, result: string): (r: map<string, string>)
    ensures id in r && r[id] == result
    ensures forall k :: k != id ==> (k in r <==> k in status)
    ensures forall k :: k != id && k in status ==> r[k] == status[k]
  {
    status[id := result]
  }

  /** A later check of the same student replaces the earlier one. */
  lemma LastCheckWins(status: map<string, string>, id: string, first: string, second: string)
    ensures Check(Check(status, id, first), id, second) == Check(status, id, second)
  {
  }

  /** Checks of different students do not interfere, whatever their order. */
  lemma ChecksCommute(status: map<string, string>, a: string, ra: string, b: string, rb: string)
    requires a != b
    ensures Check(Check(status, a, ra), b, rb) == Check(Check(status, b, rb), a, ra)
  {
  }

  /** `missionStatus[id] || "-"`: an unchecked student (or an empty mark) shows "-". */
  function StatusDisplay(status: map<string, string>, id: string): (r: string)
    ensures r != ""
    ensures id in status && status[id] != "" ==> r == status[id]
    ensures !(id in status && status[id] != "") ==> r == "-"
  {
    if id in status && status[id] != "" then status[id] else "-"
  }

  /** After a check, the student shows the mark and everyone else shows what they
      showed before. */
  lemma CheckThenDisplay(status: map<string, string>, id: string, result: string, other: string)
    requires result != ""
    ensures StatusDisplay(Check(status, id, result), id) == result
    ensures other != id ==> StatusDisplay(Check(status, id, result), other) == StatusDisplay(status, other)
  {
  }

  class StudentsPage {
    var missionStatus: map<string, string>

    /** The page opens with nobody checked. */
    constructor()
      ensures missionStatus == map[]
      ensures forall s :: s in ROSTER ==> StatusOf(s.id) == "-"
    {
      missionStatus := map[];
    }

    function StatusOf(id: string): string
      reads this
    {
      StatusDisplay(missionStatus, id)
    }

    /** `checkMission(id, result)`: the O and X buttons. */
    method CheckMission(id: string, result: string)
      modifies this
      ensures missionStatus == Check(old(missionStatus), id, result)
      ensures forall k :: k != id ==> StatusOf(k) == old(StatusOf(k))
    {
      missionStatus := Check(missionStatus, id, result);
    }
  }
}
