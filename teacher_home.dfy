/** The teacher home page: the same class-character utilities as the student
    page (shared from `StudentHome`), the homeroom class lookup with its own
    missing-information error, and the mission editor form. */
module TeacherHome {
  import opened JsText
  import opened AuthContext
  import opened StudentHome

  const MSG_NO_CLASS: string := "반 정보가 없어 캐릭터를 불러올 수 없습니다."
  const MSG_CREATE_FAILED: string := "미션 생성에 실패했습니다. API 연결 상태를 확인해주세요."

  /** `missionTypeLabel(type)` on this page. */
  function MissionTypeLabel(missionType: string): (r: string)
    ensures r == "긴급 미션" <==> missionType == "emergency"
    ensures missionType != "emergency" ==> r == "일반 미션"
  {
    if missionType == "emergency" then "긴급 미션" else "일반 미션"
  }

  /** The two pages label only emergency missions alike. */
  lemma LabelsDifferOnlyForRegular(t: string)
    ensures MissionTypeLabel(t) == StudentHome.MissionTypeLabel(t) <==> t == "emergency"
  {
  }

  /** The query for the teacher's homeroom class, whatever the user's role. */
  function TeacherClassQuery(user: Option<Profile>): (q: Option<ClassQuery>)
    ensures q.Some? <==> user.Some? && Present(user.value.educationOfficeCode)
                         && Present(user.value.schoolCode)
                         && Truthy(user.value.homeroomGrade) && Truthy(user.value.homeroomClass)
    ensures q.Some? ==> q.value.grade == user.value.homeroomGrade.value
                        && q.value.classNumber == user.value.homeroomClass.value
  {
    if user.None? then None
    else
      var p := user.value;
      if !Present(p.educationOfficeCode) || !Present(p.schoolCode)
         || !Truthy(p.homeroomGrade) || !Truthy(p.homeroomClass) then None
      else Some(ClassQuery(p.educationOfficeCode.value, p.schoolCode.value,
                           p.homeroomGrade.value, p.homeroomClass.value))
  }

  /** For a teacher the two pages ask for the same class. */
  lemma TeacherQueryMatchesStudentPage(user: Option<Profile>)
    requires user.Some? && !IsStudent(user.value)
    ensures TeacherClassQuery(user) == StudentClassQuery(user)
  {
  }

  class TeacherHomePage {
    var classInfo: ClassInfo

    predicate Valid()
      reads this
    {
      classInfo.image != "" && !classInfo.loading
    }

    constructor()
      ensures Valid() && classInfo == InitialClassInfo()
    {
      classInfo := InitialClassInfo();
    }

    /** `fetchClassCharacter()` on the teacher page: with a token but an incomplete
        homeroom class, an error is shown and no request is made. */
    method FetchClassCharacter(token: Option<string>, user: Option<Profile>,
                               reply: Outcome<CharacterData>)
      returns (query: Option<ClassQuery>)
      requires Valid()
      modifies this`classInfo
      ensures Valid()
      ensures query == (if Present(token) then TeacherClassQuery(user) else None)
      ensures !Present(token) ==> classInfo == old(classInfo)
      ensures Present(token) && query.None? ==> classInfo == old(classInfo).(error := MSG_NO_CLASS)
      ensures query.Some? && reply.Done? ==> classInfo == FromCharacterData(reply.value)
      ensures query.Some? && reply.Failed? ==> classInfo == FailedClassInfo(reply.error)
    {
      if !Present(token) {
        return None;
      }
      query := TeacherClassQuery(user);
      if query.None? {
        classInfo := classInfo.(error := MSG_NO_CLASS);
        return;
      }
      classInfo := classInfo.(loading := true, error := "");
      match reply {
        case Done(data) => classInfo := FromCharacterData(data);
        case Failed(e) => classInfo := FailedClassInfo(e);
      }
    }
  }

  /** What `createMission` is sent. */
  datatype MissionPayload = MissionPayload(title: string, description: string,
                                           missionType: string, deadline: Option<string>)

  /** The payload built from the form fields: only an emergency carries a deadline. */
  function Payload(title: string, description: string, missionType: string, deadline: string)
    : (p: MissionPayload)
    ensures p.title == title && p.description == description
    ensures p.missionType == "emergency" || p.missionType == "regular"
    ensures p.missionType == "emergency" <==> missionType == "emergency"
    ensures p.deadline.Some? <==> missionType == "emergency"
    ensures p.deadline.Some? ==> p.deadline.value == deadline
  {
    if missionType == "emergency" then MissionPayload(title, description, "emergency", Some(deadline))
    else MissionPayload(title, description, "regular", None)
  }

  /** `isFormValid`: title and description are required; a deadline only for an
      emergency mission. */
  predicate FormValid(title: string, description: string, missionType: string, deadline: string)
    ensures FormValid(title, description, missionType, deadline) <==>
      Trim(title) != "" && Trim(description) != "" && (missionType != "emergency" || Trim(deadline) != "")
  {
    BlankIffTrimEmpty(title);
    BlankIffTrimEmpty(description);
    BlankIffTrimEmpty(deadline);
    !IsBlank(title) && !IsBlank(description) && (missionType != "emergency" || !IsBlank(deadline))
  }

  /** Every payload a valid form sends has a non-blank title and description, and a
      non-blank deadline exactly when it is an emergency. */
  lemma ValidFormPayload(title: string, description: string, missionType: string, deadline: string)
    requires FormValid(title, description, missionType, deadline)
    ensures var p := Payload(title, description, missionType, deadline);
      !IsBlank(p.title) && !IsBlank(p.description)
      && (p.deadline.Some? <==> p.missionType == "emergency")
      && (p.deadline.Some? ==> !IsBlank(p.deadline.value))
  {
  }

  /** The mission editor's form state. */
  class MissionEditor {
    var title: string
    var description: string
    var missionType: string
    var deadline: string

    constructor()
      ensures title == "" && description == "" && missionType == "regular" && deadline == ""
      ensures !IsFormValid()
    {
      title := "";
      description := "";
      missionType := "regular";
      deadline := "";
    }

    predicate IsFormValid()
      reads this
    {
      FormValid(title, description, missionType, deadline)
    }

    /** The field change handlers. */
    method Edit(newTitle: string, newDescription: string, newType: string, newDeadline: string)
      modifies this
      ensures title == newTitle && description == newDescription
      ensures missionType == newType && deadline == newDeadline
    {
      title := newTitle;
      description := newDescription;
      missionType := newType;
      deadline := newDeadline;
    }

    /** `handleSubmit`: `outcome` is the settled `createMission` call. `request` is
        what was sent, if anything; `created` says that `onMissionCreated` fired;
        `alert` is the message shown when the call failed. */
    method HandleSubmit(outcome: Outcome<()>)
      returns (request: Option<MissionPayload>, created: bool, alert: Option<string>)
      modifies this
      // an invalid form sends nothing and keeps its fields
      ensures !old(IsFormValid()) ==>
        request.None? && !created
        && title == old(title) && description == old(description)
        && missionType == old(missionType) && deadline == old(deadline)
      ensures old(IsFormValid()) ==>
        request == Some(Payload(old(title), old(description), old(missionType), old(deadline)))
      ensures created <==> old(IsFormValid()) && outcome.Done?
      ensures alert.Some? <==> old(IsFormValid()) && outcome.Failed?
      ensures alert.Some? ==> alert.value == MSG_CREATE_FAILED
      // a created mission clears the form; a failed one keeps it for another try
      ensures created ==>
        title == "" && description == "" && missionType == "regular" && deadline == ""
        && !IsFormValid()
      ensures request.Some? && !created ==>
        title == old(title) && description == old(description)
        && missionType == old(missionType) && deadline == old(deadline)
    {
      alert := None;
      if !IsFormValid() {
        return None, false, None;
      }
      request := Some(Payload(title, description, missionType, deadline));
      match outcome {
        case Done(_) =>
          title := "";
          description := "";
          missionType := "regular";
          deadline := "";
          created := true;
        case Failed(_) =>
          created := false;
          alert := Some(MSG_CREATE_FAILED);
      }
    }
  }
}
