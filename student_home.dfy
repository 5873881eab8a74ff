/** The student home page: the class character's level, image and progress bar
    derived from its coins, the class-character response turned into page state,
    and the daily and emergency mission lists. */
module StudentHome {
  import opened JsText
  import opened AuthContext
  import opened PageErrors

  const LEVEL_THRESHOLDS: seq<int> := [0, 10, 20, 30, 40, 50]
  const MAX_LEVEL: int := 5
  const MAX_LEVEL_PROGRESS: int := 100
  const CHARACTER_IMAGE_BASE: string := "http://api.hjun.kr/static/images"

  const MSG_CHARACTER_FAILED: string := "반 캐릭터 정보를 불러오지 못했습니다."
  const MSG_MISSIONS_FAILED: string := "미션을 불러오지 못했습니다."
  const MSG_EMERGENCY_FAILED: string := "긴급 미션을 불러오지 못했습니다."

  /** `getCharacterLevel(coin)`: `None` stands for a value that is not a number. */
  function GetCharacterLevel(coin: Option<real>): (level: int)
    ensures 1 <= level <= MAX_LEVEL
    ensures coin.None? || coin.value < 10.0 ==> level == 1
  {
    if coin.None? || coin.value < 0.0 then 1
    else if coin.value >= 40.0 then 5
    else if coin.value >= 30.0 then 4
    else if coin.value >= 20.0 then 3
    else if coin.value >= 10.0 then 2
    else 1
  }

  /** More coins never mean a lower level. */
  lemma LevelMonotone(a: real, b: real)
    requires a <= b
    ensures GetCharacterLevel(Some(a)) <= GetCharacterLevel(Some(b))
  {
  }

  /** The level of a non-negative coin count is the band of the threshold table
      that holds it; the last level is open-ended. */
  lemma LevelIsThresholdBand(coin: real)
    requires coin >= 0.0
    ensures var level := GetCharacterLevel(Some(coin));
      LEVEL_THRESHOLDS[level - 1] as real <= coin
      && (level == MAX_LEVEL || coin < LEVEL_THRESHOLDS[level] as real)
  {
  }

  /** `Math.min(Math.max(level, 1), 5)`. */
  function Clamp(level: int): (r: int)
    ensures 1 <= r <= MAX_LEVEL
    ensures 1 <= level <= MAX_LEVEL ==> r == level
    ensures level < 1 ==> r == 1
    ensures level > MAX_LEVEL ==> r == MAX_LEVEL
  {
    if level < 1 then 1 else if level > MAX_LEVEL then MAX_LEVEL else level
  }

  /** `getCharacterImageUrl(level)`: one image per clamped level. */
  function GetCharacterImageUrl(level: int): (r: string)
    ensures |r| == |CHARACTER_IMAGE_BASE| + 6
    ensures r[..|CHARACTER_IMAGE_BASE| + 1] == CHARACTER_IMAGE_BASE + "/"
    ensures r[|CHARACTER_IMAGE_BASE| + 1] == DigitChar(Clamp(level))
    ensures r[|CHARACTER_IMAGE_BASE| + 2..] == ".svg"
  {
    var r := CHARACTER_IMAGE_BASE + "/" + IntToDecimal(Clamp(level)) + ".svg";
    assert r[..|CHARACTER_IMAGE_BASE| + 1] == CHARACTER_IMAGE_BASE + "/";
    r
  }

  /** Levels clamp to the same image exactly when they clamp to the same level. */
  lemma ImageUrlIdentifiesLevel(a: int, b: int)
    ensures GetCharacterImageUrl(a) == GetCharacterImageUrl(b) <==> Clamp(a) == Clamp(b)
  {
    if GetCharacterImageUrl(a) == GetCharacterImageUrl(b) {
      var i := |CHARACTER_IMAGE_BASE| + 1;
      assert DigitChar(Clamp(a)) == GetCharacterImageUrl(a)[i];
      assert DigitValue(DigitChar(Clamp(a))) == Clamp(a);
      assert DigitValue(DigitChar(Clamp(b))) == Clamp(b);
    }
  }

  /** `LEVEL_THRESHOLDS[i]`, undefined outside the table. */
  function ThresholdAt(i: int): (r: Option<int>)
    ensures r.Some? <==> 0 <= i < |LEVEL_THRESHOLDS|
  {
    if 0 <= i < |LEVEL_THRESHOLDS| then Some(LEVEL_THRESHOLDS[i]) else None
  }

  /** The clamped level always has an end threshold, ten coins after its start, so
      the `MAX_LEVEL_PROGRESS` fallback for a missing end is never used. */
  lemma EveryBandIsTenWide(level: int)
    ensures ThresholdAt(Clamp(level)).Some? && ThresholdAt(Clamp(level) - 1).Some?
    ensures ThresholdAt(Clamp(level)).value - ThresholdAt(Clamp(level) - 1).value == 10
  {
  }

  function Min(a: real, b: real): real {
    if a <= b then a else b
  }

  function Max(a: real, b: real): real {
    if a >= b then a else b
  }

  /** `Math.round` on a non-negative value: the nearest integer, halves rounded up. */
  function Round(x: real): (n: int)
    requires x >= 0.0
    ensures n as real - 0.5 <= x < n as real + 0.5
  {
    (x + 0.5).Floor
  }

  /** What `getLevelProgress` returns. */
  datatype Progress = Progress(current: int, required: int, percent: real)

  /** `getLevelProgress(coin, level)`: the share of the level's band already covered. */
  function GetLevelProgress(coin: Option<real>, level: int): (p: Progress)
    ensures p.required == 100
    ensures 0.0 <= p.percent <= 100.0 && 0 <= p.current <= 100
    ensures p.current as real - 0.5 <= p.percent < p.current as real + 0.5
  {
    var safeCoin := if coin.Some? && coin.value > 0.0 then coin.value else 0.0;
    var safeLevel := Clamp(level);
    var start := ThresholdAt(safeLevel - 1).GetOr(0);
    var end := ThresholdAt(safeLevel);
    var target: real := if end.Some? then (end.value - start) as real else MAX_LEVEL_PROGRESS as real;
    var raw := safeCoin - start as real;
    var bounded := Max(Min(raw, target), 0.0);
    var ratio := if target > 0.0 then Min(Max(bounded / target, 0.0), 1.0) else 0.0;
    Progress(Round(ratio * 100.0), 100, ratio * 100.0)
  }

  /** Progress is empty at or below the band's start, full at or above its end, and
      grows ten percent per coin in between. */
  lemma ProgressWithinBand(coin: real, level: int)
    ensures var start := LEVEL_THRESHOLDS[Clamp(level) - 1] as real;
      var p := GetLevelProgress(Some(coin), level);
      (coin <= start ==> p.percent == 0.0 && p.current == 0)
      && (coin >= start + 10.0 ==> p.percent == 100.0 && p.current == 100)
      && (start < coin < start + 10.0 ==> p.percent == (coin - start) * 10.0)
  {
    EveryBandIsTenWide(level);
  }

  /** With the level the coins themselves give, the bar shows the coins earned in
      the current band; only the last level's bar can stay full. */
  lemma ProgressOfOwnLevel(coin: real)
    requires coin >= 0.0
    ensures var level := GetCharacterLevel(Some(coin));
      var p := GetLevelProgress(Some(coin), level);
      level < MAX_LEVEL ==> p.percent == (coin - LEVEL_THRESHOLDS[level - 1] as real) * 10.0
                              && p.percent < 100.0
  {
    LevelIsThresholdBand(coin);
    ProgressWithinBand(coin, GetCharacterLevel(Some(coin)));
  }

  /** `missionTypeLabel(type)` on this page. */
  function MissionTypeLabel(missionType: string): (r: string)
    ensures r == "긴급 미션" <==> missionType == "emergency"
    ensures missionType != "emergency" ==> r == "기본 미션"
  {
    if missionType == "emergency" then "긴급 미션" else "기본 미션"
  }

  /** The `classInfo` state. */
  datatype ClassInfo = ClassInfo(loading: bool, error: string, coin: Option<real>, image: string,
                                 name: string, level: int)

  /** The state before any response: level 1 and its image. */
  function InitialClassInfo(): (c: ClassInfo)
    ensures c.image != "" && c.level == 1 && c.coin.None? && c.error == "" && !c.loading
  {
    ClassInfo(false, "", None, GetCharacterImageUrl(1), "", 1)
  }

  /** A class-character response: a coin and a level that are numbers or not, an
      image and a name that may be missing. */
  datatype CharacterData = CharacterData(coin: Option<real>, level: Option<int>,
                                         image: Option<string>, name: Option<string>)

  predicate HasImage(data: CharacterData) {
    Present(data.image) && !IsBlank(data.image.value)
  }

  /** The state after a successful class-character response. */
  function FromCharacterData(data: CharacterData): (c: ClassInfo)
    ensures !c.loading && c.error == "" && c.coin == data.coin && c.name == data.name.GetOr("")
    // a numeric level from the server wins over the level the coins give
    ensures data.level.Some? ==> c.level == data.level.value
    ensures data.level.None? ==> c.level == GetCharacterLevel(data.coin)
    // a non-blank image from the server wins over the level's image
    ensures HasImage(data) ==> c.image == data.image.value
    ensures !HasImage(data) ==> c.image == GetCharacterImageUrl(c.level)
    ensures c.image != ""
  {
    var level := data.level.GetOr(GetCharacterLevel(data.coin));
    var image := if HasImage(data) then data.image.value else GetCharacterImageUrl(level);
    ClassInfo(false, "", data.coin, image, data.name.GetOr(""), level)
  }

  /** The state after a failed class-character request. */
  function FailedClassInfo(e: RequestError): (c: ClassInfo)
    ensures c.error != ""
    ensures c == InitialClassInfo().(error := ErrorText(e, MSG_CHARACTER_FAILED))
  {
    ClassInfo(false, ErrorText(e, MSG_CHARACTER_FAILED), None, GetCharacterImageUrl(1), "", 1)
  }

  /** `classInfo.image || getCharacterImageUrl(characterLevel)`: the image shown. */
  function DisplayedImage(c: ClassInfo): (r: string)
    ensures r != ""
    ensures c.image != "" ==> r == c.image
  {
    if c.image != "" then c.image else GetCharacterImageUrl(c.level)
  }

  /** Every state the page stores carries its own image, so the shown image is the
      stored one. */
  lemma StoredImageIsShown(data: CharacterData, e: RequestError)
    ensures DisplayedImage(InitialClassInfo()) == InitialClassInfo().image
    ensures DisplayedImage(FromCharacterData(data)) == FromCharacterData(data).image
    ensures DisplayedImage(FailedClassInfo(e)) == GetCharacterImageUrl(1)
  {
  }

  /** The query a class-character request is made with. */
  datatype ClassQuery = ClassQuery(educationOfficeCode: string, schoolCode: string,
                                   grade: Scalar, classNumber: Scalar)

  /** The query the student page can make for a user, if any: it needs the codes,
      a grade and a class number, all truthy. */
  function StudentClassQuery(user: Option<Profile>): (q: Option<ClassQuery>)
    ensures q.Some? <==> user.Some? && Present(user.value.educationOfficeCode)
                         && Present(user.value.schoolCode)
                         && Truthy(GradeOf(user)) && Truthy(ClassOf(user))
    ensures q.Some? ==> q.value.grade == GradeOf(user).value
                        && q.value.classNumber == ClassOf(user).value
  {
    if user.None? then None
    else
      var edu := user.value.educationOfficeCode;
      var school := user.value.schoolCode;
      if !Present(edu) || !Present(school) then None
      else if !Truthy(GradeOf(user)) || !Truthy(ClassOf(user)) then None
      else Some(ClassQuery(edu.value, school.value, GradeOf(user).value, ClassOf(user).value))
  }

  /** A mission as the server sends it; every field may be missing. */
  datatype RawMission = RawMission(id: Option<Scalar>, title: Option<string>,
                                   description: Option<string>, missionType: Option<string>,
                                   deadline: Option<string>, classInfo: Option<Scalar>,
                                   completed: Option<Scalar>)

  /** A mission as the page keeps it. */
  datatype Mission = Mission(id: Option<Scalar>, title: Option<string>, description: Option<string>,
                             missionType: string, deadline: Option<string>,
                             classInfo: Option<Scalar>, completed: bool)

  /** A daily mission: its type defaults to "regular", `completed` becomes a boolean. */
  function NormalizeMission(m: RawMission): (r: Mission)
    ensures r.id == m.id && r.title == m.title && r.description == m.description
    ensures r.missionType != ""
    ensures Present(m.missionType) ==> r.missionType == m.missionType.value
    ensures !Present(m.missionType) ==> r.missionType == "regular"
    ensures r.completed <==> Truthy(m.completed)
  {
    Mission(m.id, m.title, m.description,
            if Present(m.missionType) then m.missionType.value else "regular",
            None, None, Truthy(m.completed))
  }

  /** An emergency mission: always typed "emergency", with its deadline and a class
      tag that is dropped when falsy. */
  function NormalizeEmergency(m: RawMission): (r: Mission)
    ensures r.id == m.id && r.title == m.title && r.description == m.description
    ensures r.missionType == "emergency" && r.deadline == m.deadline
    ensures Truthy(r.classInfo) == Truthy(m.classInfo) && (r.classInfo.Some? ==> Truthy(r.classInfo))
    ensures Truthy(m.classInfo) ==> r.classInfo == m.classInfo
    ensures !Truthy(m.classInfo) ==> r.classInfo == None
    ensures r.completed <==> Truthy(m.completed)
  {
    Mission(m.id, m.title, m.description, "emergency", m.deadline,
            if Truthy(m.classInfo) then m.classInfo else None, Truthy(m.completed))
  }

  /** `Array.isArray(data?.missions) ? data.missions : []`, then normalised one by
      one; `None` stands for a `missions` field that is not an array. */
  function DailyMissions(missions: Option<seq<RawMission>>): (r: seq<Mission>)
    ensures missions.None? ==> r == []
    ensures missions.Some? ==>
      |r| == |missions.value| && forall i :: 0 <= i < |r| ==> r[i] == NormalizeMission(missions.value[i])
  {
    if missions.None? then [] else seq(|missions.value|, i requires 0 <= i < |missions.value| =>
                                         NormalizeMission(missions.value[i]))
  }

  function EmergencyMissions(missions: Option<seq<RawMission>>): (r: seq<Mission>)
    ensures missions.None? ==> r == []
    ensures missions.Some? ==>
      |r| == |missions.value| && forall i :: 0 <= i < |r| ==> r[i] == NormalizeEmergency(missions.value[i])
  {
    if missions.None? then [] else seq(|missions.value|, i requires 0 <= i < |missions.value| =>
                                         NormalizeEmergency(missions.value[i]))
  }

  /** The two lists never mix: no daily mission without an explicit type is
      labelled an emergency, and every emergency mission is. */
  lemma MissionLabels(daily: Option<seq<RawMission>>, emergency: Option<seq<RawMission>>)
    ensures forall m :: m in DailyMissions(daily) ==> m.deadline.None?
    ensures forall m :: m in EmergencyMissions(emergency) ==>
      MissionTypeLabel(m.missionType) == "긴급 미션"
  {
  }

  class StudentHomePage {
    var classInfo: ClassInfo
    var missions: seq<Mission>
    var missionsLoading: bool
    var missionsError: string
    var emergencyMissions: seq<Mission>
    var emergencyLoading: bool
    var emergencyError: string

    /** The stored image is never empty, so the page always shows it. */
    predicate Valid()
      reads this
    {
      classInfo.image != "" && !classInfo.loading
    }

    constructor()
      ensures Valid() && classInfo == InitialClassInfo()
      ensures missions == [] && !missionsLoading && missionsError == ""
      ensures emergencyMissions == [] && !emergencyLoading && emergencyError == ""
    {
      classInfo := InitialClassInfo();
      missions := [];
      missionsLoading := false;
      missionsError := "";
      emergencyMissions := [];
      emergencyLoading := false;
      emergencyError := "";
    }

    /** `fetchClassCharacter()`: the request is made only with a token and a full
        query; `reply` is its settled outcome. `query` is the request made, if any. */
    method FetchClassCharacter(token: Option<string>, user: Option<Profile>,
                               reply: Outcome<CharacterData>)
      returns (query: Option<ClassQuery>)
      requires Valid()
      modifies this`classInfo
      ensures Valid()
      ensures query == (if Present(token) then StudentClassQuery(user) else None)
      ensures query.None? ==> classInfo == old(classInfo)
      ensures query.Some? && reply.Done? ==> classInfo == FromCharacterData(reply.value)
      ensures query.Some? && reply.Failed? ==> classInfo == FailedClassInfo(reply.error)
    {
      if !Present(token) {
        return None;
      }
      query := StudentClassQuery(user);
      if query.None? {
        return;
      }
      classInfo := classInfo.(loading := true, error := "");
      match reply {
        case Done(data) => classInfo := FromCharacterData(data);
        case Failed(e) => classInfo := FailedClassInfo(e);
      }
    }

    /** `fetchMissions()`: `reply` carries the `missions` field of the response. */
    method FetchMissions(token: Option<string>, reply: Outcome<Option<seq<RawMission>>>)
      modifies this`missions, this`missionsLoading, this`missionsError
      ensures !Present(token) ==>
        missions == old(missions) && missionsLoading == old(missionsLoading)
        && missionsError == old(missionsError)
      ensures Present(token) ==> !missionsLoading
      ensures Present(token) && reply.Done? ==>
        missions == DailyMissions(reply.value) && missionsError == ""
      ensures Present(token) && reply.Failed? ==>
        missions == [] && missionsError == ErrorText(reply.error, MSG_MISSIONS_FAILED)
        && missionsError != ""
    {
      if !Present(token) {
        return;
      }
      missionsLoading := true;
      missionsError := "";
      match reply {
        case Done(data) => missions := DailyMissions(data);
        case Failed(e) =>
          missionsError := ErrorText(e, MSG_MISSIONS_FAILED);
          missions := [];
      }
      missionsLoading := false;
    }

    /** `fetchEmergencyMissions()`. */
    method FetchEmergencyMissions(token: Option<string>, reply: Outcome<Option<seq<RawMission>>>)
      modifies this`emergencyMissions, this`emergencyLoading, this`emergencyError
      ensures !Present(token) ==>
        emergencyMissions == old(emergencyMissions) && emergencyLoading == old(emergencyLoading)
        && emergencyError == old(emergencyError)
      ensures Present(token) ==> !emergencyLoading
      ensures Present(token) && reply.Done? ==>
        emergencyMissions == EmergencyMissions(reply.value) && emergencyError == ""
      ensures Present(token) && reply.Failed? ==>
        emergencyMissions == [] && emergencyError == ErrorText(reply.error, MSG_EMERGENCY_FAILED)
        && emergencyError != ""
    {
      if !Present(token) {
        return;
      }
      emergencyLoading := true;
      emergencyError := "";
      match reply {
        case Done(data) => emergencyMissions := EmergencyMissions(data);
        case Failed(e) =>
          emergencyError := ErrorText(e, MSG_EMERGENCY_FAILED);
          emergencyMissions := [];
      }
      emergencyLoading := false;
    }
  }
}
