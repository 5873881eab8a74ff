/** The timetable page: a selected date, the class whose timetable is asked for,
    the periods of that date, and the day's meals. */
module Timetable {
  import opened JsText
  import opened CivilDate
  import opened AuthContext
  import opened PageErrors

  const MSG_TIMETABLE_FAILED: string := "시간표 정보를 불러오지 못했습니다."
  const MSG_MEAL_FAILED: string := "급식 정보를 불러오지 못했습니다."

  /** `yyyymmdd`: the year, then the month and the day padded to two digits. */
  function Yyyymmdd(d: Date): (r: string)
    requires Valid(d)
    ensures |r| == |IntToDecimal(d.year)| + 4
  {
    IntToDecimal(d.year) + Pad2(d.month) + Pad2(d.day)
  }

  /** The key splits into the year's digits, then two digits each of month and day. */
  lemma YyyymmddParts(d: Date)
    requires Valid(d)
    ensures var r := Yyyymmdd(d);
      |r| == |IntToDecimal(d.year)| + 4
      && r[..|r| - 4] == IntToDecimal(d.year)
      && r[|r| - 4..|r| - 2] == Pad2(d.month) && r[|r| - 2..] == Pad2(d.day)
  {
    var r := Yyyymmdd(d);
    assert r[..|r| - 4] == IntToDecimal(d.year);
    assert r[|r| - 4..|r| - 2] == Pad2(d.month);
  }

  lemma YyyymmddInjective(a: Date, b: Date)
    requires Valid(a) && Valid(b) && Yyyymmdd(a) == Yyyymmdd(b)
    ensures a == b
  {
    YyyymmddParts(a);
    YyyymmddParts(b);
    IntToDecimalInjective(a.year, b.year);
    assert DecimalValue(Pad2(a.month)) == a.month;
    assert DecimalValue(Pad2(b.month)) == b.month;
    assert DecimalValue(Pad2(a.day)) == a.day;
    assert DecimalValue(Pad2(b.day)) == b.day;
  }

  /** `canRequestData`: both codes, a grade and a class number, all truthy. */
  predicate CanRequestData(user: Option<Profile>)
    ensures CanRequestData(user) ==> GradeOf(user).Some? && ClassOf(user).Some?
    ensures CanRequestData(user) ==> forall key :: MealQueryFor(user, key).Some?
  {
    user.Some? && Present(user.value.educationOfficeCode) && Present(user.value.schoolCode)
    && Truthy(GradeOf(user)) && Truthy(ClassOf(user))
  }

  /** One period of a timetable day. `teacherByClass` is the entries of the
      `teacher_by_class` object, in order, if the field is there. */
  datatype Period = Period(period: Option<Scalar>, subject: Option<string>, teacher: Option<string>,
                           teacherByClass: Option<seq<(string, string)>>)

  /** A day of the timetable response; `periods` is `None` when it is not an array. */
  datatype TimetableDay = TimetableDay(date: Option<string>, periods: Option<seq<Period>>)

  /** `timetableDays.find((item) => item.date === key)`, as an index. */
  function FindDay(days: seq<TimetableDay>, key: string): (r: Option<nat>)
    ensures r.Some? ==> r.value < |days| && days[r.value].date == Some(key)
                        && forall j :: 0 <= j < r.value ==> days[j].date != Some(key)
    ensures r.None? ==> forall j :: 0 <= j < |days| ==> days[j].date != Some(key)
  {
    if days == [] then None
    else if days[0].date == Some(key) then Some(0)
    else match FindDay(days[1..], key)
      case None => None
      case Some(i) => Some(i + 1)
  }

  /** `periods`: those of the first day with the selected key, else none. */
  function Periods(days: seq<TimetableDay>, key: string): (r: seq<Period>)
    ensures (forall j :: 0 <= j < |days| ==> days[j].date != Some(key)) ==> r == []
    ensures forall i :: 0 <= i < |days| && days[i].date == Some(key)
                        && (forall j :: 0 <= j < i ==> days[j].date != Some(key)) ==>
                        r == days[i].periods.GetOr([])
  {
    match FindDay(days, key)
    case None => []
    case Some(i) => days[i].periods.GetOr([])
  }

  /** `${klassLabel}: ${name}` for one `teacher_by_class` entry. */
  function EntryText(entry: (string, string)): (r: string)
    ensures |r| == |entry.0| + 2 + |entry.1|
  {
    entry.0 + ": " + entry.1
  }

  function EntryTexts(entries: seq<(string, string)>): (r: seq<string>)
    ensures |r| == |entries| && forall i :: 0 <= i < |r| ==> r[i] == EntryText(entries[i])
  {
    seq(|entries|, i requires 0 <= i < |entries| => EntryText(entries[i]))
  }

  /** The teacher line of a period: `teacher` when set, otherwise the class
      entries as "class: name" joined by ", ". */
  function TeacherText(p: Period): (r: string)
    ensures Present(p.teacher) ==> r == p.teacher.value
    ensures !Present(p.teacher) && p.teacherByClass.None? ==> r == ""
    ensures !Present(p.teacher) && p.teacherByClass.Some? ==>
      r == Join(EntryTexts(p.teacherByClass.value), ", ")
  {
    if Present(p.teacher) then p.teacher.value
    else if p.teacherByClass.Some? then Join(EntryTexts(p.teacherByClass.value), ", ")
    else ""
  }

  /** Joining non-empty parts gives a non-empty string. */
  lemma {:induction false} JoinNonEmpty(parts: seq<string>, sep: string)
    requires |parts| >= 1 && forall i :: 0 <= i < |parts| ==> parts[i] != ""
    ensures Join(parts, sep) != ""
  {
    if |parts| > 1 {
      assert |Join(parts, sep)| >= |parts[0]|;
    }
  }

  /** The teacher line is shown exactly when a teacher is named or the class
      entries are not empty. */
  lemma TeacherShownIff(p: Period)
    ensures TeacherText(p) != "" <==>
      Present(p.teacher) || (p.teacherByClass.Some? && p.teacherByClass.value != [])
  {
    if !Present(p.teacher) && p.teacherByClass.Some? && p.teacherByClass.value != [] {
      JoinNonEmpty(EntryTexts(p.teacherByClass.value), ", ");
    }
  }

  /** A meal response; each meal is `None` when it is not an array. */
  datatype MealData = MealData(breakfast: Option<seq<string>>, lunch: Option<seq<string>>,
                               dinner: Option<seq<string>>)

  datatype Meal = Meal(breakfast: seq<string>, lunch: seq<string>, dinner: seq<string>)

  /** `formattedMeal`: nothing without data, otherwise every meal as a list. */
  function FormattedMeal(data: Option<MealData>): (r: Option<Meal>)
    ensures r.None? <==> data.None?
    ensures r.Some? ==> r.value.breakfast == data.value.breakfast.GetOr([])
                        && r.value.lunch == data.value.lunch.GetOr([])
                        && r.value.dinner == data.value.dinner.GetOr([])
  {
    match data
    case None => None
    case Some(m) => Some(Meal(m.breakfast.GetOr([]), m.lunch.GetOr([]), m.dinner.GetOr([])))
  }

  datatype MealCard = MealCard(heading: string, items: seq<string>)

  function CardFor(heading: string, items: seq<string>): seq<MealCard> {
    if items == [] then [] else [MealCard(heading, items)]
  }

  /** The meal cards: one per non-empty meal, breakfast, lunch, dinner in order. */
  function MealCards(m: Meal): (r: seq<MealCard>)
    ensures |r| <= 3
    ensures forall i :: 0 <= i < |r| ==> r[i].items != []
    ensures r == [] <==> m.breakfast == [] && m.lunch == [] && m.dinner == []
    ensures m.breakfast != [] ==> r[0] == MealCard("아침", m.breakfast)
    ensures m.dinner != [] ==> r[|r| - 1] == MealCard("저녁", m.dinner)
    ensures MealCard("아침", m.breakfast) in r <==> m.breakfast != []
    ensures MealCard("점심", m.lunch) in r <==> m.lunch != []
    ensures MealCard("저녁", m.dinner) in r <==> m.dinner != []
    ensures forall c :: c in r ==> c in [MealCard("아침", m.breakfast), MealCard("점심", m.lunch), MealCard("저녁", m.dinner)]
    ensures m.lunch != [] ==> r[if m.breakfast != [] then 1 else 0] == MealCard("점심", m.lunch)
  {
    var b, l, d := CardFor("아침", m.breakfast), CardFor("점심", m.lunch), CardFor("저녁", m.dinner);
    assert forall c :: c in b + l + d <==> c in b || c in l || c in d;
    b + l + d
  }

  /** Every non-empty meal gets exactly one card, and nothing else does. */
  lemma MealCardCount(m: Meal)
    ensures |MealCards(m)| == (if m.breakfast != [] then 1 else 0) + (if m.lunch != [] then 1 else 0)
                              + (if m.dinner != [] then 1 else 0)
    ensures forall i, j :: 0 <= i < j < |MealCards(m)| ==> MealCards(m)[i].heading != MealCards(m)[j].heading
  {
  }

  /** What the meal section shows. */
  datatype MealSection = NoSchool | MealLoading | MealError(message: string) | Cards(cards: seq<MealCard>)
                       | NoMealRegistered | MealNotFound

  function MealSectionView(canRequest: bool, loading: bool, error: string, meal: Option<Meal>)
    : (v: MealSection)
    ensures !canRequest <==> v == NoSchool
    ensures v.Cards? ==> meal.Some? && v.cards != [] && v.cards == MealCards(meal.value)
    ensures v == NoMealRegistered <==> canRequest && !loading && error == "" && meal.Some?
                                       && MealCards(meal.value) == []
  {
    if !canRequest then NoSchool
    else if loading then MealLoading
    else if error != "" then MealError(error)
    else if meal.Some? then
      (var cards := MealCards(meal.value); if cards == [] then NoMealRegistered else Cards(cards))
    else MealNotFound
  }

  /** The timetable request's parameters. */
  datatype TimetableQuery = TimetableQuery(educationOfficeCode: string, schoolCode: string,
                                           grade: Scalar, classNumber: Scalar, date: string)

  datatype MealQuery = MealQuery(educationOfficeCode: string, schoolCode: string, date: string)

  /** The timetable request for a user and a date key, if the page can make one. */
  function TimetableQueryFor(user: Option<Profile>, key: string): (q: Option<TimetableQuery>)
    ensures q.Some? <==> CanRequestData(user)
    ensures q.Some? ==> q.value.date == key && q.value.grade == GradeOf(user).value
                        && q.value.classNumber == ClassOf(user).value
  {
    if !CanRequestData(user) then None
    else Some(TimetableQuery(user.value.educationOfficeCode.value, user.value.schoolCode.value,
                             GradeOf(user).value, ClassOf(user).value, key))
  }

  /** The meal request: it needs only the two codes. */
  function MealQueryFor(user: Option<Profile>, key: string): (q: Option<MealQuery>)
    ensures q.Some? <==>
      user.Some? && Present(user.value.educationOfficeCode) && Present(user.value.schoolCode)
    ensures q.Some? ==> q.value.date == key
  {
    if user.None? || !Present(user.value.educationOfficeCode) || !Present(user.value.schoolCode)
    then None
    else Some(MealQuery(user.value.educationOfficeCode.value, user.value.schoolCode.value, key))
  }

  class TimetablePage {
    var date: Date
    var timetableDays: seq<TimetableDay>
    var timetableError: string
    var isTimetableLoading: bool
    var mealData: Option<MealData>
    var mealError: string
    var isMealLoading: bool

    predicate Valid()
      reads this
    {
      CivilDate.Valid(date)
    }

    /** The page opens on `today`, which the browser clock supplies. */
    constructor(today: Date)
      requires CivilDate.Valid(today)
      ensures Valid() && date == today
      ensures timetableDays == [] && timetableError == "" && !isTimetableLoading
      ensures mealData == None && mealError == "" && !isMealLoading
    {
      date := today;
      timetableDays := [];
      timetableError := "";
      isTimetableLoading := false;
      mealData := None;
      mealError := "";
      isMealLoading := false;
    }

    /** `goPrevDate`: one calendar day back. */
    method GoPrevDate()
      requires Valid()
      modifies this`date
      ensures Valid() && date == PrevDay(old(date))
      ensures DayNumber(date) == DayNumber(old(date)) - 1
    {
      PrevDayNumber(date);
      date := PrevDay(date);
    }

    /** `goNextDate`: one calendar day forward. */
    method GoNextDate()
      requires Valid()
      modifies this`date
      ensures Valid() && date == NextDay(old(date))
      ensures DayNumber(date) == DayNumber(old(date)) + 1
    {
      NextDayNumber(date);
      date := NextDay(date);
    }

    /** The timetable effect: no request without both codes, a grade and a class;
        `reply` carries the settled response's `days` (`None` when not an array). */
    method LoadTimetable(user: Option<Profile>, reply: Outcome<Option<seq<TimetableDay>>>)
      returns (query: Option<TimetableQuery>)
      requires Valid()
      modifies this`timetableDays, this`timetableError, this`isTimetableLoading
      ensures query == TimetableQueryFor(user, DateKey())
      ensures query.None? ==>
        timetableDays == old(timetableDays) && timetableError == old(timetableError)
        && isTimetableLoading == old(isTimetableLoading)
      ensures query.Some? ==> !isTimetableLoading
      ensures query.Some? && reply.Done? ==>
        timetableDays == reply.value.GetOr([]) && timetableError == ""
      ensures query.Some? && reply.Failed? ==>
        timetableDays == [] && timetableError == ErrorText(reply.error, MSG_TIMETABLE_FAILED)
        && timetableError != ""
    {
      query := TimetableQueryFor(user, DateKey());
      if query.None? {
        return;
      }
      isTimetableLoading := true;
      timetableError := "";
      match reply {
        case Done(days) => timetableDays := days.GetOr([]);
        case Failed(e) =>
          timetableError := ErrorText(e, MSG_TIMETABLE_FAILED);
          timetableDays := [];
      }
      isTimetableLoading := false;
    }

    /** The meal effect. */
    method LoadMeal(user: Option<Profile>, reply: Outcome<Option<MealData>>)
      returns (query: Option<MealQuery>)
      requires Valid()
      modifies this`mealData, this`mealError, this`isMealLoading
      ensures query == MealQueryFor(user, DateKey())
      ensures query.None? ==>
        mealData == old(mealData) && mealError == old(mealError) && isMealLoading == old(isMealLoading)
      ensures query.Some? ==> !isMealLoading
      ensures query.Some? && reply.Done? ==> mealData == reply.value && mealError == ""
      ensures query.Some? && reply.Failed? ==>
        mealData == None && mealError == ErrorText(reply.error, MSG_MEAL_FAILED) && mealError != ""
    {
      query := MealQueryFor(user, DateKey());
      if query.None? {
        return;
      }
      isMealLoading := true;
      mealError := "";
      match reply {
        case Done(data) => mealData := data;
        case Failed(e) =>
          mealError := ErrorText(e, MSG_MEAL_FAILED);
          mealData := None;
      }
      isMealLoading := false;
    }

    /** The key of the selected date. */
    function DateKey(): string
      reads this
      requires Valid()
    {
      Yyyymmdd(date)
    }

    /** The periods listed for the selected date. */
    function ShownPeriods(): (r: seq<Period>)
      reads this
      requires Valid()
      ensures r != [] ==> exists i :: 0 <= i < |timetableDays| && timetableDays[i].date == Some(DateKey())
                                      && timetableDays[i].periods == Some(r)
    {
      Periods(timetableDays, DateKey())
    }
  }

  /** A meal request may be made for a user whose section then says the school is
      unknown: the meal needs only the codes, the section also a grade and class. */
  lemma MealFetchedButHidden()
    ensures var p := Profile(Some("student"), None, None, None, None, None, None, None,
                             Some("J10"), Some("7530000"));
      !CanRequestData(Some(p)) && MealSectionView(CanRequestData(Some(p)), false, "", None) == NoSchool
  {
  }
}
