/** The profile page: the labelled entries built from the signed-in user, the
    one-line summary under the name, and which of the three screens is shown. */
module ProfilePage {
  import opened JsText
  import opened AuthContext

  const LABEL_NAME: string := "이름"
  const LABEL_SCHOOL: string := "학교"
  const LABEL_GRADE: string := "학년"
  const LABEL_CLASS: string := "반"
  const LABEL_NUMBER: string := "번호"
  const NAME_FALLBACK: string := "이름 없음"
  const MSG_ERROR: string := "프로필 정보를 불러오는 중 오류가 발생했습니다. 다시 시도해주세요."

  /** One `{ label, value }` entry (`caption` is its label); `None` is an `undefined` value. */
  datatype Entry = Entry(caption: string, value: Option<Scalar>)

  function AsScalar(s: Option<string>): (r: Option<Scalar>)
    ensures r.Some? <==> s.Some?
    ensures r.Some? ==> r.value == Str(s.value)
  {
    if s.Some? then Some(Str(s.value)) else None
  }

  /** `profileEntries`: name and school for everyone, then grade, class and number
      for a student. */
  function ProfileEntries(user: Option<Profile>): (r: seq<Entry>)
    ensures user.None? ==> r == []
    ensures user.Some? && !IsStudent(user.value) ==>
      r == [Entry(LABEL_NAME, AsScalar(user.value.name)), Entry(LABEL_SCHOOL, AsScalar(user.value.school))]
    ensures user.Some? && IsStudent(user.value) ==>
      |r| == 5
      && r[..2] == [Entry(LABEL_NAME, AsScalar(user.value.name)), Entry(LABEL_SCHOOL, AsScalar(user.value.school))]
      && r[2..] == [Entry(LABEL_GRADE, user.value.grade), Entry(LABEL_CLASS, user.value.klass),
                    Entry(LABEL_NUMBER, user.value.studentNumber)]
  {
    if user.None? then []
    else
      var p := user.value;
      var base := [Entry(LABEL_NAME, AsScalar(p.name)), Entry(LABEL_SCHOOL, AsScalar(p.school))];
      if IsStudent(p) then
        base + [Entry(LABEL_GRADE, p.grade), Entry(LABEL_CLASS, p.klass),
                Entry(LABEL_NUMBER, p.studentNumber)]
      else base
  }

  /** `entries.find((e) => e.label === label)?.value`: the first entry with the
      label, flattened with a missing entry into `None`. */
  function Find(entries: seq<Entry>, caption: string): (r: Option<Scalar>)
    ensures (forall i :: 0 <= i < |entries| ==> entries[i].caption != caption) ==> r.None?
    ensures entries != [] && entries[0].caption == caption ==> r == entries[0].value
    // the value of the first entry with the label, wherever it sits
    ensures forall i :: FirstWith(entries, caption, i) ==> r == entries[i].value
  {
    if entries == [] then None
    else if entries[0].caption == caption then entries[0].value
    else
      var r := Find(entries[1..], caption);
      assert forall i :: FirstWith(entries, caption, i) ==> FirstWith(entries[1..], caption, i - 1);
      r
  }

  /** Entry `i` is the first with the label. */
  predicate FirstWith(entries: seq<Entry>, caption: string, i: int) {
    0 <= i < |entries| && entries[i].caption == caption
    && forall j :: 0 <= j < i ==> entries[j].caption != caption
  }

  /** Each label appears at most once in the entries, so `find` reads back the
      user's own field. */
  lemma {:induction false} FindReadsUserFields(p: Profile)
    ensures var es := ProfileEntries(Some(p));
      Find(es, LABEL_NAME) == AsScalar(p.name)
      && Find(es, LABEL_SCHOOL) == AsScalar(p.school)
      && Find(es, LABEL_GRADE) == (if IsStudent(p) then p.grade else None)
      && Find(es, LABEL_CLASS) == (if IsStudent(p) then p.klass else None)
  {
    var es := ProfileEntries(Some(p));
    assert es[1..][0] == Entry(LABEL_SCHOOL, AsScalar(p.school));
    if IsStudent(p) {
      var rest := es[1..][1..];
      assert rest[0] == Entry(LABEL_GRADE, p.grade);
      assert rest[1..][0] == Entry(LABEL_CLASS, p.klass);
      assert Find(es, LABEL_CLASS) == Find(rest, LABEL_CLASS) == Find(rest[1..], LABEL_CLASS);
    } else {
      assert es[1..][1..] == [];
    }
  }

  /** `${grade}학년` when truthy, else "-"; likewise for the class with "반". */
  function Suffixed(x: Option<Scalar>, suffix: string): (r: string)
    ensures !Truthy(x) ==> r == "-"
    ensures Truthy(x) ==> r == ScalarText(x.value) + suffix
  {
    if Truthy(x) then ScalarText(x.value) + suffix else "-"
  }

  /** `detailInfo`: school (nullish fallback "-"), grade and class joined by " \t ". */
  function DetailInfo(entries: seq<Entry>): (r: string)
    ensures var school := Find(entries, LABEL_SCHOOL);
      r == (if school.Some? then ScalarText(school.value) else "-") + " \t "
           + Suffixed(Find(entries, LABEL_GRADE), "학년") + " \t "
           + Suffixed(Find(entries, LABEL_CLASS), "반")
  {
    var school := Find(entries, LABEL_SCHOOL);
    (if school.Some? then ScalarText(school.value) else "-") + " \t "
    + Suffixed(Find(entries, LABEL_GRADE), "학년") + " \t "
    + Suffixed(Find(entries, LABEL_CLASS), "반")
  }

  /** A teacher's summary never shows a grade or class, even with a homeroom. */
  lemma TeacherDetailHasNoClass(p: Profile)
    requires !IsStudent(p)
    ensures DetailInfo(ProfileEntries(Some(p))) ==
      (if p.school.Some? then p.school.value else "-") + " \t - \t -"
  {
    FindReadsUserFields(p);
  }

  /** A student's summary shows the school, "G학년" and "C반" from the profile. */
  lemma StudentDetail(p: Profile)
    requires IsStudent(p) && p.school.Some? && Truthy(p.grade) && Truthy(p.klass)
    ensures DetailInfo(ProfileEntries(Some(p))) ==
      p.school.value + " \t " + (ScalarText(p.grade.value) + "학년") + " \t "
      + (ScalarText(p.klass.value) + "반")
  {
    var es := ProfileEntries(Some(p));
    FindReadsUserFields(p);
    assert Find(es, LABEL_SCHOOL) == Some(Str(p.school.value));
    assert Suffixed(Find(es, LABEL_GRADE), "학년") == ScalarText(p.grade.value) + "학년";
    assert Suffixed(Find(es, LABEL_CLASS), "반") == ScalarText(p.klass.value) + "반";
  }

  /** The three screens of the page. */
  datatype Screen =
    | Loading
    | LoggedOut
    | Summary(name: string, detail: string, errorText: Option<string>)

  /** `name ?? "이름 없음"`: an empty name is shown as it is. */
  function NameDisplay(entries: seq<Entry>): (r: string)
    ensures Find(entries, LABEL_NAME).None? ==> r == NAME_FALLBACK
    ensures Find(entries, LABEL_NAME).Some? ==> r == ScalarText(Find(entries, LABEL_NAME).value)
  {
    var name := Find(entries, LABEL_NAME);
    if name.Some? then ScalarText(name.value) else NAME_FALLBACK
  }

  /** The branch choice: loading only while no user is known, the sign-in hint
      without a user, otherwise the summary, with the error line when `error` is set. */
  function ProfileScreen(user: Option<Profile>, isLoading: bool, error: Option<RequestError>): (s: Screen)
    ensures s.Loading? <==> isLoading && user.None?
    ensures s.LoggedOut? <==> !isLoading && user.None?
    ensures s.Summary? <==> user.Some?
    ensures s.Summary? ==>
      s.name == NameDisplay(ProfileEntries(user)) && s.detail == DetailInfo(ProfileEntries(user))
      && (s.errorText.Some? <==> error.Some?)
      && (s.errorText.Some? ==> s.errorText.value == MSG_ERROR)
  {
    if isLoading && user.None? then Loading
    else if user.None? then LoggedOut
    else
      var entries := ProfileEntries(user);
      Summary(NameDisplay(entries), DetailInfo(entries), if error.Some? then Some(MSG_ERROR) else None)
  }

  /** A user whose profile has no name is shown as "이름 없음". */
  lemma MissingNameFallsBack(p: Profile)
    requires p.name.None?
    ensures ProfileScreen(Some(p), false, None).name == NAME_FALLBACK
  {
    FindReadsUserFields(p);
  }
}
