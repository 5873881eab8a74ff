# Momento front end: a Dafny model of its pages, session store and API client

Momento is a React single-page application for a school. Students and teachers
sign in and see these pages:

- a home page with a class "character" that levels up with the coins the class earns;
- daily and emergency missions;
- a timetable with the day's school meals;
- a monthly calendar of personal events;
- a profile;
- for teachers, a class roster with a mission check and a draft of a student's record
  (생기부, the school record).

This project models, in Dafny:

- the REST client's pure parts: base-URL normalisation, URL building, and the
  response-or-error decision;
- the authentication store: the token mirrored into browser storage, the profile
  fetch, login and logout;
- the router's depth table and the animated page-transition wrapper;
- the logic of every page: form validation and step gates, the character level and
  progress bar, mission normalisation, the timetable's date key and periods, the meal
  cards, the calendar's six-week grid and event store, the profile summary, the
  roster's mission check, and the record draft.

The model captures the JavaScript semantics these depend on:

- truthiness, and `??` as opposed to `||`;
- `String.prototype.trim` with the ECMAScript whitespace set;
- `padStart`, and `Array.prototype.join`;
- `Date` arithmetic, as the proleptic Gregorian calendar with day numbers (the
  two-digit-year mapping and the range limit of `new Date(y, m, d)` are left out; see
  below).

Network calls are never made. Each operation that awaits the backend receives the
settled outcome as a parameter (`Outcome.Done(value)` or `Outcome.Failed(error)`).
React state is a class whose fields the handlers update.

Files and modules:

| file | module | models |
|---|---|---|
| text.dfy | JsText | JavaScript values and string functions the pages use |
| dates.dfy | CivilDate | `Date` as year/month/day, day numbers, weekday, `setDate` shifting |
| api.dfy | ApiClient | `src/services/api.js` |
| auth.dfy | AuthContext | `src/contexts/AuthContext.jsx` |
| page_errors.dfy | PageErrors | the error text the pages show for a failed call |
| app.dfy | App | `src/App.jsx` |
| login.dfy | LoginPage | `src/pages/LoginPage.jsx` |
| signup.dfy | SignUp | `src/pages/SignUpPage.jsx` |
| student_home.dfy | StudentHome | `src/pages/StudentHomePage.jsx` |
| teacher_home.dfy | TeacherHome | `src/pages/TeacherHomePage.jsx` |
| timetable.dfy | Timetable | `src/pages/TimetablePage.jsx` |
| calendar.dfy | Calendar | `src/pages/CalendarPage.jsx` |
| profile.dfy | ProfilePage | `src/pages/ProfilePage.jsx` |
| student_page.dfy | StudentPage | `src/pages/StudentPage.jsx` |
| student_record.dfy | StudentRecordPage | `src/pages/StudentRecordPage.jsx` |

The code behaves in several places in ways its description does not suggest. The model
follows the code, and lemmas or methods exhibit the behaviour:

- **Calendar events.** A calendar event is only `{ id, title }`. Categories, times and
  sorting are not in the code.
- **Last level band.** The threshold table `[0, 10, 20, 30, 40, 50]` gives the last
  level a 10-coin band, not an open one (`StudentHome.EveryBandIsTenWide`).
- **Sign-up step order.** The form renders the school input at step 1 and the id input
  at step 2. The step-1 gate, however, is "a checked, valid id". Through the rendered
  inputs, a form whose id has not been validated never leaves step 1
  (`SignUp.SignUpForm.Interact`).
- **Stale token at login.** `login` calls the `fetchProfile` of the previous render.
  A login reply without `access_token` therefore fetches the profile with the token
  held before. The session then ends up with a user but no token, and the stored
  token is erased, since the missing token is persisted as a removal
  (`AuthContext.StaleTokenLogin`).
- **Transition stuck in "exiting".** Navigating away and back before the 350 ms
  swap timer fires cancels the swap. It does not reset the "exiting" stage, so the
  wrapper keeps its exit animation with no timer left to end it
  (`App.ReturnBeforeSwap`). This is a property of `AnimatedPage` on its own. As
  `src/App.jsx` wires it, each path mounts a fresh wrapper, so no transition starts and
  the app never reaches this state (see "## Left out").
- **Unrouted detail path.** The roster navigates to `/teacher/students/<id>`, which no
  route matches and whose depth counts as 0 (`StudentPage.DetailPathsUnrouted`).
- **Record page mission label.** The roster's navigation state carries no mission, so
  the record draft always shows the mission fallback
  (`StudentRecordPage.DetailStateLabels`).
- **Meal fetched but hidden.** The meal request needs only the two school codes. The
  meal section also needs a grade and a class, so a meal can be fetched and then never
  shown (`Timetable.MealFetchedButHidden`).
- **Teacher's profile summary.** A teacher's profile summary never shows a grade or a
  class (`ProfilePage.TeacherDetailHasNoClass`).

## Model

| member | source | states |
|---|---|---|
| JsText.Trim | src/services/api.js:4 | the result has no whitespace at either end and is no longer than the input |
| JsText.TrimIsSlice | src/services/api.js:4 | trimming only removes whitespace, and only from the two ends: the result is a slice `s[i..j]` with whitespace outside it |
| JsText.BlankIffTrimEmpty | src/pages/LoginPage.jsx:16 | a string is blank (all whitespace) exactly when `trim()` leaves nothing |
| JsText.TrimIdempotent | src/pages/CalendarPage.jsx:307 | trimming twice is trimming once |
| JsText.TrimFixesTrimmed | src/pages/CalendarPage.jsx:307 | `trim()` leaves a string unchanged exactly when it has no whitespace at either end |
| JsText.Join | src/pages/StudentRecordPage.jsx:143-156 | joining no parts gives "", joining one part gives that part |
| JsText.CountZeroIffAbsent | src/pages/StudentRecordPage.jsx:156 | a character's count is zero exactly when it does not occur |
| JsText.JoinSeparatorCount | src/pages/StudentRecordPage.jsx:156 | joining k parts that hold no separator puts exactly k - 1 separators in the result |
| JsText.NatToDecimal | src/pages/CalendarPage.jsx:238 | `n.toString()`: only digits, no leading zero, reads back as n, one digit exactly below 10 |
| JsText.NatToDecimalInjective | src/pages/CalendarPage.jsx:238 | different numbers give different decimal strings |
| JsText.IntToDecimal | src/pages/CalendarPage.jsx:241 | a negative number is "-" followed by the digits of its absolute value |
| JsText.IntToDecimalInjective | src/pages/CalendarPage.jsx:241 | different integers give different strings |
| JsText.PadStart2 | src/pages/CalendarPage.jsx:238 | `padStart(2, "0")`: a string of two or more characters is kept, a shorter one gets leading zeros up to length 2 |
| JsText.Pad2 | src/pages/CalendarPage.jsx:237-239 | `pad2(n)` for n < 100 is exactly two digits that read back as n |
| CivilDate.DaysInMonth | src/pages/CalendarPage.jsx:284-288 | every month has 28 to 31 days |
| CivilDate.Weekday | src/pages/CalendarPage.jsx:279 | `getDay()` is in 0..6 |
| CivilDate.WeekdayAnchors | src/pages/CalendarPage.jsx:248 | 1970-01-01 is a Thursday, and 2025-10-01, the page's first month, starts on a Wednesday |
| CivilDate.LeapDayStep | src/pages/TimetablePage.jsx:345-349 | the leap-day count grows by one exactly after a leap year (divisible by 4, and by 400 when divisible by 100) |
| CivilDate.YearLength | src/pages/TimetablePage.jsx:345-349 | a year spans 366 day numbers when it is a leap year and 365 otherwise |
| CivilDate.NextDayNumber | src/pages/TimetablePage.jsx:345-349 | `setDate(getDate() + 1)` moves the day count by exactly one, across month and year ends |
| CivilDate.PrevDayNumber | src/pages/TimetablePage.jsx:339-343 | `setDate(getDate() - 1)` moves the day count back by exactly one |
| CivilDate.PrevOfNext | src/pages/TimetablePage.jsx:339-349 | the previous-day button undoes the next-day button |
| CivilDate.NextOfPrev | src/pages/TimetablePage.jsx:339-349 | the next-day button undoes the previous-day button |
| CivilDate.AddDaysNumber | src/pages/CalendarPage.jsx:286-287 | `setDate(start.getDate() + i)` moves the day count by exactly i |
| CivilDate.AddDaysCompose | src/pages/CalendarPage.jsx:286-287 | moving by a days and then b days is moving by a + b days |
| CivilDate.AddDaysWithinMonth | src/pages/CalendarPage.jsx:286-287 | inside one month, moving forward changes only the day of the month |
| CivilDate.AddDaysBackWithinMonth | src/pages/CalendarPage.jsx:281 | inside one month, moving back changes only the day of the month |
| ApiClient.DefaultBaseUrl | src/services/api.js:1 | the default base is non-empty, and either a root-relative path or an https URL |
| ApiClient.StripTrailingSlash | src/services/api.js:10 | `replace(/\/$/, "")` removes exactly one trailing slash, if there is one |
| ApiClient.NormalizeTrimmed | src/services/api.js:9-17 | a trimmed, non-empty input never normalises to the empty string |
| ApiClient.NormalizeTrimmedCases | src/services/api.js:9-17 | a path keeps its leading "/" ("/" stays "/"); an http(s) URL in any letter case loses one trailing slash; anything else gets "https://" and loses one trailing slash |
| ApiClient.StripKeepsScheme | src/services/api.js:13-15 | removing the trailing slash keeps an http(s) scheme unless the value is a bare scheme |
| ApiClient.NormalizeUntrimmed | src/services/api.js:4-8 | a value with no whitespace at either end skips the default and goes straight to the three branches |
| ApiClient.NormalizeRooted | src/services/api.js:9-11 | a root-relative path ending in "/" loses exactly that slash |
| ApiClient.NormalizeBaseUrl | src/services/api.js:3-18 | a missing or blank value gives the default, anything else is normalised after trimming; the result is never empty |
| ApiClient.NormalizedIsRootedOrAbsolute | src/services/api.js:3-20 | every base URL is root-relative or keeps an http(s) scheme, except a configured bare scheme, which loses its last slash |
| ApiClient.NormalizeNotIdempotent | src/services/api.js:10 | normalising twice can differ from normalising once: a path ending in "//", such as "/a//", loses one slash each time and so changes again |
| ApiClient.BuildUrl | src/services/api.js:22-27 | an error exactly when the path does not start with "/", otherwise the base followed by the path |
| ApiClient.ReadBody | src/services/api.js:30-32 | the body is read as JSON exactly when the content type mentions application/json |
| ApiClient.ParseResponse | src/services/api.js:29-44 | the body exactly for status 200-299; otherwise an error with the status, the body, and the JSON `message` when it is truthy, else the fixed fallback message |
| PageErrors.ErrorText | src/pages/StudentHomePage.jsx:395-398 | a JSON body's message wins, then the error's own message, then the page's fallback; never empty when the fallback is not |
| PageErrors.HttpErrorTextIsServerText | src/pages/StudentHomePage.jsx:395-398 | for an error that `parseResponse` raised, the page's text is the error message, and the page's own fallback never shows |
| AuthContext.GradeOf | src/pages/TimetablePage.jsx:218-222 | a student's `grade`, anyone else's `homeroomGrade`, nothing without a user |
| AuthContext.ClassOf | src/pages/TimetablePage.jsx:224-228 | a student's `class`, anyone else's `homeroomClass`, nothing without a user |
| AuthContext.ReadStoredToken | src/contexts/AuthContext.jsx:13-21 | the token under "mithon_access_token", or none when the key is missing or storage cannot be read |
| AuthContext.Persisted | src/contexts/AuthContext.jsx:23-34 | a truthy token is stored under the key and a falsy one removes it; unreadable storage is unchanged; other keys are untouched |
| AuthContext.ReadAfterPersist | src/contexts/AuthContext.jsx:13-34 | reading back after persisting gives the token when it was truthy and nothing otherwise |
| AuthContext.ActiveToken | src/contexts/AuthContext.jsx:46 | the override token when it is a non-empty string, otherwise the current token |
| AuthContext.AuthProvider.constructor | src/contexts/AuthContext.jsx:39-42 | the token is read from storage; no user, not loading, no error |
| AuthContext.AuthProvider.IsAuthenticated | src/contexts/AuthContext.jsx:121 | authenticated only with a non-empty token and a loaded user |
| AuthContext.AuthProvider.PersistToken | src/contexts/AuthContext.jsx:23-34 | the storage becomes `Persisted` of the old storage |
| AuthContext.AuthProvider.FetchProfileWith | src/contexts/AuthContext.jsx:44-80 | no usable token clears the user and requests nothing; success sets the user and clears the error; failure records the error, clears the user and is rethrown; only a 401 forgets the token, in state and in storage |
| AuthContext.AuthProvider.FetchProfile | src/contexts/AuthContext.jsx:44-80 | with the current token: on success the user is the profile, the stored token is kept, and the session is authenticated exactly when a token is held; on failure the error is recorded, the session is not authenticated, and the token and stored key are removed exactly on a 401; without a token nothing but the user changes |
| AuthContext.AuthProvider.TokenEffect | src/contexts/AuthContext.jsx:82-90 | with a token the profile is fetched: success sets the user and authenticates, a failure records the error, and only a 401 drops the token and the stored key; without a token only the user is cleared; loading ends either way |
| AuthContext.AuthProvider.Login | src/contexts/AuthContext.jsx:92-103 | a rejected login changes nothing; otherwise the returned token is persisted (a missing one removes the stored key) and set, and the profile is requested with it, falling back to the token held before; only a 401 on that fetch removes the stored token again |
| AuthContext.AuthProvider.Logout | src/contexts/AuthContext.jsx:105-110 | token, user and stored token are cleared, the session is not authenticated, and the redirect is "/" |
| AuthContext.StaleTokenLogin | src/contexts/AuthContext.jsx:92-103 | with a token stored, a login reply without a token requests the profile with the old token and ends with a user but not authenticated, and with the stored token erased |
| App.RouteDepth | src/App.jsx:112-113 | the table's depth, 0 for a path missing from the table, never above 3 |
| App.RoutesHaveDepths | src/App.jsx:152-164 | the routed paths are exactly the paths with a depth |
| App.OnlyWelcomeIsShallowest | src/App.jsx:90-100 | among routed paths, only the welcome page has depth 0 |
| App.StudentDetailPathUnrouted | src/pages/StudentPage.jsx:155 | the roster's detail path has no route and depth 0 |
| App.DirectionOf | src/App.jsx:112-116 | forward exactly when the new page is strictly deeper |
| App.DirectionReverses | src/App.jsx:112-116 | forward one way is backward the other way; pages of equal depth are backward both ways |
| App.SameDepthIsBackward | src/App.jsx:114 | switching between /home and /calendar slides backward both ways |
| App.AnimationFor | src/App.jsx:72-77 | exiting uses a slide-out and entering a slide-in, to the left when forward and to the right when backward |
| App.AnimationFollowsDirection | src/App.jsx:72-77 | both halves of a transition move left exactly when it is forward |
| App.Render | src/App.jsx:134-145 | the animated wrapper is rendered exactly when the stage is not idle, keyed by the shown path |
| App.AnimatedPage.constructor | src/App.jsx:104-107 | the current location is shown, idle, with no timer pending |
| App.AnimatedPage.Navigate | src/App.jsx:109-128 | the cleanup cancels a pending swap; a transition starts exactly when the path differs from the shown one, with the depth direction and the exiting stage |
| App.AnimatedPage.SwapTimerFires | src/App.jsx:119-122 | the new location is shown, entering, and an idle timer is set |
| App.AnimatedPage.IdleTimerFires | src/App.jsx:123-125 | the stage returns to idle |
| App.RunTransition | src/App.jsx:109-128 | an uninterrupted change runs exiting, entering, idle and ends plain, showing the new path |
| App.ReturnBeforeSwap | src/App.jsx:109-128 | returning before the swap timer leaves the wrapper exiting, with no timer to end it |
| LoginPage.FormValid | src/pages/LoginPage.jsx:16 | valid exactly when both trimmed fields are non-empty |
| LoginPage.FormValidIff | src/pages/LoginPage.jsx:16 | the form is valid exactly when each field holds a non-whitespace character |
| LoginPage.CheckFields | src/pages/LoginPage.jsx:21-28 | a blank id is reported first; a blank password only after the id passes; proceed exactly when the form is valid |
| LoginPage.LoginForm.constructor | src/pages/LoginPage.jsx:9-14 | empty fields, no errors, password hidden, the form invalid |
| LoginPage.LoginForm.HandleIdChange | src/pages/LoginPage.jsx:42-45 | sets the id and clears only the id error |
| LoginPage.LoginForm.HandlePasswordChange | src/pages/LoginPage.jsx:47-50 | sets the password and clears only the password error |
| LoginPage.LoginForm.TogglePassword | src/pages/LoginPage.jsx:85 | flips the password visibility |
| LoginPage.LoginForm.HandleLogin | src/pages/LoginPage.jsx:18-40 | the success callback runs exactly when the fields pass; each missing field sets only its own message; a throwing callback raises the failure alert; no submission stays in flight |
| SignUp.ValidatePassword | src/pages/SignUpPage.jsx:34-45 | no message exactly when the password has 8+ characters and a special one; the length message takes precedence |
| SignUp.ConfirmError | src/pages/SignUpPage.jsx:113-121 | the mismatch message exactly when the confirmation is non-empty and differs |
| SignUp.RenderedInputs | src/pages/SignUpPage.jsx:176-306 | the id input and its check button are on screen exactly at step 2 |
| SignUp.SignUpForm.PasswordValid | src/pages/SignUpPage.jsx:47-56 | when it holds, the password and its confirmation both pass the policy and no mismatch is reported |
| SignUp.SignUpForm.CanSubmit | src/pages/SignUpPage.jsx:58-72 | the gate only opens at steps 0 to 3; at step 2 the password passes the policy, at step 3 the trimmed nickname is non-empty |
| SignUp.SignUpForm.PasswordValidIff | src/pages/SignUpPage.jsx:47-56 | in reachable states the password gate is the policy plus a matching, non-empty confirmation |
| SignUp.SignUpForm.constructor | src/pages/SignUpPage.jsx:18-32 | step 0 with empty fields and flags |
| SignUp.SignUpForm.SelectRole | src/pages/SignUpPage.jsx:191 | sets the role |
| SignUp.SignUpForm.SetNickname | src/pages/SignUpPage.jsx:227 | the step-1 school input writes `nickname` |
| SignUp.SignUpForm.CheckIdDuplicate | src/pages/SignUpPage.jsx:74-90 | a blank id gives "enter an id"; an id shorter than 2 is invalid; otherwise the id is valid and checked |
| SignUp.SignUpForm.HandleIdChange | src/pages/SignUpPage.jsx:92-98 | a new id is unchecked and invalid, with no error |
| SignUp.SignUpForm.HandlePasswordChange | src/pages/SignUpPage.jsx:100-111 | re-validates the password and re-compares the confirmation |
| SignUp.SignUpForm.HandlePasswordConfirmChange | src/pages/SignUpPage.jsx:113-121 | the mismatch message exactly when the new confirmation is non-empty and differs |
| SignUp.SignUpForm.HandleNext | src/pages/SignUpPage.jsx:123-174 | a closed gate does nothing; steps advance one at a time through open gates; step 1 stops on a blank or unchecked id; sign-up completes exactly on a step-3 submit |
| SignUp.SignUpForm.Interact | src/pages/SignUpPage.jsx:176-306 | an event on an input not on screen changes nothing; without a validated id the form never leaves step 1 |
| StudentHome.GetCharacterLevel | src/pages/StudentHomePage.jsx:17-24 | the level is 1 to 5, and 1 for a non-number or fewer than 10 coins |
| StudentHome.LevelMonotone | src/pages/StudentHomePage.jsx:17-24 | more coins never give a lower level |
| StudentHome.LevelIsThresholdBand | src/pages/StudentHomePage.jsx:10-24 | a coin count's level is the threshold band that holds it |
| StudentHome.Clamp | src/pages/StudentHomePage.jsx:27 | `Math.min(Math.max(level, 1), 5)` is within 1..5 and is the identity inside it |
| StudentHome.GetCharacterImageUrl | src/pages/StudentHomePage.jsx:26-30 | the base URL, "/", the clamped level's digit, ".svg" |
| StudentHome.ImageUrlIdentifiesLevel | src/pages/StudentHomePage.jsx:26-30 | two levels get the same image exactly when they clamp to the same level |
| StudentHome.ThresholdAt | src/pages/StudentHomePage.jsx:35-36 | an index outside the threshold table is undefined |
| StudentHome.EveryBandIsTenWide | src/pages/StudentHomePage.jsx:35-38 | every clamped level has an end threshold 10 coins after its start, so the 100-coin fallback is never used |
| StudentHome.Round | src/pages/StudentHomePage.jsx:44 | `Math.round` on a non-negative value is within half of it |
| StudentHome.GetLevelProgress | src/pages/StudentHomePage.jsx:32-50 | required is 100; percent is in 0..100; current is percent rounded |
| StudentHome.ProgressWithinBand | src/pages/StudentHomePage.jsx:32-50 | empty at or below the band's start, full at or above its end, 10% per coin in between |
| StudentHome.ProgressOfOwnLevel | src/pages/StudentHomePage.jsx:345-351 | with the level the coins give, below level 5 the bar shows the coins earned in the band and is never full |
| StudentHome.MissionTypeLabel | src/pages/StudentHomePage.jsx:64-65 | "긴급 미션" exactly for "emergency", otherwise "기본 미션" |
| StudentHome.InitialClassInfo | src/pages/StudentHomePage.jsx:311-318 | level 1, its image, no coin, no error, not loading |
| StudentHome.FromCharacterData | src/pages/StudentHomePage.jsx:373-389 | a numeric server level wins over the coins' level; a non-blank server image wins over the level's image; the image is never empty |
| StudentHome.FailedClassInfo | src/pages/StudentHomePage.jsx:391-403 | the initial state with a non-empty error text |
| StudentHome.StoredImageIsShown | src/pages/StudentHomePage.jsx:346-347 | every stored state carries its own image, so that image is the one shown |
| StudentHome.DisplayedImage | src/pages/StudentHomePage.jsx:346-347 | the image source is never empty, and a stored image wins over the level's image |
| StudentHome.StudentClassQuery | src/pages/StudentHomePage.jsx:354-371 | a request is made exactly with both codes and a truthy grade and class, using the role-dependent grade and class |
| StudentHome.NormalizeMission | src/pages/StudentHomePage.jsx:416-422 | the type defaults to "regular", `completed` is the truthiness of the field, other fields are kept |
| StudentHome.NormalizeEmergency | src/pages/StudentHomePage.jsx:448-456 | the type is always "emergency", the deadline is kept, a truthy class tag is kept unchanged and a falsy one is dropped |
| StudentHome.DailyMissions | src/pages/StudentHomePage.jsx:414-424 | a non-array gives [], otherwise one normalised mission per element, in order |
| StudentHome.EmergencyMissions | src/pages/StudentHomePage.jsx:446-458 | a non-array gives [], otherwise one normalised emergency mission per element, in order |
| StudentHome.MissionLabels | src/pages/StudentHomePage.jsx:414-458 | daily missions carry no deadline, and every emergency mission is labelled "긴급 미션" |
| StudentHome.StudentHomePage.constructor | src/pages/StudentHomePage.jsx:311-325 | the initial class info, empty mission lists, not loading, no errors |
| StudentHome.StudentHomePage.FetchClassCharacter | src/pages/StudentHomePage.jsx:354-405 | without a token or a full query nothing changes; otherwise the state follows the response or the failure |
| StudentHome.StudentHomePage.FetchMissions | src/pages/StudentHomePage.jsx:407-437 | without a token nothing changes; otherwise the normalised list or [] with a non-empty error, and not loading |
| StudentHome.StudentHomePage.FetchEmergencyMissions | src/pages/StudentHomePage.jsx:439-471 | the same for the emergency list |
| TeacherHome.MissionTypeLabel | src/pages/TeacherHomePage.jsx:65-66 | "긴급 미션" exactly for "emergency", otherwise "일반 미션" |
| TeacherHome.LabelsDifferOnlyForRegular | src/pages/TeacherHomePage.jsx:65-66 | the teacher and student pages agree on a label exactly for "emergency" |
| TeacherHome.TeacherClassQuery | src/pages/TeacherHomePage.jsx:437-454 | a request exactly with both codes and a truthy homeroom grade and class, whatever the role |
| TeacherHome.TeacherQueryMatchesStudentPage | src/pages/TeacherHomePage.jsx:422-425 | for a teacher, the two home pages ask for the same class |
| TeacherHome.TeacherHomePage.constructor | src/pages/TeacherHomePage.jsx:408-415 | the initial class info |
| TeacherHome.TeacherHomePage.FetchClassCharacter | src/pages/TeacherHomePage.jsx:437-488 | with a token but an incomplete homeroom class, an error is set and nothing is requested; otherwise like the student page |
| TeacherHome.Payload | src/pages/TeacherHomePage.jsx:346-351 | title and description are kept; the type is "emergency" or "regular"; a deadline is sent exactly for an emergency |
| TeacherHome.FormValid | src/pages/TeacherHomePage.jsx:337-340 | valid exactly when the trimmed title and description are non-empty and, for an emergency, the trimmed deadline is too |
| TeacherHome.ValidFormPayload | src/pages/TeacherHomePage.jsx:337-351 | a valid form sends a non-blank title and description, and a non-blank deadline exactly for an emergency |
| TeacherHome.MissionEditor.constructor | src/pages/TeacherHomePage.jsx:331-334 | empty fields, type "regular", form invalid |
| TeacherHome.MissionEditor.Edit | src/pages/TeacherHomePage.jsx:331-334 | the change handlers set the fields |
| TeacherHome.MissionEditor.HandleSubmit | src/pages/TeacherHomePage.jsx:342-362 | an invalid form sends nothing; a created mission clears the form; a failure keeps the fields and raises the alert |
| Timetable.Yyyymmdd | src/pages/TimetablePage.jsx:233-238 | the key is four characters longer than the year's digits; its layout and injectivity are in the two lemmas below |
| Timetable.YyyymmddParts | src/pages/TimetablePage.jsx:233-238 | the key is the year's digits followed by the month and the day, two digits each |
| Timetable.YyyymmddInjective | src/pages/TimetablePage.jsx:233-238 | different dates have different keys |
| Timetable.FindDay | src/pages/TimetablePage.jsx:324 | the first day whose date equals the key, or none |
| Timetable.Periods | src/pages/TimetablePage.jsx:322-327 | the periods of the first day with the key (none when not an array), or [] when no day matches |
| Timetable.EntryTexts | src/pages/TimetablePage.jsx:395-396 | one "class: name" text per `teacher_by_class` entry, in order |
| Timetable.TeacherText | src/pages/TimetablePage.jsx:393-399 | the teacher when set, else the class entries joined by ", ", else "" |
| Timetable.JoinNonEmpty | src/pages/TimetablePage.jsx:397 | joining non-empty parts gives a non-empty string |
| Timetable.TeacherShownIff | src/pages/TimetablePage.jsx:393-407 | the teacher line is shown exactly when a teacher is named or the class entries are not empty |
| Timetable.FormattedMeal | src/pages/TimetablePage.jsx:329-337 | nothing without data, otherwise each meal as given or [] when not an array |
| Timetable.MealCards | src/pages/TimetablePage.jsx:427-447 | a meal's card, headed 아침, 점심 or 저녁 and holding that meal's own items, is present exactly when the meal is non-empty; there is no other card; the order is breakfast, lunch, dinner; no cards exactly when all meals are empty |
| Timetable.MealCardCount | src/pages/TimetablePage.jsx:432-447 | the number of cards is the number of non-empty meals, and no two cards share a heading, so each non-empty meal has exactly one card |
| Timetable.MealSectionView | src/pages/TimetablePage.jsx:418-460 | "no school" exactly when the data cannot be requested; cards are the meal cards; "nothing registered" exactly for a loaded meal without cards |
| Timetable.CanRequestData | src/pages/TimetablePage.jsx:351-353 | when it holds there is a grade and a class, and the meal can be requested for any date |
| Timetable.TimetableQueryFor | src/pages/TimetablePage.jsx:240-258 | a request exactly when `canRequestData`, for the selected key and the role-dependent grade and class |
| Timetable.MealQueryFor | src/pages/TimetablePage.jsx:282-296 | a request exactly with both codes, for the selected key |
| Timetable.TimetablePage.constructor | src/pages/TimetablePage.jsx:209-216 | today's date, no data, no errors, not loading |
| Timetable.TimetablePage.GoPrevDate | src/pages/TimetablePage.jsx:339-343 | the previous calendar day |
| Timetable.TimetablePage.GoNextDate | src/pages/TimetablePage.jsx:345-349 | the next calendar day |
| Timetable.TimetablePage.LoadTimetable | src/pages/TimetablePage.jsx:240-280 | no request and no change without a full query; otherwise the days (or [] when not an array), or [] with a non-empty error |
| Timetable.TimetablePage.LoadMeal | src/pages/TimetablePage.jsx:282-320 | no request without both codes; otherwise the meal data, or none with a non-empty error |
| Timetable.TimetablePage.ShownPeriods | src/pages/TimetablePage.jsx:322-327 | periods are shown only when a listed day carries the selected key and those very periods |
| Timetable.MealFetchedButHidden | src/pages/TimetablePage.jsx:351-353 | a user with codes but no grade gets a meal request, while the section says the school is unknown |
| Calendar.MonthDayTailParts | src/pages/CalendarPage.jsx:241-243 | "-MM-DD": six characters, dashes at 0 and 3, digits that read back as the month and the day |
| Calendar.Ymd | src/pages/CalendarPage.jsx:240-244 | the key is six characters longer than the year's digits; its layout and injectivity are in the lemmas below |
| Calendar.YmdParts | src/pages/CalendarPage.jsx:240-244 | the year's digits followed by "-MM-DD" |
| Calendar.MonthDayTailInjective | src/pages/CalendarPage.jsx:241-243 | equal tails come from equal months and days |
| Calendar.YmdInjective | src/pages/CalendarPage.jsx:240-244 | different dates have different keys |
| Calendar.GridStart | src/pages/CalendarPage.jsx:278-281 | the first cell is a valid date |
| Calendar.GridStartIsSunday | src/pages/CalendarPage.jsx:278-281 | the first cell is a Sunday, at most six days before the 1st |
| Calendar.GridCell | src/pages/CalendarPage.jsx:284-288 | cell i is in the month exactly for i from the 1st's weekday, for as many cells as the month has days, and then holds that day |
| Calendar.GridConsecutive | src/pages/CalendarPage.jsx:284-288 | consecutive cells hold consecutive days |
| Calendar.GridMonthCells | src/pages/CalendarPage.jsx:284-288 | exactly the month's days are the cells of the month |
| Calendar.GridCoversMonth | src/pages/CalendarPage.jsx:277-290 | day k of the month sits in cell weekday(1st) + k - 1 |
| Calendar.MonthGrid | src/pages/CalendarPage.jsx:277-290 | the loop yields 42 dates from the grid start, one day apart, that cover the month |
| Calendar.PrevMonth | src/pages/CalendarPage.jsx:339-341 | day 1 of the month before, across years |
| Calendar.NextMonth | src/pages/CalendarPage.jsx:349-351 | day 1 of the month after, across years |
| Calendar.MonthNavigationInverse | src/pages/CalendarPage.jsx:337-355 | the two buttons undo each other |
| Calendar.WithoutId | src/pages/CalendarPage.jsx:317 | the entries kept are exactly those without the id |
| Calendar.WithoutAbsentId | src/pages/CalendarPage.jsx:317 | filtering out an id that no entry has keeps the list |
| Calendar.CellView | src/pages/CalendarPage.jsx:367-395 | hidden exactly outside the cursor month; otherwise the day, the today mark exactly for today's key, and that key's events |
| Calendar.TodayIffSameDate | src/pages/CalendarPage.jsx:370 | a shown cell is marked today exactly when its date is today |
| Calendar.WellFormedAppend | src/pages/CalendarPage.jsx:306-309 | appending a trimmed, non-empty entry keeps every stored list non-empty with trimmed titles |
| Calendar.TrimmedTitle | src/pages/CalendarPage.jsx:304-308 | a non-blank title is stored trimmed and non-empty |
| Calendar.CalendarPage.constructor | src/pages/CalendarPage.jsx:248-254 | October 2025, no events, modal closed |
| Calendar.CalendarPage.GoPrevMonth | src/pages/CalendarPage.jsx:339-341 | the cursor moves to the previous month |
| Calendar.CalendarPage.GoNextMonth | src/pages/CalendarPage.jsx:349-351 | the cursor moves to the next month |
| Calendar.CalendarPage.OpenAdd | src/pages/CalendarPage.jsx:296-300 | selects the date, clears the title, opens the modal |
| Calendar.CalendarPage.SetTitle | src/pages/CalendarPage.jsx:417 | sets the title |
| Calendar.CalendarPage.AddEvent | src/pages/CalendarPage.jsx:303-312 | nothing for a blank title or no date; otherwise the trimmed entry is appended to the date's list and the modal closes; the store stays well formed |
| Calendar.CalendarPage.RemoveEvent | src/pages/CalendarPage.jsx:315-323 | entries with the id leave the list, and an emptied list is removed with its key |
| Calendar.AddThenRemove | src/pages/CalendarPage.jsx:303-323 | removing a just-added id restores the date's list when no other entry had that id |
| Calendar.WithoutIdAppend | src/pages/CalendarPage.jsx:317 | filtering distributes over concatenation |
| ProfilePage.AsScalar | src/pages/ProfilePage.jsx:152-154 | a missing string stays missing, a present one is kept |
| ProfilePage.ProfileEntries | src/pages/ProfilePage.jsx:149-167 | no entries without a user; name and school for everyone; then grade, class and number for a student |
| ProfilePage.Find | src/pages/ProfilePage.jsx:188-191 | undefined when no entry has the label, otherwise the value of the first entry that has it, wherever it sits |
| ProfilePage.FindReadsUserFields | src/pages/ProfilePage.jsx:188-191 | looking a label up reads back the user's own field; grade and class are undefined for a non-student |
| ProfilePage.Suffixed | src/pages/ProfilePage.jsx:193-195 | "-" for a falsy value, otherwise its text followed by the suffix |
| ProfilePage.DetailInfo | src/pages/ProfilePage.jsx:193-195 | school (nullish fallback "-"), grade and class, joined by " \t " |
| ProfilePage.TeacherDetailHasNoClass | src/pages/ProfilePage.jsx:149-195 | a non-student's summary is the school followed by " \t - \t -" |
| ProfilePage.StudentDetail | src/pages/ProfilePage.jsx:149-195 | a student's summary shows the school, "G학년" and "C반" |
| ProfilePage.NameDisplay | src/pages/ProfilePage.jsx:205 | the fallback name exactly when the name is missing |
| ProfilePage.ProfileScreen | src/pages/ProfilePage.jsx:169-215 | loading exactly while loading without a user; the sign-in hint without a user; otherwise the summary, with the error line exactly when there is an error |
| ProfilePage.MissingNameFallsBack | src/pages/ProfilePage.jsx:205 | a profile without a name is shown as "이름 없음" |
| StudentPage.RosterShape | src/pages/StudentPage.jsx:139-149 | six students, numbered 1 to 6 in order, with distinct ids |
| StudentPage.GoDetail | src/pages/StudentPage.jsx:154-164 | the path ends in the student's id, and the state carries the student and the classroom 2-2 |
| StudentPage.GoDetailInjective | src/pages/StudentPage.jsx:155 | different ids give different paths |
| StudentPage.DetailPathsUnrouted | src/pages/StudentPage.jsx:155 | no roster student's detail path is routed, and each has depth 0 |
| StudentPage.Check | src/pages/StudentPage.jsx:166-168 | the student's mark is set, and every other student's mark is kept |
| StudentPage.LastCheckWins | src/pages/StudentPage.jsx:166-168 | a later check of a student replaces the earlier one |
| StudentPage.ChecksCommute | src/pages/StudentPage.jsx:166-168 | checks of different students commute |
| StudentPage.StatusDisplay | src/pages/StudentPage.jsx:228 | the mark when set and non-empty, otherwise "-" |
| StudentPage.CheckThenDisplay | src/pages/StudentPage.jsx:166-228 | after a check the student shows the mark, and everyone else shows what they showed before |
| StudentPage.StudentsPage.constructor | src/pages/StudentPage.jsx:152 | nobody is checked, and every roster student shows "-" |
| StudentPage.StudentsPage.CheckMission | src/pages/StudentPage.jsx:166-168 | the map is updated, and no other student's display changes |
| StudentRecordPage.StateOrEmpty | src/pages/StudentRecordPage.jsx:132 | the navigation state when there is one, otherwise an empty state with every field undefined |
| StudentRecordPage.TruthyTextNonEmpty | src/pages/StudentRecordPage.jsx:134 | a truthy value never renders as "" |
| StudentRecordPage.StudentName | src/pages/StudentRecordPage.jsx:134 | the name when truthy, else the fallback; never empty |
| StudentRecordPage.StudentNumber | src/pages/StudentRecordPage.jsx:135 | "" exactly when the number is falsy, else "N번" |
| StudentRecordPage.ClassroomLabel | src/pages/StudentRecordPage.jsx:136-139 | the fallback exactly when grade or class is falsy, else "G학년 C반" |
| StudentRecordPage.Mission | src/pages/StudentRecordPage.jsx:140 | the mission when truthy, else the fallback; never empty |
| StudentRecordPage.RecordLines | src/pages/StudentRecordPage.jsx:142-157 | twelve lines: the header with classroom, number and name, and the mission line |
| StudentRecordPage.DefaultRecord | src/pages/StudentRecordPage.jsx:142-157 | the draft opens with the header line naming the classroom, number and student |
| StudentRecordPage.LinesAreSingle | src/pages/StudentRecordPage.jsx:142-157 | with single-line labels, no line of the draft holds a break |
| StudentRecordPage.DefaultRecordLineCount | src/pages/StudentRecordPage.jsx:142-157 | with single-line labels the draft has exactly eleven line breaks |
| StudentRecordPage.FromDetail | src/pages/StudentPage.jsx:155-163 | the state the roster sends carries no mission |
| StudentRecordPage.DetailStateLabels | src/pages/StudentRecordPage.jsx:132-140 | a roster student's state gives "2학년 2반", "N번", the name, and always the mission fallback |
| StudentRecordPage.StudentRecordForm.constructor | src/pages/StudentRecordPage.jsx:159-160 | the text area starts from the draft, with no save message |
| StudentRecordPage.StudentRecordForm.SetRecord | src/pages/StudentRecordPage.jsx:195 | sets the record |
| StudentRecordPage.StudentRecordForm.HandleSubmit | src/pages/StudentRecordPage.jsx:162-169 | logs the id and the record as typed, and shows the save message |

## Left out

- Network I/O: `fetch`, headers and JSON decoding are not modelled. Each request becomes the query it would send, and its settled outcome is a parameter. `ApiService` (`src/services/api.js:55-95`) defines only `register`, `login`, `getProfile` and `checkUserId`.
- StudentHome.StudentHomePage.FetchClassCharacter, StudentHome.StudentHomePage.FetchMissions, StudentHome.StudentHomePage.FetchEmergencyMissions, TeacherHome.TeacherHomePage.FetchClassCharacter, TeacherHome.MissionEditor.HandleSubmit, Timetable.TimetablePage.LoadTimetable, Timetable.TimetablePage.LoadMeal: the pages call `getClassCharacter`, `getDailyMissions`, `getEmergencyMissions`, `createMission`, `getTimetable` and `getMeal`, which `ApiService` does not define. As written, the `.then` chains (`src/pages/StudentHomePage.jsx:366`, `412`, `444`; `src/pages/TeacherHomePage.jsx:449`, `495`; `src/pages/TimetablePage.jsx:249`, `291`) throw a TypeError before `.catch` is attached. The error escapes the callback or effect, and a loading flag already set (`src/pages/StudentHomePage.jsx:364`, `409`; `src/pages/TimetablePage.jsx:246`) stays true. `createMission` alone is awaited inside `try` (`src/pages/TeacherHomePage.jsx:346-361`), so every valid submit ends in the failure alert. The model describes each callback as if the method existed and its request settled with the given outcome.
- `import.meta.env`: the development flag and the configured base URL are parameters.
- Browser storage is a `map` with an availability flag; a `localStorage` failure leaves it unchanged. The calendar's JSON persistence under "calendar_events_v1" (`src/pages/CalendarPage.jsx:257-269`) is not modelled, so a stored value that breaks the event store's invariant is not considered.
- Rendering, styled components and CSS: a page's view is modelled only where it carries logic (which section, which cell, which message).
- Timers and animation durations: the transition's two timers are events the caller fires, and the 350 ms and 0.35 s values are not modelled.
- React scheduling: state updates are applied in program order. Batching, re-renders between awaits, and effect dependency tracking are not modelled. The one closure whose stale value matters (`fetchProfile` inside `login`) is modelled explicitly.
- Remounting: each path has its own route component, and each of them wraps its page in its own `<AnimatedPage>` (`src/App.jsx:154-162`, `172-263`). A change of path therefore unmounts one wrapper and mounts a new one whose `displayLocation` already is the new location. As the app is wired, no transition ever starts, and `App.ReturnBeforeSwap` cannot occur. The model describes one wrapper that stays mounted across location changes, which is what `AnimatedPage` itself does when it is mounted once above the routes.
- The `ignore` flags of the timetable effects, which drop replies that arrive after a newer request: each load is modelled as settling before the next begins.
- The clock: `new Date()` and `Date.now()` are parameters (today's date, a new event's id).
- Calendar.PrevMonth, Calendar.NextMonth, Calendar.MonthNavigationInverse, Calendar.GridStart, Calendar.CalendarPage.GoPrevMonth, Calendar.CalendarPage.GoNextMonth: `new Date(year, month, 1)` (`src/pages/CalendarPage.jsx:278`, `339-351`) maps a year from 0 to 99 to 1900 + year, and gives an Invalid Date beyond ±8.64e15 ms (about ±275,760 years). Neither is modelled: the model keeps the year as written. So from December of year 99 the model's next month is 0100-01-01 where the page shows 2000-01-01, and `MonthNavigationInverse` does not describe the page for years below 100. The same range limit applies to the `setDate` shifts of `CivilDate`.
- Time zones, `toLocaleString` (the calendar's month label) and `fmtKoreanDate` (the timetable's date line) are left out.
- Floating point: coins are `real`. NaN, infinities and rounding of binary fractions are left out, and `Math.round` is modelled on the non-negative values the progress bar gives it.
- StudentHome.FromCharacterData: a numeric `level` from the server is modelled as an integer; a fractional level is not modelled.
- String lengths count code points, where JavaScript counts UTF-16 code units. The password and id length checks differ only for characters outside the Basic Multilingual Plane.
- `window.alert` and `console` logging: an alert is returned as a value (`LoginPage.LoginForm.HandleLogin`, `TeacherHome.MissionEditor.HandleSubmit`), and the record page's log is returned as the logged id and record. Other console output is left out.
- `window.location.assign("/")` in logout is returned as the redirect path.
- AuthContext.AuthProvider.Login: the second profile fetch, which the token effect triggers after the token changes, is not part of the method; `TokenEffect` models that fetch separately.
- The teacher page's duplicated level and progress utilities (`src/pages/TeacherHomePage.jsx:12-52`) are textually identical to the student page's. They are modelled once, in `StudentHome`.
- The teacher home page's emergency-mission fetch (`src/pages/TeacherHomePage.jsx:490-522`) is the student page's `fetchEmergencyMissions` and is modelled by `StudentHome.StudentHomePage.FetchEmergencyMissions`. The mission list rendering and the navigation buttons are left out.
- `formatDeadline` and `missionRewardText` format strings for display only and are left out.
- The timetable's period badge and subject fallback text are display-only and left out.
- The sign-up and login API calls are commented out in the pages. The model follows the pages: a completed form only calls the success callback.
- The `studentId` route parameter of the record page: no route declares it, so it is a parameter of the form (`None` as routed).
- `src/components/Header.jsx`, `src/components/TabNavigation.jsx`, `src/pages/Welcome.jsx`, `src/pages/ClockPage.jsx` and `src/pages/HomePage.jsx` are not part of this model.
