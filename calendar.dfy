/** The monthly calendar page: "YYYY-MM-DD" date keys, the fixed six-week grid,
    month navigation, and the per-date event lists kept in a map. */
module Calendar {
  import opened JsText
  import opened CivilDate

  /** The "-MM-DD" part of a date key: month and day, each exactly two digits. */
  function MonthDayTail(month: nat, day: nat): string
    requires month < 100 && day < 100
  {
    "-" + Pad2(month) + "-" + Pad2(day)
  }

  /** Six characters, dashes at 0 and 3, and digits that read back as the month
      and the day. */
  lemma MonthDayTailParts(month: nat, day: nat)
    requires month < 100 && day < 100
    ensures var r := MonthDayTail(month, day);
      |r| == 6 && r[0] == '-' && r[3] == '-'
      && IsDigit(r[1]) && IsDigit(r[2]) && IsDigit(r[4]) && IsDigit(r[5])
      && DecimalValue(r[1..3]) == month && DecimalValue(r[4..]) == day
  {
    var r := MonthDayTail(month, day);
    assert r[1..3] == Pad2(month);
    assert r[4..] == Pad2(day);
  }

  /** `ymd(date)`: the year as written by `toString`, then the 1-based month and the
      day, each padded to two digits, separated by dashes. */
  function Ymd(d: Date): (r: string)
    requires Valid(d)
    ensures |r| == |IntToDecimal(d.year)| + 6
  {
    IntToDecimal(d.year) + MonthDayTail(d.month, d.day)
  }

  /** A key splits into the year's digits and the six-character "-MM-DD" tail. */
  lemma YmdParts(d: Date)
    requires Valid(d)
    ensures var r := Ymd(d);
      |r| == |IntToDecimal(d.year)| + 6
      && r[..|r| - 6] == IntToDecimal(d.year)
      && r[|r| - 6..] == MonthDayTail(d.month, d.day)
  {
    var r := Ymd(d);
    MonthDayTailParts(d.month, d.day);
    assert r[..|r| - 6] == IntToDecimal(d.year);
  }

  /** Equal month-day tails come from the same month and day. */
  lemma MonthDayTailInjective(m1: nat, d1: nat, m2: nat, d2: nat)
    requires m1 < 100 && d1 < 100 && m2 < 100 && d2 < 100
    requires MonthDayTail(m1, d1) == MonthDayTail(m2, d2)
    ensures m1 == m2 && d1 == d2
  {
    var t := MonthDayTail(m1, d1);
    MonthDayTailParts(m1, d1);
    MonthDayTailParts(m2, d2);
    assert DecimalValue(t[1..3]) == m1 == m2;
    assert DecimalValue(t[4..]) == d1 == d2;
  }

  /** Distinct dates have distinct keys, so a key identifies its date. */
  lemma YmdInjective(a: Date, b: Date)
    requires Valid(a) && Valid(b)
    requires Ymd(a) == Ymd(b)
    ensures a == b
  {
    YmdParts(a);
    YmdParts(b);
    IntToDecimalInjective(a.year, b.year);
    MonthDayTailInjective(a.month, a.day, b.month, b.day);
  }

  /** The Sunday on or before the 1st of the month: the first grid cell. */
  function GridStart(year: int, month: int): (r: Date)
    requires 1 <= month <= 12
    ensures Valid(r)
  {
    var first := Date(year, month, 1);
    AddDays(first, -Weekday(first))
  }

  /** The grid always starts on a Sunday, at most six days before the 1st. */
  lemma GridStartIsSunday(year: int, month: int)
    requires 1 <= month <= 12
    ensures Weekday(GridStart(year, month)) == 0
    ensures 0 <= DayNumber(Date(year, month, 1)) - DayNumber(GridStart(year, month)) < 7
  {
    var first := Date(year, month, 1);
    var x := DayNumber(first);
    AddDaysNumber(first, -Weekday(first));
    RoundDownToWeek(x);
  }

  lemma RoundDownToWeek(x: int)
    ensures (x - x % 7) % 7 == 0 && 0 <= x - (x - x % 7) < 7
  {
  }

  /** Which grid cells belong to the month: exactly the `DaysInMonth` cells from
      index `Weekday(1st)`, holding the days 1, 2, ... in order; every other cell
      lies in the previous or the next month. */
  lemma {:induction false} GridCell(year: int, month: int, i: nat)
    requires 1 <= month <= 12 && i < 42
    ensures var lead := Weekday(Date(year, month, 1));
      var cell := AddDays(GridStart(year, month), i);
      (cell.month == month <==> lead <= i < lead + DaysInMonth(year, month))
      && (lead <= i < lead + DaysInMonth(year, month) ==> cell == Date(year, month, i - lead + 1))
  {
    var first := Date(year, month, 1);
    var lead := Weekday(first);
    var dim := DaysInMonth(year, month);
    var start := GridStart(year, month);
    var cell := AddDays(start, i);
    AddDaysCompose(first, -lead, i);
    assert cell == AddDays(first, i - lead);
    if i < lead {
      var prev := PrevDay(first);
      ShiftPrev(first, i - lead + 1);
      AddDaysBackWithinMonth(prev, lead - i - 1);
      assert cell.month != month;
    } else if i < lead + dim {
      AddDaysWithinMonth(first, i - lead);
    } else {
      var last := Date(year, month, dim);
      AddDaysWithinMonth(first, dim - 1);
      AddDaysCompose(first, dim - 1, i - lead - dim + 1);
      assert cell == AddDays(last, i - lead - dim + 1);
      ShiftNext(last, i - lead - dim);
      AddDaysWithinMonth(NextDay(last), i - lead - dim);
      assert cell.month != month;
    }
  }

  /** The 42 dates from the grid start, one day apart. */
  predicate IsGrid(year: int, month: int, days: seq<Date>)
    requires 1 <= month <= 12
  {
    |days| == 42 && forall i :: 0 <= i < 42 ==> days[i] == AddDays(GridStart(year, month), i)
  }

  /** Consecutive cells hold consecutive days. */
  lemma GridConsecutive(year: int, month: int, days: seq<Date>)
    requires 1 <= month <= 12 && IsGrid(year, month, days)
    ensures forall i :: 0 <= i < 41 ==> Valid(days[i]) && days[i + 1] == NextDay(days[i])
  {
    forall i | 0 <= i < 41
      ensures Valid(days[i]) && days[i + 1] == NextDay(days[i])
    {
      AddDaysCompose(GridStart(year, month), i, 1);
    }
  }

  /** Cell `i` is in the month exactly for the `DaysInMonth` indices from the
      weekday of the 1st. */
  lemma GridMonthCells(year: int, month: int, days: seq<Date>)
    requires 1 <= month <= 12 && IsGrid(year, month, days)
    ensures forall i :: 0 <= i < 42 ==>
      (days[i].month == month <==>
       Weekday(Date(year, month, 1)) <= i < Weekday(Date(year, month, 1)) + DaysInMonth(year, month))
  {
    forall i | 0 <= i < 42
      ensures days[i].month == month <==>
        Weekday(Date(year, month, 1)) <= i < Weekday(Date(year, month, 1)) + DaysInMonth(year, month)
    {
      GridCell(year, month, i);
    }
  }

  /** Day `k` of the month sits in cell `Weekday(1st) + k - 1`. */
  lemma GridCoversMonth(year: int, month: int, days: seq<Date>)
    requires 1 <= month <= 12 && IsGrid(year, month, days)
    ensures forall k :: 1 <= k <= DaysInMonth(year, month) ==>
      days[Weekday(Date(year, month, 1)) + k - 1] == Date(year, month, k)
  {
    forall k | 1 <= k <= DaysInMonth(year, month)
      ensures days[Weekday(Date(year, month, 1)) + k - 1] == Date(year, month, k)
    {
      GridCell(year, month, Weekday(Date(year, month, 1)) + k - 1);
    }
  }

  /** The `days` memo: a 42-iteration loop from the Sunday on or before the 1st. */
  method MonthGrid(year: int, month: int) returns (days: seq<Date>)
    requires 1 <= month <= 12
    ensures IsGrid(year, month, days)
    ensures Weekday(days[0]) == 0
    ensures forall i :: 0 <= i < 41 ==> Valid(days[i]) && days[i + 1] == NextDay(days[i])
    ensures forall k :: 1 <= k <= DaysInMonth(year, month) ==>
      days[Weekday(Date(year, month, 1)) + k - 1] == Date(year, month, k)
    ensures forall i :: 0 <= i < 42 ==>
      (days[i].month == month <==>
       Weekday(Date(year, month, 1)) <= i < Weekday(Date(year, month, 1)) + DaysInMonth(year, month))
  {
    var first := Date(year, month, 1);
    var startDay := Weekday(first);
    var start := AddDays(first, -startDay);
    var items: seq<Date> := [];
    for i := 0 to 42
      invariant |items| == i
      invariant forall j :: 0 <= j < i ==> items[j] == AddDays(start, j)
    {
      var d := AddDays(start, i);
      items := items + [d];
    }
    days := items;
    GridStartIsSunday(year, month);
    GridConsecutive(year, month, days);
    GridMonthCells(year, month, days);
    GridCoversMonth(year, month, days);
  }

  /** Months counted from year 0, for stating that navigation moves by one month. */
  function MonthIndex(d: Date): int {
    12 * d.year + d.month - 1
  }

  /** The "previous month" button: day 1 of the month before, across years. */
  function PrevMonth(c: Date): (r: Date)
    requires Valid(c)
    ensures Valid(r) && r.day == 1
    ensures MonthIndex(r) == MonthIndex(c) - 1
  {
    if c.month == 1 then Date(c.year - 1, 12, 1) else Date(c.year, c.month - 1, 1)
  }

  /** The "next month" button: day 1 of the month after, across years. */
  function NextMonth(c: Date): (r: Date)
    requires Valid(c)
    ensures Valid(r) && r.day == 1
    ensures MonthIndex(r) == MonthIndex(c) + 1
  {
    if c.month == 12 then Date(c.year + 1, 1, 1) else Date(c.year, c.month + 1, 1)
  }

  /** The two buttons undo each other on a cursor at day 1. */
  lemma MonthNavigationInverse(c: Date)
    requires Valid(c) && c.day == 1
    ensures NextMonth(PrevMonth(c)) == c
    ensures PrevMonth(NextMonth(c)) == c
  {
  }

  /** One calendar entry: `{ id, title }`. */
  datatype Event = Event(id: int, title: string)

  /** `list.filter((e) => e.id !== id)`. */
  function WithoutId(list: seq<Event>, id: int): (r: seq<Event>)
    ensures |r| <= |list|
    ensures forall e :: e in r <==> e in list && e.id != id
  {
    if list == [] then []
    else if list[0].id == id then WithoutId(list[1..], id)
    else [list[0]] + WithoutId(list[1..], id)
  }

  /** Filtering out an id no entry carries keeps the list as it is. */
  lemma {:induction false} WithoutAbsentId(list: seq<Event>, id: int)
    requires forall e :: e in list ==> e.id != id
    ensures WithoutId(list, id) == list
  {
    if list != [] {
      assert list[0] in list;
      assert forall e :: e in list[1..] ==> e in list;
      WithoutAbsentId(list[1..], id);
    }
  }

  /** What a grid cell shows: nothing for a day outside the cursor month, else the
      day number, the "today" mark and that date's events. */
  datatype Cell = Hidden(key: string) | Shown(key: string, day: int, isToday: bool, events: seq<Event>)

  function CellView(d: Date, cursorMonth: int, todayKey: string, events: map<string, seq<Event>>)
    : (c: Cell)
    requires Valid(d)
    ensures c.key == Ymd(d)
    ensures c.Hidden? <==> d.month != cursorMonth
    ensures c.Shown? ==> c.day == d.day && (c.isToday <==> Ymd(d) == todayKey)
    ensures c.Shown? ==> c.events == (if Ymd(d) in events then events[Ymd(d)] else [])
  {
    var key := Ymd(d);
    if d.month != cursorMonth then Hidden(key)
    else Shown(key, d.day, key == todayKey, if key in events then events[key] else [])
  }

  /** A shown cell is marked as today exactly when it is today's date. */
  lemma TodayIffSameDate(d: Date, today: Date, cursorMonth: int, events: map<string, seq<Event>>)
    requires Valid(d) && Valid(today) && d.month == cursorMonth
    ensures CellView(d, cursorMonth, Ymd(today), events).isToday <==> d == today
  {
    if Ymd(d) == Ymd(today) {
      YmdInjective(d, today);
    }
  }

  /** What the page keeps: every stored list is non-empty and holds trimmed,
      non-blank titles. */
  predicate WellFormed(events: map<string, seq<Event>>) {
    forall k :: k in events ==> WellFormedList(events[k])
  }

  /** A stored list: non-empty, with trimmed, non-blank titles. */
  predicate WellFormedList(list: seq<Event>) {
    |list| > 0 && forall e :: e in list ==> e.title != "" && Trimmed(e.title)
  }

  /** `{ ...prev, [key]: [...(prev[key] || []), entry] }`. */
  function Appended(events: map<string, seq<Event>>, key: string, entry: Event): map<string, seq<Event>> {
    events[key := (if key in events then events[key] else []) + [entry]]
  }

  /** Appending a trimmed, non-blank entry to one date keeps the store well formed. */
  lemma WellFormedAppend(events: map<string, seq<Event>>, key: string, entry: Event)
    requires WellFormed(events)
    requires entry.title != "" && Trimmed(entry.title)
    ensures WellFormed(Appended(events, key, entry))
  {
  }

  /** The title a non-blank input is stored under is trimmed and not empty. */
  lemma TrimmedTitle(title: string)
    requires !IsBlank(title)
    ensures Trim(title) != "" && Trimmed(Trim(title))
  {
    BlankIffTrimEmpty(title);
  }

  /** Adding a non-blank title, trimmed, keeps the store well formed. */
  lemma WellFormedAdd(events: map<string, seq<Event>>, key: string, now: int, title: string)
    requires WellFormed(events) && !IsBlank(title)
    ensures WellFormed(Appended(events, key, Event(now, Trim(title))))
  {
    TrimmedTitle(title);
    WellFormedAppend(events, key, Event(now, Trim(title)));
  }

  class CalendarPage {
    var cursor: Date
    var events: map<string, seq<Event>>
    var modalOpen: bool
    var selectedDate: Option<Date>
    var title: string

    predicate Valid()
      reads this
    {
      CivilDate.Valid(cursor) && cursor.day == 1
      && WellFormed(events)
      && (selectedDate.Some? ==> CivilDate.Valid(selectedDate.value))
    }

    /** The page opens on October 2025 with no events and the modal closed. */
    constructor()
      ensures Valid()
      ensures cursor == Date(2025, 10, 1) && events == map[]
      ensures !modalOpen && selectedDate == None && title == ""
    {
      cursor := Date(2025, 10, 1);
      events := map[];
      modalOpen := false;
      selectedDate := None;
      title := "";
    }

    method GoPrevMonth()
      requires Valid()
      modifies this`cursor
      ensures Valid() && cursor == PrevMonth(old(cursor))
    {
      cursor := PrevMonth(cursor);
    }

    method GoNextMonth()
      requires Valid()
      modifies this`cursor
      ensures Valid() && cursor == NextMonth(old(cursor))
    {
      cursor := NextMonth(cursor);
    }

    /** `openAdd(date)`: select the clicked date, clear the title, open the modal. */
    method OpenAdd(d: Date)
      requires Valid() && CivilDate.Valid(d)
      modifies this`selectedDate, this`title, this`modalOpen
      ensures Valid()
      ensures selectedDate == Some(d) && title == "" && modalOpen
    {
      selectedDate := Some(d);
      title := "";
      modalOpen := true;
    }

    /** The title input's change handler. */
    method SetTitle(t: string)
      requires Valid()
      modifies this`title
      ensures Valid() && title == t
    {
      title := t;
    }

    /** `addEvent()`: `now` is `Date.now()`, the new entry's id. */
    method AddEvent(now: int)
      requires Valid()
      modifies this`events, this`modalOpen
      ensures Valid()
      ensures IsBlank(title) || selectedDate.None? ==>
        events == old(events) && modalOpen == old(modalOpen)
      ensures !IsBlank(title) && selectedDate.Some? ==>
        !modalOpen && events == Appended(old(events), Ymd(selectedDate.value), Event(now, Trim(title)))
    {
      if IsBlank(title) || selectedDate.None? {
        return;
      }
      WellFormedAdd(events, Ymd(selectedDate.value), now, title);
      events := Appended(events, Ymd(selectedDate.value), Event(now, Trim(title)));
      modalOpen := false;
    }

    /** `removeEvent(key, id)`: every entry with that id leaves the list, and a list
        that becomes empty is removed with its key. */
    method RemoveEvent(key: string, id: int)
      requires Valid()
      modifies this`events
      ensures Valid()
      ensures var rest := WithoutId(if key in old(events) then old(events)[key] else [], id);
        if rest == [] then events == old(events) - {key}
        else events == old(events)[key := rest]
    {
      var list := WithoutId(if key in events then events[key] else [], id);
      if |list| > 0 {
        events := events[key := list];
      } else {
        events := events - {key};
      }
    }
  }

  /** Adding an entry and then removing its id restores the date's list when no
      other entry there had that id. */
  lemma AddThenRemove(events: map<string, seq<Event>>, key: string, e: Event)
    requires key in events ==> forall x :: x in events[key] ==> x.id != e.id
    ensures var before := if key in events then events[key] else [];
      WithoutId(before + [e], e.id) == before
  {
    var before := if key in events then events[key] else [];
    WithoutIdAppend(before, [e], e.id);
    WithoutAbsentId(before, e.id);
  }

  lemma {:induction false} WithoutIdAppend(a: seq<Event>, b: seq<Event>, id: int)
    ensures WithoutId(a + b, id) == WithoutId(a, id) + WithoutId(b, id)
  {
    if a != [] {
      assert (a + b)[1..] == a[1..] + b;
      WithoutIdAppend(a[1..], b, id);
    } else {
      assert a + b == b;
    }
  }
}
