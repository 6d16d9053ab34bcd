/**
 * The calendar page: the displayed month and its navigation, the selected
 * day, the activity list and the "add activity" form.
 *
 * The displayed date is a calendar date (year, month 1..12, day); its time
 * of day plays no part. The clock value used as a new activity's id is
 * passed in as `now`.
 */
module CalendarInterface {
  import opened Wrappers
  import opened Strings
  import Civil
  import opened CalendarTypes
  import opened CalendarGrid

  datatype CalendarDate = CalendarDate(year: int, month: int, day: int)
  {
    predicate Valid() { Civil.ValidDate(year, month, day) }
  }

  datatype Direction = Prev | Next

  /** Months counted from January of year 0, so that one month on is one more. */
  function MonthIndex(d: CalendarDate): int
  {
    12 * d.year + d.month - 1
  }

  /** The (year, month) one month back or on, rolling over the year. */
  function Shift(year: int, month: int, dir: Direction): (r: (int, int))
    requires 1 <= month <= 12
    ensures 1 <= r.1 <= 12
    ensures 12 * r.0 + r.1 == 12 * year + month + (if dir == Next then 1 else -1)
  {
    match dir
    case Next => if month == 12 then (year + 1, 1) else (year, month + 1)
    case Prev => if month == 1 then (year - 1, 12) else (year, month - 1)
  }

  /**
   * As written: `setMonth(getMonth() ± 1)` keeps the day of the month, and a
   * day past the end of the target month spills over into the month after.
   */
  function NavigateAsWritten(d: CalendarDate, dir: Direction): (r: CalendarDate)
    requires d.Valid()
    ensures r.Valid()
  {
    var (y, m) := Shift(d.year, d.month, dir);
    var length := Civil.DaysInMonth(y, m);
    if d.day <= length then CalendarDate(y, m, d.day)
    else
      var (y2, m2) := Shift(y, m, Next);
      assert Civil.DaysInMonth(y2, m2) >= 28;
      CalendarDate(y2, m2, d.day - length)
  }

  /** From 31 January, "next" shows March: February is skipped. */
  lemma NextFromJanuary31SkipsFebruary()
    ensures NavigateAsWritten(CalendarDate(2025, 1, 31), Next) == CalendarDate(2025, 3, 3)
    ensures MonthIndex(NavigateAsWritten(CalendarDate(2025, 1, 31), Next)) == MonthIndex(CalendarDate(2025, 1, 31)) + 2
  {
    assert !Civil.IsLeap(2025);
    assert Civil.DaysInMonth(2025, 2) == 28;
  }

  /** On the first 28 days of a month the code as written moves by exactly one month. */
  lemma AsWrittenAgreesOnEarlyDays(d: CalendarDate, dir: Direction)
    requires d.Valid() && d.day <= 28
    ensures NavigateAsWritten(d, dir) == Navigate(d, dir)
  {
  }

  /** Corrected: the target month, with the day kept when it exists there and clamped to the month's end otherwise. */
  function Navigate(d: CalendarDate, dir: Direction): (r: CalendarDate)
    requires d.Valid()
    ensures r.Valid()
    ensures MonthIndex(r) == MonthIndex(d) + (if dir == Next then 1 else -1)
    ensures r.day == (if d.day <= Civil.DaysInMonth(r.year, r.month) then d.day else Civil.DaysInMonth(r.year, r.month))
  {
    var (y, m) := Shift(d.year, d.month, dir);
    var length := Civil.DaysInMonth(y, m);
    CalendarDate(y, m, if d.day <= length then d.day else length)
  }

  /** Forward then back returns to the same month. */
  lemma NavigateRoundTrip(d: CalendarDate)
    requires d.Valid()
    ensures MonthIndex(Navigate(Navigate(d, Next), Prev)) == MonthIndex(d)
    ensures d.day <= 28 ==> Navigate(Navigate(d, Next), Prev) == d
  {
    var n := Navigate(d, Next);
    var p := Navigate(n, Prev);
    if d.day <= 28 {
      assert p.year == d.year && p.month == d.month;
    }
  }

  // ---------- the add-activity form ----------

  datatype NewActivity = NewActivity(title: string, date: string, time: string, location: string, kind: ActivityType)

  const EmptyForm: NewActivity := NewActivity("", "", "", "", Other)

  /** One form field edit, as handleModalChange receives it. */
  datatype FieldEdit = SetTitle(text: string) | SetDate(text: string) | SetTime(text: string)
                     | SetLocation(text: string) | SetKind(kind: ActivityType)

  function Edited(f: NewActivity, e: FieldEdit): (r: NewActivity)
    ensures e.SetTitle? ==> r == f.(title := e.text)
    ensures e.SetDate? ==> r == f.(date := e.text)
    ensures e.SetTime? ==> r == f.(time := e.text)
    ensures e.SetLocation? ==> r == f.(location := e.text)
    ensures e.SetKind? ==> r == f.(kind := e.kind)
  {
    match e
    case SetTitle(t) => f.(title := t)
    case SetDate(t) => f.(date := t)
    case SetTime(t) => f.(time := t)
    case SetLocation(t) => f.(location := t)
    case SetKind(k) => f.(kind := k)
  }

  /** The form can be submitted only with a title, a date and a time. */
  predicate Complete(f: NewActivity)
  {
    f.title != "" && f.date != "" && f.time != ""
  }

  /** The activity a complete form creates: id from the clock, colour from its kind. */
  function FromForm(f: NewActivity, now: int): (a: Activity)
    ensures a.color == ColorByType(f.kind) && a.id == IntToString(now)
    ensures a.title == f.title && a.date == f.date && a.time == f.time && a.location == Some(f.location) && a.kind == f.kind
  {
    Activity(IntToString(now), f.title, f.date, f.time, Some(f.location), f.kind, ColorByType(f.kind))
  }

  /** An added activity is listed on the day of its date. */
  lemma AddedShowsOnItsDay(prev: seq<Activity>, f: NewActivity, now: int)
    ensures FromForm(f, now) in ActivitiesForDate(prev + [FromForm(f, now)], f.date)
    ensures forall a :: a in prev && a.date == f.date ==> a in ActivitiesForDate(prev + [FromForm(f, now)], f.date)
  {
  }

  /** The example activities the page starts with. */
  function MockActivities(): seq<Activity>
  {
    [Activity("1", "Examen de Matemáticas", "2025-09-28", "09:00", Some("Aula 101"), Exam, "bg-red-500"),
     Activity("2", "Clase de Historia", "2025-09-28", "14:00", Some("Aula 205"), Class, "bg-blue-500"),
     Activity("3", "Entrega de Proyecto", "2025-09-30", "23:59", None, Assignment, "bg-yellow-500"),
     Activity("4", "Reunión con Tutor", "2025-10-02", "10:30", Some("Oficina 302"), Meeting, "bg-green-500")]
  }

  /** The example activities carry the colour of their kind, as added ones do. */
  lemma MockColorsMatchKinds()
    ensures forall a :: a in MockActivities() ==> a.color == ColorByType(a.kind)
  {
  }

  // ---------- the page state ----------

  class Calendar {
    var currentDate: CalendarDate
    var selectedDate: Option<string>
    var activities: seq<Activity>
    var showAddModal: bool
    var newActivity: NewActivity

    constructor(today: CalendarDate)
      requires today.Valid()
      ensures currentDate == today && selectedDate.None? && activities == MockActivities()
      ensures !showAddModal && newActivity == EmptyForm
    {
      currentDate := today;
      selectedDate := None;
      activities := MockActivities();
      showAddModal := false;
      newActivity := EmptyForm;
    }

    predicate Valid()
      reads this
    {
      currentDate.Valid()
    }

    /**
     * navigateMonth: `setMonth(getMonth() ± 1)` on a copy of the displayed date, day kept, so a
     * day missing from the target month spills into the month after it.
     */
    method NavigateMonth(dir: Direction)
      requires Valid()
      modifies this
      ensures Valid()
      ensures currentDate == NavigateAsWritten(old(currentDate), dir)
      ensures old(currentDate).day <= 28 ==> currentDate == Navigate(old(currentDate), dir)
      ensures selectedDate == old(selectedDate) && activities == old(activities)
      ensures showAddModal == old(showAddModal) && newActivity == old(newActivity)
    {
      if currentDate.day <= 28 {
        AsWrittenAgreesOnEarlyDays(currentDate, dir);
      }
      currentDate := NavigateAsWritten(currentDate, dir);
    }

    /** handleDayClick: select that day of the displayed month. */
    method DayClick(day: nat)
      requires Valid()
      modifies this
      ensures Valid() && currentDate == old(currentDate)
      ensures selectedDate == Some(DateKey(currentDate.year, currentDate.month, day))
      ensures activities == old(activities)
      ensures showAddModal == old(showAddModal) && newActivity == old(newActivity)
    {
      selectedDate := Some(DateKey(currentDate.year, currentDate.month, day));
    }

    method OpenAddModal()
      modifies this
      ensures showAddModal
      ensures currentDate == old(currentDate) && selectedDate == old(selectedDate)
      ensures activities == old(activities) && newActivity == old(newActivity)
    {
      showAddModal := true;
    }

    /** handleModalChange: one field of the form changes. */
    method ModalChange(e: FieldEdit)
      modifies this
      ensures newActivity == Edited(old(newActivity), e)
      ensures currentDate == old(currentDate) && selectedDate == old(selectedDate)
      ensures activities == old(activities) && showAddModal == old(showAddModal)
    {
      newActivity := Edited(newActivity, e);
    }

    /**
     * handleAddActivity: nothing without a title, a date and a time;
     * otherwise append the new activity, clear the form and close the modal.
     */
    method AddActivity(now: int)
      modifies this
      ensures !Complete(old(newActivity)) ==>
        activities == old(activities) && newActivity == old(newActivity) && showAddModal == old(showAddModal)
      ensures Complete(old(newActivity)) ==>
        activities == old(activities) + [FromForm(old(newActivity), now)] && newActivity == EmptyForm && !showAddModal
      ensures currentDate == old(currentDate) && selectedDate == old(selectedDate)
    {
      if !Complete(newActivity) {
        return;
      }
      activities := activities + [FromForm(newActivity, now)];
      newActivity := EmptyForm;
      showAddModal := false;
    }

    /** The side panel's activities: those of the selected date, none when no date is selected. */
    function SelectedActivities(): (r: seq<Activity>)
      reads this
      ensures selectedDate.None? || selectedDate.value == "" ==> r == []
      ensures selectedDate.Some? && selectedDate.value != "" ==>
        forall a :: a in r <==> a in activities && a.date == selectedDate.value
    {
      if selectedDate.Some? && selectedDate.value != "" then ActivitiesForDate(activities, selectedDate.value) else []
    }
  }
}
