/**
 * The calendar's activity record, the colour of each activity kind, and
 * the month and weekday names the calendar prints.
 */
module CalendarTypes {
  import opened Wrappers
  import Civil

  datatype ActivityType = Class | Exam | Assignment | Meeting | Other

  /** A calendar activity; `date` is "YYYY-MM-DD". */
  datatype Activity = Activity(
    id: string,
    title: string,
    date: string,
    time: string,
    location: Option<string>,
    kind: ActivityType,
    color: string)

  /** getColorByType: one background colour per kind. */
  function ColorByType(t: ActivityType): (c: string)
    ensures |c| >= 10 && c[..3] == "bg-" && c[|c| - 4..] == "-500"
  {
    match t
    case Class => "bg-blue-500"
    case Exam => "bg-red-500"
    case Assignment => "bg-yellow-500"
    case Meeting => "bg-green-500"
    case Other => "bg-gray-500"
  }

  /** Different kinds get different colours, so a dot's colour tells its kind. */
  lemma ColorByTypeInjective(a: ActivityType, b: ActivityType)
    requires a != b
    ensures ColorByType(a) != ColorByType(b)
  {
    var ca, cb := ColorByType(a), ColorByType(b);
    assert ca[3] != cb[3] || |ca| != |cb|;
  }

  /** The month names, January first. */
  function Months(): (r: seq<string>)
    ensures |r| == 12
    ensures r[0] == "Enero" && r[11] == "Diciembre"
  {
    ["Enero", "Febrero", "Marzo", "Abril", "Mayo", "Junio",
     "Julio", "Agosto", "Septiembre", "Octubre", "Noviembre", "Diciembre"]
  }

  /** The weekday headers, Sunday first, as Date.getDay() numbers them. */
  function WeekDays(): (r: seq<string>)
    ensures |r| == 7
    ensures r[0] == "Dom" && r[6] == "Sáb"
  {
    ["Dom", "Lun", "Mar", "Mié", "Jue", "Vie", "Sáb"]
  }

  /**
   * The headers follow Date.getDay() on every date: 0001-01-01, a Monday, is
   * headed "Lun", and the day after any valid date is headed by the next
   * header, wrapping from "Sáb" back to "Dom".
   */
  lemma WeekDaysMatchGetDay(y: int, m: int, d: int)
    requires Civil.ValidDate(y, m, d)
    ensures WeekDays()[Civil.Weekday(1, 1, 1)] == "Lun"
    ensures var n := Civil.NextDate(y, m, d);
      Civil.Weekday(n.0, n.1, n.2) == (Civil.Weekday(y, m, d) + 1) % 7
  {
    Civil.NextDateFollows(y, m, d);
    StepMod7(Civil.DayNumber(y, m, d));
  }

  lemma StepMod7(x: int)
    ensures (x + 1) % 7 == (x % 7 + 1) % 7
  {
  }
}
