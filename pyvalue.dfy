/** The Python values that cross the model's interfaces: calendar dates,
    the dynamically typed cell and field values of model dictionaries, and
    Python truthiness. */
module PyValue {
  import opened Text

  /** A calendar date (`datetime.date`). */
  datatype Date = Date(year: int, month: int, day: int)

  predicate IsLeapYear(y: int) {
    (y % 4 == 0 && y % 100 != 0) || y % 400 == 0
  }

  function DaysInMonth(y: int, m: int): int
    requires 1 <= m <= 12
  {
    if m == 2 then (if IsLeapYear(y) then 29 else 28)
    else if m == 4 || m == 6 || m == 9 || m == 11 then 30
    else 31
  }

  /** Each field within its widest range: year 1-9999, month 1-12, day 1-31. */
  predicate FieldsInRange(d: Date) {
    1 <= d.year <= 9999 && 1 <= d.month <= 12 && 1 <= d.day <= 31
  }

  /** The dates `datetime.date` can represent. */
  predicate ValidDate(d: Date) {
    FieldsInRange(d) && d.day <= DaysInMonth(d.year, d.month)
  }

  /** Python's `<` on dates: the order of the (year, month, day) tuples. */
  predicate Before(a: Date, b: Date) {
    a.year < b.year || (a.year == b.year && (a.month < b.month || (a.month == b.month && a.day < b.day)))
  }

  /** A dynamically typed Python value as it appears in a model dictionary. */
  datatype Value =
    | PyNone
    | PyBool(b: bool)
    | PyInt(i: int)
    | PyStr(s: string)
    | PyDate(date: Date)
    | PyDateTime(date: Date, hour: int, minute: int, second: int)

  /** Python truthiness (`if value:`); dates and datetimes are always true. */
  predicate Truthy(v: Value) {
    match v
    case PyNone => false
    case PyBool(b) => b
    case PyInt(i) => i != 0
    case PyStr(s) => s != ""
    case PyDate(_) => true
    case PyDateTime(_, _, _, _) => true
  }

  predicate ValidValue(v: Value) {
    match v
    case PyDate(d) => FieldsInRange(d)
    case PyDateTime(d, h, mi, sec) => FieldsInRange(d) && 0 <= h < 24 && 0 <= mi < 60 && 0 <= sec < 60
    case _ => true
  }

  /** `'%02d'` for a number below 100. */
  function TwoDigits(n: nat): (r: string)
    requires n < 100
    ensures |r| == 2 && IsDigits(r)
  {
    [DigitChar(n / 10), DigitChar(n % 10)]
  }

  /** `'%04d'` for a number below 10000. */
  function FourDigits(n: nat): (r: string)
    requires n < 10000
    ensures |r| == 4 && IsDigits(r)
  {
    var thousands, hundreds, tens := n / 1000, n / 100, n / 10;
    assert thousands < 10;
    [DigitChar(thousands), DigitChar(hundreds % 10), DigitChar(tens % 10), DigitChar(n % 10)]
  }

  /** `date.isoformat()`: `YYYY-MM-DD`, the extended calendar date of ISO 8601. */
  function IsoDate(d: Date): (r: string)
    requires FieldsInRange(d)
    ensures |r| == 10 && r[4] == '-' && r[7] == '-'
    ensures IsDigits(r[..4]) && IsDigits(r[5..7]) && IsDigits(r[8..])
  {
    var y, m, dd := FourDigits(d.year), TwoDigits(d.month), TwoDigits(d.day);
    var r := y + ['-'] + m + ['-'] + dd;
    assert r[..4] == y && r[5..7] == m && r[8..] == dd;
    r
  }

  /** `datetime.isoformat()` for a whole-second, naive datetime: `YYYY-MM-DDTHH:MM:SS`. */
  function IsoDateTime(d: Date, hour: nat, minute: nat, second: nat): (r: string)
    requires FieldsInRange(d) && hour < 24 && minute < 60 && second < 60
    ensures |r| == 19 && r[..10] == IsoDate(d) && r[10] == 'T'
  {
    var date := IsoDate(d);
    var r := date + ['T'] + TwoDigits(hour) + [':'] + TwoDigits(minute) + [':'] + TwoDigits(second);
    assert r[..10] == date;
    r
  }

  /** The conversion applied before values are written as JSON:
      `v.isoformat()` for dates and datetimes, every other value unchanged. */
  function IsoCell(v: Value): (r: Value)
    requires ValidValue(v)
    ensures v.PyDate? ==> r == PyStr(IsoDate(v.date))
    ensures v.PyDateTime? ==> r.PyStr? && |r.s| == 19 && r.s[..10] == IsoDate(v.date)
    ensures !v.PyDate? && !v.PyDateTime? ==> r == v
    ensures !r.PyDate? && !r.PyDateTime? && ValidValue(r)
  {
    match v
    case PyDate(d) => PyStr(IsoDate(d))
    case PyDateTime(d, h, mi, sec) => PyStr(IsoDateTime(d, h, mi, sec))
    case _ => v
  }

  /** Converting an already converted value changes nothing. */
  lemma IsoCellIdempotent(v: Value)
    requires ValidValue(v)
    ensures IsoCell(IsoCell(v)) == IsoCell(v)
  {
  }
}
