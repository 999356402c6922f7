/** The profile page script (petshop/static/js/profile.js): the birth-date
    field shown in one of three user formats and converted to ISO 8601
    `YYYY-MM-DD` on submit and on a change of format, and the phone field
    kept in the `+7…` shape. */
module ProfileJs {
  import opened Wrappers
  import opened Text

  /** The three date formats of the format selector. */
  const DayFirst: string := "%d.%m.%Y"
  const YearFirst: string := "%Y.%m.%d"
  const MonthFirst: string := "%m/%d/%Y"

  predicate KnownFormat(format: string)
  {
    format == DayFirst || format == YearFirst || format == MonthFirst
  }

  /** The day, month and year a date string is destructured into. A part the
      string does not have is JavaScript's `undefined`; like "" it is falsy,
      and it is written "" here. */
  datatype DateParts = DateParts(day: string, month: string, year: string)

  predicate Complete(p: DateParts)
  {
    p.day != "" && p.month != "" && p.year != ""
  }

  /** Element `k` of an array destructuring: "" past the end; extra elements
      are ignored. */
  function Part(parts: seq<string>, k: nat): string
  {
    if k < |parts| then parts[k] else ""
  }

  /** The reading of `formatDateByPattern`: `Y-M-D` when the string has a
      '-', else `D.M.Y` when it has a '.', else `M/D/Y` when it has a '/';
      with none of them every part is missing. */
  function Destructure(s: string): DateParts
  {
    if '-' in s then
      var p := Split(s, '-');
      DateParts(Part(p, 2), Part(p, 1), Part(p, 0))
    else if '.' in s then
      var p := Split(s, '.');
      DateParts(Part(p, 0), Part(p, 1), Part(p, 2))
    else if '/' in s then
      var p := Split(s, '/');
      DateParts(Part(p, 1), Part(p, 0), Part(p, 2))
    else DateParts("", "", "")
  }

  /** The output switch: one order per known format, `D.M.Y` otherwise. */
  function Render(p: DateParts, format: string): string
  {
    if format == YearFirst then p.year + "." + p.month + "." + p.day
    else if format == MonthFirst then p.month + "/" + p.day + "/" + p.year
    else p.day + "." + p.month + "." + p.year
  }

  /** `formatDateByPattern`: "" for an empty string or a missing part. */
  function FormatDateByPattern(dateString: string, format: string): (r: string)
    ensures dateString == "" ==> r == ""
    ensures r == "" <==> !Complete(Destructure(dateString))
    ensures r != "" ==> r == Render(Destructure(dateString), format)
  {
    if dateString == "" then ""
    else
      var p := Destructure(dateString);
      if !Complete(p) then "" else Render(p, format)
  }

  /** The reading of `convertToISO`, fixed by the format rather than by the
      separators present; `None` for a format it does not know. */
  function ReadAs(s: string, format: string): (r: Option<DateParts>)
    ensures r.Some? <==> KnownFormat(format)
  {
    if format == DayFirst then
      var p := Split(s, '.');
      Some(DateParts(Part(p, 0), Part(p, 1), Part(p, 2)))
    else if format == YearFirst then
      var p := Split(s, '.');
      Some(DateParts(Part(p, 2), Part(p, 1), Part(p, 0)))
    else if format == MonthFirst then
      var p := Split(s, '/');
      Some(DateParts(Part(p, 1), Part(p, 0), Part(p, 2)))
    else None
  }

  /** The ISO text of a complete reading: month and day padded to two
      characters with '0'. */
  function IsoText(p: DateParts): string
  {
    p.year + "-" + PadStart(p.month, 2, '0') + "-" + PadStart(p.day, 2, '0')
  }

  /** `convertToISO`: null (`None`) for an empty string, an unknown format
      or a missing part. */
  function ConvertToIso(dateString: string, format: string): (r: Option<string>)
    ensures dateString == "" || !KnownFormat(format) ==> r.None?
    ensures r.Some? <==> (dateString != "" && KnownFormat(format)
                          && Complete(ReadAs(dateString, format).value))
    ensures r.Some? ==> r.value == IsoText(ReadAs(dateString, format).value)
  {
    if dateString == "" then None
    else
      match ReadAs(dateString, format)
      case None => None
      case Some(p) => if !Complete(p) then None else Some(IsoText(p))
  }

  /** `formatPlaceholder`: the Cyrillic mask of a format, the day-first mask
      for an unknown one. */
  function FormatPlaceholder(format: string): (r: string)
    ensures format == YearFirst ==> r == "ГГГГ.ММ.ДД"
    ensures format == MonthFirst ==> r == "ММ/ДД/ГГГГ"
    ensures format != YearFirst && format != MonthFirst ==> r == "ДД.ММ.ГГГГ"
  {
    if format == DayFirst then "ДД.ММ.ГГГГ"
    else if format == YearFirst then "ГГГГ.ММ.ДД"
    else if format == MonthFirst then "ММ/ДД/ГГГГ"
    else "ДД.ММ.ГГГГ"
  }

  /** A string with no separator character: a well-formed date component. */
  predicate Component(s: string)
  {
    s != "" && '-' !in s && '.' !in s && '/' !in s
  }

  /** Three separator-free pieces glued with a separator split back into
      exactly those pieces. */
  lemma SplitThree(a: string, b: string, c: string, sep: char)
    requires sep !in a && sep !in b && sep !in c
    ensures Split(a + [sep] + b + [sep] + c, sep) == [a, b, c]
  {
    var p, q := a + [sep], b + [sep];
    assert (p + b) + [sep] == p + q;
    assert (p + q) + c == p + (q + c);
    SplitPrefix(a, b + [sep] + c, sep);
    SplitPrefix(b, c, sep);
    SplitNoSep(c, sep);
  }

  /** An ISO-ordered string `Y-M-D` is read year, month, day and written out in
      the order of the format. */
  lemma FormatIso(y: string, m: string, d: string, format: string)
    requires Component(y) && Component(m) && Component(d)
    ensures FormatDateByPattern(y + "-" + m + "-" + d, format)
            == Render(DateParts(d, m, y), format)
  {
    var s := y + "-" + m + "-" + d;
    assert s[|y|] == '-';
    SplitThree(y, m, d, '-');
  }

  /** A string `D.M.Y` without '-' is read day, month, year. */
  lemma FormatDotted(d: string, m: string, y: string, format: string)
    requires Component(y) && Component(m) && Component(d)
    ensures FormatDateByPattern(d + "." + m + "." + y, format)
            == Render(DateParts(d, m, y), format)
  {
    var s := d + "." + m + "." + y;
    assert s[|d|] == '.';
    SplitThree(d, m, y, '.');
  }

  /** A string `M/D/Y` without '-' or '.' is read month, day, year. */
  lemma FormatSlashed(m: string, d: string, y: string, format: string)
    requires Component(y) && Component(m) && Component(d)
    ensures FormatDateByPattern(m + "/" + d + "/" + y, format)
            == Render(DateParts(d, m, y), format)
  {
    var s := m + "/" + d + "/" + y;
    assert s[|m|] == '/';
    SplitThree(m, d, y, '/');
  }

  /** The three output orders, and the day-first fallback. */
  lemma RenderOrders(p: DateParts, format: string)
    ensures format == YearFirst ==> Render(p, format) == p.year + "." + p.month + "." + p.day
    ensures format == MonthFirst ==> Render(p, format) == p.month + "/" + p.day + "/" + p.year
    ensures !KnownFormat(format) ==> Render(p, format) == Render(p, DayFirst)
    ensures Render(p, DayFirst) == p.day + "." + p.month + "." + p.year
  {
  }

  /** An unknown format is written as `%d.%m.%Y`. */
  lemma UnknownFormatFallsBack(s: string, format: string)
    requires !KnownFormat(format)
    ensures FormatDateByPattern(s, format) == FormatDateByPattern(s, DayFirst)
  {
  }

  /** Padding to two characters leaves a part of two characters as it is. */
  lemma PadTwo(s: string)
    requires |s| == 2
    ensures PadStart(s, 2, '0') == s
  {
  }

  /** The padded pieces carry no '-', so the ISO text splits back into the
      year and the padded month and day. */
  lemma IsoTextSplits(p: DateParts)
    requires '-' !in p.year && '-' !in p.month && '-' !in p.day
    ensures Split(IsoText(p), '-')
            == [p.year, PadStart(p.month, 2, '0'), PadStart(p.day, 2, '0')]
  {
    PadNoDash(p.month);
    PadNoDash(p.day);
    SplitThree(p.year, PadStart(p.month, 2, '0'), PadStart(p.day, 2, '0'), '-');
  }

  lemma PadNoDash(s: string)
    requires '-' !in s
    ensures '-' !in PadStart(s, 2, '0')
  {
    var r := PadStart(s, 2, '0');
    forall i | 0 <= i < |r|
      ensures r[i] != '-'
    {
      if i >= |r| - |s| {
        assert r[i] == s[i - (|r| - |s|)];
      }
    }
  }

  /** The ISO text of a successful conversion has month and day of at least
      two characters, each ending in the part that was read. */
  lemma ConvertToIsoPadded(s: string, format: string)
    requires ConvertToIso(s, format).Some?
    requires var p := ReadAs(s, format).value;
             '-' !in p.year && '-' !in p.month && '-' !in p.day
    ensures var p := ReadAs(s, format).value;
            var parts := Split(ConvertToIso(s, format).value, '-');
            |parts| == 3 && parts[0] == p.year
            && |parts[1]| >= 2 && |parts[1]| >= |p.month| && parts[1][|parts[1]| - |p.month|..] == p.month
            && |parts[2]| >= 2 && |parts[2]| >= |p.day| && parts[2][|parts[2]| - |p.day|..] == p.day
  {
    IsoTextSplits(ReadAs(s, format).value);
  }

  /** Formatting an ISO date with two-digit month and day in any of the three
      formats and converting it back with the same format gives the ISO date
      again. */
  lemma {:induction false} IsoRoundTrip(y: string, m: string, d: string, format: string)
    requires Component(y) && Component(m) && Component(d)
    requires |m| == 2 && |d| == 2
    requires KnownFormat(format)
    ensures ConvertToIso(FormatDateByPattern(y + "-" + m + "-" + d, format), format)
            == Some(y + "-" + m + "-" + d)
  {
    FormatIso(y, m, d, format);
    PadTwo(m);
    PadTwo(d);
    if format == DayFirst {
      SplitThree(d, m, y, '.');
    } else if format == YearFirst {
      SplitThree(y, m, d, '.');
    } else {
      SplitThree(m, d, y, '/');
    }
  }

  /** The format a change handler converts from: the previous one, or
      `%d.%m.%Y` when none is recorded. */
  function EffectiveFormat(prevFormat: string): (f: string)
    ensures prevFormat != "" ==> f == prevFormat
    ensures prevFormat == "" ==> f == DayFirst
  {
    if prevFormat != "" then prevFormat else DayFirst
  }

  /** The field text after a change of format: the date is converted to ISO
      with the old format and written in the new one; "" when it does not
      convert. A converted string is never "", so the handler's truthiness
      test is `Some?`. */
  function Reformat(value: string, prevFormat: string, newFormat: string): (r: string)
    ensures ConvertToIso(value, EffectiveFormat(prevFormat)).None? ==> r == ""
    ensures ConvertToIso(value, EffectiveFormat(prevFormat)).Some?
            ==> r == FormatDateByPattern(ConvertToIso(value, EffectiveFormat(prevFormat)).value, newFormat)
  {
    match ConvertToIso(value, EffectiveFormat(prevFormat))
    case None => ""
    case Some(iso) => FormatDateByPattern(iso, newFormat)
  }

  /** A date shown in a known format is shown, after a change, as the same
      ISO date in the new format. */
  lemma ReformatKeepsDate(y: string, m: string, d: string, oldFormat: string, newFormat: string)
    requires Component(y) && Component(m) && Component(d)
    requires |m| == 2 && |d| == 2
    requires KnownFormat(oldFormat)
    ensures Reformat(FormatDateByPattern(y + "-" + m + "-" + d, oldFormat), oldFormat, newFormat)
            == FormatDateByPattern(y + "-" + m + "-" + d, newFormat)
  {
    IsoRoundTrip(y, m, d, oldFormat);
  }

  /** Changing to another known format and back restores the field text. */
  lemma ReformatBack(y: string, m: string, d: string, f1: string, f2: string)
    requires Component(y) && Component(m) && Component(d)
    requires |m| == 2 && |d| == 2
    requires KnownFormat(f1) && KnownFormat(f2)
    ensures var v := FormatDateByPattern(y + "-" + m + "-" + d, f1);
            Reformat(Reformat(v, f1, f2), f2, f1) == v
  {
    ReformatKeepsDate(y, m, d, f1, f2);
    ReformatKeepsDate(y, m, d, f2, f1);
  }

  /** The outcome of the submit handler's date check: an error, or the ISO
      date sent (`None` sends null for an empty field). */
  datatype DateSubmission = DateRejected | DateSent(isoDate: Option<string>)

  function SubmitDate(value: string, format: string): (r: DateSubmission)
    ensures r.DateRejected? <==> (value != "" && ConvertToIso(value, format).None?)
    ensures r.DateSent? ==> r.isoDate == ConvertToIso(value, format)
    ensures value == "" ==> r == DateSent(None)
  {
    var iso := ConvertToIso(value, format);
    if value != "" && iso.None? then DateRejected else DateSent(iso)
  }

  predicate DateChar(c: char)
  {
    IsDigit(c) || c == '.' || c == '/'
  }

  /** The date field's `input` filter: every character other than a digit,
      '.' or '/' is removed. */
  function KeepDateChars(s: string): (r: string)
    ensures |r| <= |s|
    ensures forall i :: 0 <= i < |r| ==> DateChar(r[i])
    ensures '-' !in r
  {
    if s == [] then []
    else if DateChar(s[0]) then [s[0]] + KeepDateChars(s[1..])
    else KeepDateChars(s[1..])
  }

  /** The filter keeps a string of allowed characters as it is, so filtering
      twice is filtering once. */
  lemma {:induction false} KeepDateCharsKeeps(s: string)
    requires forall i :: 0 <= i < |s| ==> DateChar(s[i])
    ensures KeepDateChars(s) == s
  {
    if s != [] {
      KeepDateCharsKeeps(s[1..]);
    }
  }

  lemma KeepDateCharsIdempotent(s: string)
    ensures KeepDateChars(KeepDateChars(s)) == KeepDateChars(s)
  {
    KeepDateCharsKeeps(KeepDateChars(s));
  }

  /** The phone field's `input` handler: the digits, with a '7' put in front
      when they do not start with one, cut to 11 and preceded by '+'. */
  function NormalizePhone(value: string): (r: string)
    ensures 2 <= |r| <= 12 && r[0] == '+' && r[1] == '7'
    ensures IsDigits(r[1..])
  {
    var numbers := DigitsOf(value);
    var withSeven := if StartsWith(numbers, "7") then numbers else "7" + numbers;
    "+" + withSeven[..if |withSeven| < 11 then |withSeven| else 11]
  }

  /** Digits that already start with '7' and fit in 11 are kept as they are. */
  lemma NormalizeKeepsNumber(value: string)
    requires StartsWith(DigitsOf(value), "7") && |DigitsOf(value)| <= 11
    ensures NormalizePhone(value) == "+" + DigitsOf(value)
  {
  }

  /** Normalising a normalised phone changes nothing. */
  lemma NormalizeIdempotent(value: string)
    ensures NormalizePhone(NormalizePhone(value)) == NormalizePhone(value)
  {
    var r := NormalizePhone(value);
    assert r == "+" + r[1..];
    DigitsOfConcat("+", r[1..]);
    DigitsOfNone("+");
    DigitsOfDigits(r[1..]);
    assert DigitsOf(r) == r[1..];
    NormalizeKeepsNumber(r);
  }

  /** `ensurePlus7`: an empty field becomes "+7"; any other is left alone. */
  function EnsurePlus7(value: string): (r: string)
    ensures value == "" ==> r == "+7"
    ensures value != "" ==> r == value
  {
    if value == "" then "+7" else value
  }

  /** The phone field: its text and the caret position. */
  class ProfilePhoneInput {
    var value: string
    var selectionStart: nat

    /** Loading the profile: the stored phone, or "+7" when there is none. */
    constructor (phone: string)
      ensures value == EnsurePlus7(phone) && selectionStart == 0
    {
      value := EnsurePlus7(phone);
      selectionStart := 0;
    }

    method OnInput()
      modifies this
      ensures value == NormalizePhone(old(value))
      ensures selectionStart == old(selectionStart)
    {
      value := NormalizePhone(value);
    }

    method OnBlur()
      modifies this
      ensures value == EnsurePlus7(old(value))
      ensures selectionStart == old(selectionStart)
    {
      value := EnsurePlus7(value);
    }

    /** A click before the "+7" puts the caret just after it. */
    method OnClick()
      modifies this
      ensures selectionStart == (if old(selectionStart) < 2 then 2 else old(selectionStart))
      ensures value == old(value)
    {
      if selectionStart < 2 {
        selectionStart := 2;
      }
    }

    /** The `keydown` guard: Backspace and Delete are cancelled while the caret
        is within the "+7". */
    method OnKeyDown(key: string) returns (prevented: bool)
      ensures prevented <==> (selectionStart <= 2 && (key == "Backspace" || key == "Delete"))
    {
      prevented := selectionStart <= 2 && (key == "Backspace" || key == "Delete");
    }
  }

  /** The date field together with the format selector and the format it was
      last shown in (`dataset.prevFormat`, "" when unset). */
  class ProfileDateField {
    var value: string
    var placeholder: string
    var format: string
    var prevFormat: string

    constructor (selectValue: string)
      ensures value == "" && placeholder == "" && format == selectValue && prevFormat == ""
    {
      value := "";
      placeholder := "";
      format := selectValue;
      prevFormat := "";
    }

    /** Loading the profile: the stored format (day-first when none) is
        selected and recorded, and a stored birth date is shown in it. */
    method Load(dateFormat: string, dateOfBirth: string)
      modifies this
      ensures format == (if dateFormat != "" then dateFormat else DayFirst)
      ensures prevFormat == format
      ensures placeholder == FormatPlaceholder(format)
      ensures value == (if dateOfBirth != "" then FormatDateByPattern(dateOfBirth, format) else old(value))
    {
      var f := if dateFormat != "" then dateFormat else DayFirst;
      format := f;
      prevFormat := f;
      placeholder := FormatPlaceholder(f);
      if dateOfBirth != "" {
        value := FormatDateByPattern(dateOfBirth, f);
      }
    }

    method OnInput()
      modifies this
      ensures value == KeepDateChars(old(value))
      ensures placeholder == old(placeholder) && format == old(format) && prevFormat == old(prevFormat)
    {
      value := KeepDateChars(value);
    }

    /** The selector's `change` handler. */
    method OnFormatChange(newFormat: string)
      modifies this
      ensures value == Reformat(old(value), old(prevFormat), newFormat)
      ensures placeholder == FormatPlaceholder(newFormat)
      ensures format == newFormat && prevFormat == newFormat
    {
      var oldFormat := if prevFormat != "" then prevFormat else DayFirst;
      var iso := ConvertToIso(value, oldFormat);
      format := newFormat;
      value := if iso.Some? then FormatDateByPattern(iso.value, newFormat) else "";
      placeholder := FormatPlaceholder(newFormat);
      prevFormat := newFormat;
    }
  }
}
