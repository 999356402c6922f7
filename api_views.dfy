/** The pure rules of the REST views outside the shop state: the
    at-least-18 age rule of registration and profile update, the owner check
    of the order detail view, and the rendering of backup cells as JSON values
    and SQL literals. */
module ApiViews {
  import opened Wrappers
  import opened Text
  import opened PyValue
  import Models

  // ---------------------------------------------------------------------------
  // Age rule (RegisterAPIView.post, ProfileAPIView.put)
  // ---------------------------------------------------------------------------

  /** Python's `(m1, d1) < (m2, d2)` on (month, day) pairs. */
  predicate MonthDayBefore(m1: int, d1: int, m2: int, d2: int) {
    m1 < m2 || (m1 == m2 && d1 < d2)
  }

  /** Completed years: the year difference, minus one while this year's
      birthday is still ahead (the `bool` subtracted counts as 0 or 1). */
  function Age(dob: Date, today: Date): int {
    today.year - dob.year - (if MonthDayBefore(today.month, today.day, dob.month, dob.day) then 1 else 0)
  }

  /** The date of the 18th birthday, as a (year, month, day) tuple. */
  function EighteenthBirthday(dob: Date): Date {
    Date(dob.year + 18, dob.month, dob.day)
  }

  /** The age is at least 18 exactly when the 18th birthday is not after today. */
  lemma AdultIffBirthdayReached(dob: Date, today: Date)
    ensures Age(dob, today) >= 18 <==> !Before(today, EighteenthBirthday(dob))
  {
  }

  /** Age is monotone in today's date. */
  lemma AgeMonotone(dob: Date, t1: Date, t2: Date)
    requires Before(t1, t2)
    ensures Age(dob, t1) <= Age(dob, t2)
  {
  }

  datatype AgeError = Underage

  /** The check made after the serializer accepted the data: it applies only
      when a birth date was given and rejects an age below 18. */
  function CheckAge(dob: Option<Date>, today: Date): (r: Result<(), AgeError>)
    ensures r.Ok? <==> (dob.None? || !Before(today, EighteenthBirthday(dob.value)))
  {
    if dob.Some? then
      AdultIffBirthdayReached(dob.value, today);
      if Age(dob.value, today) < 18 then Err(Underage) else Ok(())
    else Ok(())
  }

  // ---------------------------------------------------------------------------
  // OrderDetailAPIView.get
  // ---------------------------------------------------------------------------

  datatype DetailError = NotFound | Forbidden

  /** Look the order up by id (`orders[pk - 1]`), 404 when absent, 403 when
      it belongs to another user. */
  function OrderDetail(orders: seq<Models.Order>, pk: int, user: Models.UserId): (r: Result<Models.Order, DetailError>)
    ensures r.Err? && r.error == NotFound <==> !(1 <= pk <= |orders|)
    ensures r.Err? && r.error == Forbidden <==> 1 <= pk <= |orders| && orders[pk - 1].user != user
    ensures r.Ok? ==> 1 <= pk <= |orders| && r.value == orders[pk - 1] && r.value.user == user
  {
    if !(1 <= pk <= |orders|) then Err(NotFound)
    else if orders[pk - 1].user != user then Err(Forbidden)
    else Ok(orders[pk - 1])
  }

  // ---------------------------------------------------------------------------
  // CreateBackupAPIView.post: JSON cells and SQL literals
  // ---------------------------------------------------------------------------

  /** Each `'` of the text doubled: the <quote symbol> of a <character string
      literal>, section 5.3 of ISO/IEC 9075-2. */
  function EscapeQuotes(s: string): (r: string)
    ensures |r| >= |s|
  {
    if s == [] then []
    else if s[0] == '\'' then "''" + EscapeQuotes(s[1..])
    else [s[0]] + EscapeQuotes(s[1..])
  }

  /** Reads the body of a character string literal: every `'` must come as
      a doubled pair, which stands for one `'`. */
  function UnescapeQuotes(body: string): (r: Option<string>)
    decreases |body|
  {
    if body == [] then Some([])
    else if body[0] == '\'' then
      if |body| >= 2 && body[1] == '\'' then
        match UnescapeQuotes(body[2..])
        case Some(rest) => Some(['\''] + rest)
        case None => None
      else None
    else
      match UnescapeQuotes(body[1..])
      case Some(rest) => Some([body[0]] + rest)
      case None => None
  }

  /** The SQL text of one value in an INSERT of the backup script. */
  function SqlLiteral(v: Value): string
    requires ValidValue(v)
  {
    match v
    case PyNone => "NULL"
    case PyStr(s) => "'" + EscapeQuotes(s) + "'"
    case PyBool(b) => if b then "TRUE" else "FALSE"
    case PyInt(i) => IntToString(i)
    case PyDate(d) => IsoDate(d)
    case PyDateTime(d, h, mi, sec) => IsoDate(d) + " " + IsoDateTime(d, h, mi, sec)[11..]
  }

  /** NULL for None, the keywords for booleans, and a string in quotes around
      its escaped body; never empty. */
  lemma SqlLiteralShape(v: Value)
    requires ValidValue(v)
    ensures var r := SqlLiteral(v);
            |r| >= 1
            && (v.PyNone? ==> r == "NULL")
            && (v.PyBool? ==> r == (if v.b then "TRUE" else "FALSE"))
            && (v.PyStr? ==> |r| >= 2 && r[0] == '\'' && r[|r| - 1] == '\'' && r[1..|r| - 1] == EscapeQuotes(v.s))
  {
    if v.PyStr? {
      var r := SqlLiteral(v);
      assert r == "'" + EscapeQuotes(v.s) + "'";
      assert r[1..|r| - 1] == EscapeQuotes(v.s);
    }
  }

  /** Reads a character string literal back: `'`, a body, `'`. */
  function ParseStringLiteral(t: string): (r: Option<string>)
  {
    if |t| >= 2 && t[0] == '\'' && t[|t| - 1] == '\'' then UnescapeQuotes(t[1..|t| - 1]) else None
  }

  /** Escaping of text without quotes changes nothing. */
  lemma {:induction false} EscapeWithoutQuotes(s: string)
    requires '\'' !in s
    ensures EscapeQuotes(s) == s
  {
    if s != [] {
      assert '\'' !in s[1..];
      EscapeWithoutQuotes(s[1..]);
    }
  }

  /** Reading an escaped body gives the original text back. */
  lemma {:induction false} UnescapeEscape(s: string)
    ensures UnescapeQuotes(EscapeQuotes(s)) == Some(s)
  {
    if s != [] {
      UnescapeEscape(s[1..]);
      if s[0] == '\'' {
        var e := "''" + EscapeQuotes(s[1..]);
        assert e[2..] == EscapeQuotes(s[1..]);
      } else {
        var e := [s[0]] + EscapeQuotes(s[1..]);
        assert e[1..] == EscapeQuotes(s[1..]);
      }
      assert [s[0]] + s[1..] == s;
    }
  }

  /** A body that reads back was produced by escaping what it reads as:
      the escaping is onto the well-formed bodies. */
  lemma {:induction false} EscapeUnescape(body: string)
    requires UnescapeQuotes(body).Some?
    ensures EscapeQuotes(UnescapeQuotes(body).value) == body
    decreases |body|
  {
    if body != [] {
      if body[0] == '\'' {
        EscapeUnescape(body[2..]);
        assert body == "''" + body[2..];
      } else {
        EscapeUnescape(body[1..]);
        assert body == [body[0]] + body[1..];
      }
    }
  }

  /** Rendering a string and reading the literal back gives the string. */
  lemma StringLiteralRoundTrip(s: string)
    ensures ParseStringLiteral(SqlLiteral(PyStr(s))) == Some(s)
  {
    var t := SqlLiteral(PyStr(s));
    UnescapeEscape(s);
    assert t[1..|t| - 1] == EscapeQuotes(s);
  }

  /** Exactly the strings render as character string literals: NULL, the
      booleans, numbers and dates never start with a quote. */
  lemma {:induction false} OnlyStringsAreQuoted(v: Value)
    requires ValidValue(v)
    ensures ParseStringLiteral(SqlLiteral(v)).Some? <==> v.PyStr?
  {
    if v.PyStr? {
      StringLiteralRoundTrip(v.s);
    } else if v.PyDate? || v.PyDateTime? {
      var t := SqlLiteral(v);
      assert t[0] == IsoDate(v.date)[0];
      assert IsDigit(IsoDate(v.date)[..4][0]);
    }
  }

  /** Distinct strings render to distinct literals. */
  lemma StringLiteralInjective(s1: string, s2: string)
    requires SqlLiteral(PyStr(s1)) == SqlLiteral(PyStr(s2))
    ensures s1 == s2
  {
    StringLiteralRoundTrip(s1);
    StringLiteralRoundTrip(s2);
  }

  /** A date cell reaches the script as its ISO form in quotes. */
  lemma BackupDateLiteral(d: Date)
    requires FieldsInRange(d)
    ensures SqlLiteral(IsoCell(PyDate(d))) == "'" + IsoDate(d) + "'"
  {
    var iso := IsoDate(d);
    forall i | 0 <= i < |iso|
      ensures iso[i] != '\''
    {
      if i < 4 { assert iso[..4][i] == iso[i]; }
      else if 5 <= i < 7 { assert iso[5..7][i - 5] == iso[i]; }
      else if 8 <= i { assert iso[8..][i - 8] == iso[i]; }
    }
    EscapeWithoutQuotes(iso);
  }

  /** The row dictionary of the JSON backup, built column by column
      (`row_dict[col] = ...` for each `enumerate(columns)`). */
  method BackupRow(columns: seq<string>, row: seq<Value>) returns (d: map<string, Value>)
    requires |row| == |columns|
    requires forall i, j :: 0 <= i < j < |columns| ==> columns[i] != columns[j]
    requires forall i :: 0 <= i < |row| ==> ValidValue(row[i])
    ensures d.Keys == set c | c in columns
    ensures forall i :: 0 <= i < |columns| ==> d[columns[i]] == IsoCell(row[i])
  {
    ghost var cells := seq(|row|, i requires 0 <= i < |row| => IsoCell(row[i]));
    d := map[];
    var k := 0;
    while k < |columns|
      invariant 0 <= k <= |columns|
      invariant d.Keys == set c | c in columns[..k]
      invariant forall i :: 0 <= i < k ==> d[columns[i]] == cells[i]
    {
      assert columns[..k + 1] == columns[..k] + [columns[k]];
      var value := IsoCell(row[k]);
      assert value == cells[k];
      d := d[columns[k] := value];
      k := k + 1;
    }
    assert columns[..k] == columns;
  }

  /** The value list of one INSERT statement, one literal per column in
      column order. */
  method RenderRow(columns: seq<string>, row: map<string, Value>) returns (values: seq<string>)
    requires forall i :: 0 <= i < |columns| ==> columns[i] in row && ValidValue(row[columns[i]])
    ensures |values| == |columns|
    ensures forall i :: 0 <= i < |columns| ==> values[i] == SqlLiteral(row[columns[i]])
  {
    ghost var expected := seq(|columns|, i requires 0 <= i < |columns| => SqlLiteral(row[columns[i]]));
    values := [];
    for k := 0 to |columns|
      invariant values == expected[..k]
    {
      var cell := row[columns[k]];
      var literal := SqlLiteral(cell);
      assert expected[..k + 1] == expected[..k] + [literal];
      values := values + [literal];
    }
    assert values == expected;
  }
}
