/** The Apps Script web app that records section visits in the
    'Analytics' sheet (google-apps-script.js, `doPost`). The sheet is a list
    of rows of cells; row 1 is the header. */
module AppsScript {
  import opened Wrappers
  import opened Text

  /** A cell value as `getValues` returns it. */
  datatype Value = Str(s: string) | Num(n: int)

  type Row = seq<Value>

  /** The parsed request body. */
  datatype Request = Request(userId: string, fullName: string, section: string, timestamp: string)

  /** The JSON answer: `success` and its `message` or `error` text. */
  datatype Response = Response(success: bool, text: string)

  const SuccessMessage: string := "Analytics tracked successfully"

  const HeaderRow: Row := [
    Str("User ID"),
    Str("Full Name"),
    Str("Умный нутрициолог"),
    Str("Расшифровщик анализов"),
    Str("Персональный гороскоп"),
    Str("Аффирмации красоты"),
    Str("Последнее посещение")
  ]

  /** Column of the user id, the name, and the last-visit time (1-based). */
  const NameColumn: int := 2
  const TimestampColumn: int := 7

  /** The own keys of `sectionColumns`: a 1-based sheet column for each known section. */
  function SectionColumn(section: string): (r: Option<int>)
    ensures r.Some? ==> 3 <= r.value <= 6
  {
    if section == "bmi-calculator" then Some(3)
    else if section == "lab-analysis" then Some(4)
    else if section == "horoscope" then Some(5)
    else if section == "affirmation" then Some(6)
    else None
  }

  /** The four known sections, and only they, have a column; different sections have different columns. */
  lemma SectionColumnsKnown(a: string, b: string)
    ensures SectionColumn(a).Some? <==> a in {"bmi-calculator", "lab-analysis", "horoscope", "affirmation"}
    ensures SectionColumn(a).Some? && SectionColumn(a) == SectionColumn(b) ==> a == b
  {
  }

  /** What `sectionColumns[section]` finds on a plain object literal: an own
      column, an inherited `Object.prototype` member (a truthy function or
      object), or nothing. */
  datatype Lookup = Own(column: int) | Inherited | Absent

  const ObjectPrototypeKeys: set<string> := {
    "constructor", "hasOwnProperty", "isPrototypeOf", "propertyIsEnumerable",
    "toLocaleString", "toString", "valueOf", "__proto__",
    "__defineGetter__", "__defineSetter__", "__lookupGetter__", "__lookupSetter__"
  }

  /** The lookup as the script performs it, inherited members included. */
  function PropertyLookup(section: string): (r: Lookup)
    ensures r.Own? ==> 3 <= r.column <= 6
  {
    if SectionColumn(section).Some? then Own(SectionColumn(section).value)
    else if section in ObjectPrototypeKeys then Inherited
    else Absent
  }

  /** The lookup the guard is meant to perform: own keys only. */
  function OwnLookup(section: string): (r: Lookup)
    ensures !r.Inherited?
    ensures r.Own? ==> 3 <= r.column <= 6
  {
    if SectionColumn(section).Some? then Own(SectionColumn(section).value) else Absent
  }

  /** A cell read by `getRange(r, c).getValue()`; beyond a row's end the cell is empty. */
  function Cell(row: Row, c: nat): Value {
    if c < |row| then row[c] else Str("")
  }

  /** A cell write by `setValue`, padding the row with empty cells when needed. */
  function SetCell(row: Row, c: nat, v: Value): (r: Row)
    ensures |r| == if c < |row| then |row| else c + 1
    ensures Cell(r, c) == v
    ensures forall k :: 0 <= k < |r| && k != c ==> Cell(r, k) == Cell(row, k)
  {
    if c < |row| then row[c := v] else row + seq(c - |row|, _ => Str("")) + [v]
  }

  /** `cell == userId` with a string on the right: a number cell equals its decimal spelling. */
  predicate LooseEquals(v: Value, s: string) {
    match v
    case Str(t) => t == s
    case Num(n) => IntToString(n) == s
  }

  /** `currentCount + 1`: numbers add, strings concatenate. */
  function Increment(v: Value): Value {
    match v
    case Num(n) => Num(n + 1)
    case Str(s) => Str(s + "1")
  }

  /** Index of the first row at or after `from` whose first cell equals `userId`, or -1. */
  function FirstUserIndex(rows: seq<Row>, userId: string, from: nat): (r: int)
    ensures r == -1 || (from <= r < |rows| && LooseEquals(Cell(rows[r], 0), userId))
    ensures forall i :: from <= i < |rows| && (r == -1 || i < r) ==> !LooseEquals(Cell(rows[i], 0), userId)
    decreases |rows| - from
  {
    if from >= |rows| then -1
    else if LooseEquals(Cell(rows[from], 0), userId) then from
    else FirstUserIndex(rows, userId, from + 1)
  }

  /** The row appended for a first visit: id, name, four zero counters with 1 at the section, timestamp. */
  function NewUserRow(req: Request, column: int): Row
    requires 1 <= column <= 7
  {
    [Str(req.userId), Str(req.fullName), Num(0), Num(0), Num(0), Num(0), Str(req.timestamp)][column - 1 := Num(1)]
  }

  /** An existing user's row after a visit: name overwritten, section counter incremented, timestamp overwritten. */
  function VisitedRow(row: Row, req: Request, column: int): Row
    requires column >= 1
  {
    var named := SetCell(row, NameColumn - 1, Str(req.fullName));
    var counted := SetCell(named, column - 1, Increment(Cell(named, column - 1)));
    SetCell(counted, TimestampColumn - 1, Str(req.timestamp))
  }

  /** `doPost` on the sheet (`None` when it does not exist yet), with the
      section lookup the script performs (`ownOnly` false) or the one it is meant
      to perform (`ownOnly` true). `rangeError` is the text of the exception
      `getRange` raises for a non-numeric column. */
  function PostWith(sheet: Option<seq<Row>>, body: Result<Request, string>,
                    ownOnly: bool, rangeError: string): (Option<seq<Row>>, Response)
  {
    if body.Failure? then (sheet, Response(false, body.error))
    else
      var req := body.value;
      var rows := if sheet.None? then [HeaderRow] else sheet.value;
      var idx := FirstUserIndex(rows, req.userId, 1);
      match if ownOnly then OwnLookup(req.section) else PropertyLookup(req.section)
      case Absent => (Some(rows), Response(false, "Invalid section: " + req.section))
      case Own(column) =>
        if idx == -1 then (Some(rows + [NewUserRow(req, column)]), Response(true, SuccessMessage))
        else (Some(rows[idx := VisitedRow(rows[idx], req, column)]), Response(true, SuccessMessage))
      case Inherited =>
        if idx == -1 then
          (Some(rows + [[Str(req.userId), Str(req.fullName), Num(0), Num(0), Num(0), Num(0), Str(req.timestamp)]]),
           Response(true, SuccessMessage))
        else
          (Some(rows[idx := SetCell(rows[idx], NameColumn - 1, Str(req.fullName))]), Response(false, rangeError))
  }

  /** `doPost` as written: the section guard also lets inherited members through. */
  function PostAsWritten(sheet: Option<seq<Row>>, body: Result<Request, string>, rangeError: string): (Option<seq<Row>>, Response) {
    PostWith(sheet, body, false, rangeError)
  }

  /** `doPost` with the section guard it is meant to have. */
  function Post(sheet: Option<seq<Row>>, body: Result<Request, string>): (Option<seq<Row>>, Response) {
    PostWith(sheet, body, true, "")
  }

  /** The rows after `Post` when the body parsed (the sheet exists from then on). */
  function RowsBefore(sheet: Option<seq<Row>>): seq<Row> {
    if sheet.None? then [HeaderRow] else sheet.value
  }

  // ---------------------------------------------------------------------
  // Properties of `doPost`

  /** A body that does not parse changes nothing and fails with the parser's message. */
  lemma BadBody(sheet: Option<seq<Row>>, e: string)
    ensures Post(sheet, Failure(e)) == (sheet, Response(false, e))
  {
  }

  /** A missing sheet is created with the 7-column header even when the section turns out invalid. */
  lemma HeaderCreatedFirst(req: Request)
    ensures SectionColumn(req.section).None? ==> Post(None, Success(req)).0 == Some([HeaderRow])
    ensures Post(None, Success(req)).0.value[0] == HeaderRow && |HeaderRow| == 7
  {
  }

  /** An unknown section fails with its name in the error and writes no user row. */
  lemma InvalidSection(sheet: Option<seq<Row>>, req: Request)
    requires SectionColumn(req.section).None?
    ensures Post(sheet, Success(req)) == (Some(RowsBefore(sheet)), Response(false, "Invalid section: " + req.section))
  {
  }

  /** A first visit appends exactly one row: id, name, 1 in the section's column, 0 in the other three, timestamp. */
  lemma NewUserAppends(sheet: Option<seq<Row>>, req: Request)
    requires SectionColumn(req.section).Some?
    requires FirstUserIndex(RowsBefore(sheet), req.userId, 1) == -1
    ensures var rows := RowsBefore(sheet);
            var col := SectionColumn(req.section).value;
            var (after, resp) := Post(sheet, Success(req));
            && resp == Response(true, SuccessMessage)
            && after.Some? && |after.value| == |rows| + 1 && after.value[..|rows|] == rows
            && var added := after.value[|rows|];
            && |added| == 7
            && added[0] == Str(req.userId) && added[1] == Str(req.fullName) && added[6] == Str(req.timestamp)
            && (forall k :: 2 <= k <= 5 ==> added[k] == (if k == col - 1 then Num(1) else Num(0)))
  {
  }

  /** A repeat visit changes only the user's row, and in it only the name, the section counter (by one) and the timestamp. */
  lemma ExistingUserIncrements(sheet: Option<seq<Row>>, req: Request)
    requires SectionColumn(req.section).Some?
    requires FirstUserIndex(RowsBefore(sheet), req.userId, 1) != -1
    ensures var rows := RowsBefore(sheet);
            var col := SectionColumn(req.section).value;
            var idx := FirstUserIndex(rows, req.userId, 1);
            var (after, resp) := Post(sheet, Success(req));
            && resp == Response(true, SuccessMessage)
            && 1 <= idx < |rows|
            && after.Some? && |after.value| == |rows|
            && (forall j :: 0 <= j < |rows| && j != idx ==> after.value[j] == rows[j])
            && var row := after.value[idx];
            && Cell(row, col - 1) == Increment(Cell(rows[idx], col - 1))
            && Cell(row, NameColumn - 1) == Str(req.fullName)
            && Cell(row, TimestampColumn - 1) == Str(req.timestamp)
            && (forall k :: 0 <= k < |row| && k != NameColumn - 1 && k != col - 1 && k != TimestampColumn - 1 ==>
                  Cell(row, k) == Cell(rows[idx], k))
  {
    var rows := RowsBefore(sheet);
    var col := SectionColumn(req.section).value;
    var idx := FirstUserIndex(rows, req.userId, 1);
    var named := SetCell(rows[idx], NameColumn - 1, Str(req.fullName));
    assert Cell(named, col - 1) == Cell(rows[idx], col - 1);
  }

  /** A numeric counter goes up by exactly one. */
  lemma CounterIncrements(n: int)
    ensures Increment(Num(n)) == Num(n + 1)
  {
  }

  /** After a first visit the same user is found on the next request, in the row just appended. */
  lemma NewUserFoundNext(sheet: Option<seq<Row>>, req: Request)
    requires SectionColumn(req.section).Some?
    requires FirstUserIndex(RowsBefore(sheet), req.userId, 1) == -1
    requires |RowsBefore(sheet)| >= 1
    ensures var after := Post(sheet, Success(req)).0.value;
            FirstUserIndex(after, req.userId, 1) == |RowsBefore(sheet)|
  {
    var rows := RowsBefore(sheet);
    var after := Post(sheet, Success(req)).0.value;
    var added := NewUserRow(req, SectionColumn(req.section).value);
    assert after == rows + [added];
    assert Cell(after[|rows|], 0) == Str(req.userId);
    assert forall i :: 1 <= i < |rows| ==> after[i] == rows[i];
  }

  /** A section named after an `Object.prototype` member passes the script's
      guard: a new user gets a row with no visit counted and a success answer,
      where the intended guard rejects the section. */
  lemma InheritedSectionAccepted()
    ensures var req := Request("42", "Anna", "constructor", "01.01.2025 10:00:00");
            var sheet := Some([HeaderRow]);
            && PostAsWritten(sheet, Success(req), "")
               == (Some([HeaderRow, [Str("42"), Str("Anna"), Num(0), Num(0), Num(0), Num(0), Str("01.01.2025 10:00:00")]]),
                   Response(true, SuccessMessage))
            && Post(sheet, Success(req)) == (sheet, Response(false, "Invalid section: constructor"))
  {
    var req := Request("42", "Anna", "constructor", "01.01.2025 10:00:00");
    assert Cell(HeaderRow, 0) == Str("User ID");
    assert "User ID"[0] != "42"[0];
    assert !LooseEquals(Cell(HeaderRow, 0), "42");
    assert FirstUserIndex([HeaderRow], "42", 1) == -1;
    var section := "constructor";
    assert section[0] == 'c';
    assert SectionColumn(section).None?;
    assert PropertyLookup(section) == Inherited;
    assert OwnLookup(section) == Absent;
    var rows := [HeaderRow];
    assert RowsBefore(Some(rows)) == rows;
    assert PostAsWritten(Some(rows), Success(req), "").1 == Response(true, SuccessMessage);
    assert PostAsWritten(Some(rows), Success(req), "").0 == Some(rows + [[Str("42"), Str("Anna"), Num(0), Num(0), Num(0), Num(0), Str("01.01.2025 10:00:00")]]);
    assert Post(Some(rows), Success(req)).1 == Response(false, "Invalid section: " + section);
    assert Post(Some(rows), Success(req)).0 == Some(rows);
    assert "Invalid section: " + section == "Invalid section: constructor";
    assert rows + [[Str("42"), Str("Anna"), Num(0), Num(0), Num(0), Num(0), Str("01.01.2025 10:00:00")]]
        == [HeaderRow, [Str("42"), Str("Anna"), Num(0), Num(0), Num(0), Num(0), Str("01.01.2025 10:00:00")]];
  }

  /** For every section the script knows, the as-written and the intended `doPost` agree. */
  lemma KnownSectionsAgree(sheet: Option<seq<Row>>, body: Result<Request, string>, rangeError: string)
    requires body.Success? ==> body.value.section !in ObjectPrototypeKeys
    ensures PostAsWritten(sheet, body, rangeError) == Post(sheet, body)
  {
  }

  /** The sheet as the script sees it. */
  class Spreadsheet {
    /** The 'Analytics' sheet, `None` until it is created. */
    var analytics: Option<seq<Row>>

    constructor (sheet: Option<seq<Row>>)
      ensures analytics == sheet
    {
      analytics := sheet;
    }

    /** `getRange(r, c).getValue()` with 1-based row and column. */
    function GetValue(r: int, c: int): Value
      reads this
      requires analytics.Some? && 1 <= r <= |analytics.value| && c >= 1
    {
      Cell(analytics.value[r - 1], c - 1)
    }

    /** `getRange(r, c).setValue(v)` */
    method SetValue(r: int, c: int, v: Value)
      modifies this
      requires analytics.Some? && 1 <= r <= |analytics.value| && c >= 1
      ensures analytics == Some(old(analytics.value)[r - 1 := SetCell(old(analytics.value)[r - 1], c - 1, v)])
    {
      var rows := analytics.value;
      analytics := Some(rows[r - 1 := SetCell(rows[r - 1], c - 1, v)]);
    }

    /** `appendRow(row)` */
    method AppendRow(row: Row)
      modifies this
      requires analytics.Some?
      ensures analytics == Some(old(analytics.value) + [row])
    {
      analytics := Some(analytics.value + [row]);
    }

    /** The row search of `doPost`: the 1-based number of the first data row whose first cell equals `userId`, or -1. */
    static method FindUserRow(values: seq<Row>, userId: string) returns (userRow: int)
      ensures userRow == -1 <==> forall i :: 1 <= i < |values| ==> !LooseEquals(Cell(values[i], 0), userId)
      ensures userRow != -1 ==> 2 <= userRow <= |values| && LooseEquals(Cell(values[userRow - 1], 0), userId)
      ensures userRow != -1 ==> forall i :: 1 <= i < userRow - 1 ==> !LooseEquals(Cell(values[i], 0), userId)
      ensures userRow == (var k := FirstUserIndex(values, userId, 1); if k == -1 then -1 else k + 1)
    {
      userRow := -1;
      var i := 1;
      while i < |values|
        invariant 1 <= i <= |values| || |values| == 0
        invariant userRow == -1
        invariant forall j :: 1 <= j < i && j < |values| ==> !LooseEquals(Cell(values[j], 0), userId)
        decreases |values| - i
      {
        if LooseEquals(Cell(values[i], 0), userId) {
          userRow := i + 1;
          break;
        }
        i := i + 1;
      }
    }

    /** `doPost`, with the intended section guard. */
    method DoPost(body: Result<Request, string>) returns (resp: Response)
      modifies this
      ensures (analytics, resp) == Post(old(analytics), body)
    {
      if body.Failure? {
        return Response(false, body.error);
      }
      var data := body.value;
      if analytics.None? {
        analytics := Some([HeaderRow]);
      }
      var values := analytics.value;
      var userRow := FindUserRow(values, data.userId);
      var sectionColumn := OwnLookup(data.section);
      if sectionColumn.Absent? {
        return Response(false, "Invalid section: " + data.section);
      }
      var column := sectionColumn.column;
      if userRow == -1 {
        var newRow := [Str(data.userId), Str(data.fullName), Num(0), Num(0), Num(0), Num(0), Str(data.timestamp)];
        var arrayIndex := column - 1;
        newRow := newRow[arrayIndex := Num(1)];
        assert newRow == NewUserRow(data, column);
        AppendRow(newRow);
      } else {
        assert userRow - 1 == FirstUserIndex(values, data.userId, 1);
        RecordVisit(userRow, column, data);
      }
      return Response(true, SuccessMessage);
    }

    /** The returning-user branch of `doPost`: the name is refreshed, the
        section's counter incremented and the timestamp replaced, in that order. */
    method RecordVisit(userRow: int, column: int, data: Request)
      modifies this
      requires analytics.Some? && 1 <= userRow <= |analytics.value| && column >= 1
      ensures analytics == Some(old(analytics.value)[userRow - 1 :=
                VisitedRow(old(analytics.value)[userRow - 1], data, column)])
    {
      ghost var values := analytics.value;
      ghost var idx := userRow - 1;
      SetValue(userRow, NameColumn, Str(data.fullName));
      ghost var named := analytics.value[idx];
      assert named == SetCell(values[idx], NameColumn - 1, Str(data.fullName));
      var currentCount := GetValue(userRow, column);
      assert currentCount == Cell(named, column - 1);
      SetValue(userRow, column, Increment(currentCount));
      SetValue(userRow, TimestampColumn, Str(data.timestamp));
      assert analytics.value == values[idx := VisitedRow(values[idx], data, column)];
    }
  }
}
