/** The dashboard's quick actions (consumption.js): the CSV export and the
    usage-alert threshold. Both are guarded by the session user. */
module QuickActions {

  import opened Session

  /** `fields.join(sep)` */
  function Join(fields: seq<string>, sep: string): string
  {
    if |fields| == 0 then ""
    else if |fields| == 1 then fields[0]
    else fields[0] + sep + Join(fields[1..], sep)
  }

  /** One CSV line: the row comma-joined and newline-terminated. */
  function CsvLine(row: seq<string>): string
  {
    Join(row, ",") + "\n"
  }

  /** The rows after the header, each on its own line. */
  function CsvLines(rows: seq<seq<string>>): string
  {
    if rows == [] then "" else CsvLines(rows[..|rows| - 1]) + CsvLine(rows[|rows| - 1])
  }

  const CsvHeader: seq<string> := ["Field", "Value"]

  /** The exported file's whole text. */
  function CsvText(rows: seq<seq<string>>): string
  {
    CsvLine(CsvHeader) + CsvLines(rows)
  }

  /** The CSV text assembled as the source does it: the header line, then
      one `+=` per row. */
  method BuildCsv(rows: seq<seq<string>>) returns (csv: string)
    ensures csv == CsvText(rows)
    ensures csv[..12] == "Field,Value\n"
  {
    csv := Join(CsvHeader, ",") + "\n";
    var i := 0;
    while i < |rows|
      invariant 0 <= i <= |rows|
      invariant csv == CsvLine(CsvHeader) + CsvLines(rows[..i])
    {
      assert rows[..i + 1][..i] == rows[..i];
      csv := csv + CsvLine(rows[i]);
      i := i + 1;
    }
    assert rows[..|rows|] == rows;
  }

  /** Number of newline characters in a text. */
  function Newlines(s: string): nat
  {
    if s == [] then 0 else Newlines(s[..|s| - 1]) + (if s[|s| - 1] == '\n' then 1 else 0)
  }

  lemma {:induction false} NewlinesAppend(a: string, b: string)
    ensures Newlines(a + b) == Newlines(a) + Newlines(b)
    decreases |b|
  {
    if b == [] {
      assert a + b == a;
    } else {
      assert (a + b)[..|a + b| - 1] == a + b[..|b| - 1];
      NewlinesAppend(a, b[..|b| - 1]);
    }
  }

  lemma {:induction false} NewlinesNone(s: string)
    requires forall k :: 0 <= k < |s| ==> s[k] != '\n'
    ensures Newlines(s) == 0
    decreases |s|
  {
    if s != [] {
      NewlinesNone(s[..|s| - 1]);
    }
  }

  predicate NoNewline(s: string)
  {
    forall k :: 0 <= k < |s| ==> s[k] != '\n'
  }

  lemma {:induction false} JoinNoNewline(fields: seq<string>)
    requires forall i :: 0 <= i < |fields| ==> NoNewline(fields[i])
    ensures NoNewline(Join(fields, ","))
    decreases |fields|
  {
    if |fields| > 1 {
      JoinNoNewline(fields[1..]);
    }
  }

  /** When no field holds a newline, the file has exactly one line per row
      plus the header line. */
  lemma {:induction false} CsvLineCount(rows: seq<seq<string>>)
    requires forall r, f :: 0 <= r < |rows| && 0 <= f < |rows[r]| ==> NoNewline(rows[r][f])
    ensures Newlines(CsvText(rows)) == |rows| + 1
    decreases |rows|
  {
    CsvOneLine(CsvHeader);
    if rows == [] {
      assert CsvText(rows) == CsvLine(CsvHeader);
    } else {
      var init := rows[..|rows| - 1];
      CsvLinesCount(init);
      CsvOneLine(rows[|rows| - 1]);
      NewlinesAppend(CsvLines(init), CsvLine(rows[|rows| - 1]));
      NewlinesAppend(CsvLine(CsvHeader), CsvLines(rows));
    }
  }

  lemma {:induction false} CsvLinesCount(rows: seq<seq<string>>)
    requires forall r, f :: 0 <= r < |rows| && 0 <= f < |rows[r]| ==> NoNewline(rows[r][f])
    ensures Newlines(CsvLines(rows)) == |rows|
    decreases |rows|
  {
    if rows != [] {
      var init := rows[..|rows| - 1];
      CsvLinesCount(init);
      CsvOneLine(rows[|rows| - 1]);
      NewlinesAppend(CsvLines(init), CsvLine(rows[|rows| - 1]));
    }
  }

  lemma CsvOneLine(row: seq<string>)
    requires forall f :: 0 <= f < |row| ==> NoNewline(row[f])
    ensures Newlines(CsvLine(row)) == 1
  {
    JoinNoNewline(row);
    NewlinesNone(Join(row, ","));
    NewlinesAppend(Join(row, ","), "\n");
  }

  /** `new Date().toISOString().slice(0, 10)`, i.e. the date part. */
  function DatePart(iso: string): (d: string)
    ensures |d| == if |iso| < 10 then |iso| else 10
    ensures d <= iso
  {
    if |iso| < 10 then iso else iso[..10]
  }

  function ExportFileName(iso: string): (name: string)
    ensures |name| == 29 + |DatePart(iso)|
    ensures name[..25] == "ElectriTrack_Consumption_"
    ensures name[|name| - 4..] == ".csv"
    ensures name[25..|name| - 4] == DatePart(iso)
  {
    "ElectriTrack_Consumption_" + DatePart(iso) + ".csv"
  }

  /** What the page shows where the export reads: the consumption card's
      value and unit spans, and the other three text fields. */
  datatype DisplayedFields = DisplayedFields(consumptionValue: string, consumptionUnit: string, billAmount: string,
                         today: string, month: string)

  /** The `textContent` of the consumption card, which every write gives
      the same markup: the value span and the unit span, each on its own
      indented line. */
  function ConsumptionText(value: string, unit: string): (t: string)
    ensures |t| == |value| + |unit| + 13
    ensures t[..5] == "\n    " && t[5..5 + |value|] == value
    ensures t[5 + |value|..10 + |value|] == "\n    " && t[10 + |value|..10 + |value| + |unit|] == unit
    ensures t[10 + |value| + |unit|..] == "\n  "
  {
    "\n    " + value + "\n    " + unit + "\n  "
  }

  const ExportLabels: seq<string> := ["User Email", "Export Date", "Consumption (kWh)", "Bill Amount (₱)",
                                      "Today's Usage (kWh)", "This Month's Usage (kWh)"]

  /** The six exported rows, in order: a label and the text read for it. */
  function ExportRows(email: string, iso: string, consumption: string, shown: DisplayedFields): (rows: seq<seq<string>>)
    ensures |rows| == 6
    ensures forall i :: 0 <= i < 6 ==> |rows[i]| == 2 && rows[i][0] == ExportLabels[i]
    ensures rows[0][1] == email && rows[1][1] == iso && rows[2][1] == consumption
    ensures rows[3][1] == shown.billAmount && rows[4][1] == shown.today && rows[5][1] == shown.month
  {
    [["User Email", email], ["Export Date", iso], ["Consumption (kWh)", consumption],
     ["Bill Amount (₱)", shown.billAmount], ["Today's Usage (kWh)", shown.today],
     ["This Month's Usage (kWh)", shown.month]]
  }

  /** The newlines inside the rows' joined fields. */
  function FieldNewlines(rows: seq<seq<string>>): nat
  {
    if rows == [] then 0 else FieldNewlines(rows[..|rows| - 1]) + Newlines(Join(rows[|rows| - 1], ","))
  }

  /** Every line break of the file is a row end, the header's end, or a
      newline inside a field. */
  lemma {:induction false} CsvTextNewlines(rows: seq<seq<string>>)
    ensures Newlines(CsvText(rows)) == |rows| + 1 + FieldNewlines(rows)
  {
    CsvOneLine(CsvHeader);
    CsvLinesNewlines(rows);
    NewlinesAppend(CsvLine(CsvHeader), CsvLines(rows));
  }

  lemma {:induction false} CsvLinesNewlines(rows: seq<seq<string>>)
    ensures Newlines(CsvLines(rows)) == |rows| + FieldNewlines(rows)
    decreases |rows|
  {
    if rows != [] {
      var last := rows[|rows| - 1];
      CsvLinesNewlines(rows[..|rows| - 1]);
      NewlinesAppend(CsvLines(rows[..|rows| - 1]), CsvLine(last));
      NewlinesAppend(Join(last, ","), "\n");
    }
  }

  /** Only row `j` contributes newlines inside fields. */
  lemma {:induction false} FieldNewlinesOnlyRow(rows: seq<seq<string>>, j: nat)
    requires j < |rows|
    requires forall r, f :: 0 <= r < |rows| && r != j && 0 <= f < |rows[r]| ==> NoNewline(rows[r][f])
    ensures FieldNewlines(rows) == Newlines(Join(rows[j], ","))
    decreases |rows|
  {
    var init := rows[..|rows| - 1];
    if j == |rows| - 1 {
      FieldNewlinesNone(init);
    } else {
      FieldNewlinesOnlyRow(init, j);
      JoinNoNewline(rows[|rows| - 1]);
      NewlinesNone(Join(rows[|rows| - 1], ","));
    }
  }

  lemma {:induction false} FieldNewlinesNone(rows: seq<seq<string>>)
    requires forall r, f :: 0 <= r < |rows| && 0 <= f < |rows[r]| ==> NoNewline(rows[r][f])
    ensures FieldNewlines(rows) == 0
    decreases |rows|
  {
    if rows != [] {
      FieldNewlinesNone(rows[..|rows| - 1]);
      JoinNoNewline(rows[|rows| - 1]);
      NewlinesNone(Join(rows[|rows| - 1], ","));
    }
  }

  /** The consumption card's text holds three line breaks of its own. */
  lemma ConsumptionTextNewlines(value: string, unit: string)
    requires NoNewline(value) && NoNewline(unit)
    ensures Newlines(ConsumptionText(value, unit)) == 3
  {
    NewlinesNone(value);
    NewlinesNone(unit);
    NewlinesAppend("\n    " + value + "\n    " + unit, "\n  ");
    NewlinesAppend("\n    " + value + "\n    ", unit);
    NewlinesAppend("\n    " + value, "\n    ");
    NewlinesAppend("\n    ", value);
    LineBreakThenSpaces("  ");
    LineBreakThenSpaces("    ");
    assert "\n" + "  " == "\n  " && "\n" + "    " == "\n    ";
  }

  lemma LineBreakThenSpaces(spaces: string)
    requires NoNewline(spaces)
    ensures Newlines("\n" + spaces) == 1
  {
    NewlinesNone(spaces);
    NewlinesAppend("\n", spaces);
    assert "\n"[..0] == [];
  }

  /** A two-field row breaks lines exactly where its fields do. */
  lemma PairNewlines(a: string, b: string)
    ensures Newlines(Join([a, b], ",")) == Newlines(a) + Newlines(b)
  {
    assert [a, b][1..] == [b];
    NewlinesAppend(a + ",", b);
    NewlinesAppend(a, ",");
    NewlinesNone(",");
  }

  /** Every exported field but the consumption one is a single line. */
  lemma OtherRowsSingleLine(email: string, iso: string, consumption: string, shown: DisplayedFields)
    requires SingleLine(email, iso, shown)
    ensures var rows := ExportRows(email, iso, consumption, shown);
      forall r, f :: 0 <= r < |rows| && r != 2 && 0 <= f < |rows[r]| ==> NoNewline(rows[r][f])
  {
    LabelsSingleLine();
  }

  /** No text read for the export holds a newline of its own. */
  predicate SingleLine(email: string, iso: string, shown: DisplayedFields)
  {
    && NoNewline(email) && NoNewline(iso) && NoNewline(shown.consumptionValue)
    && NoNewline(shown.consumptionUnit) && NoNewline(shown.billAmount)
    && NoNewline(shown.today) && NoNewline(shown.month)
  }

  /** The labels are single-line texts. */
  lemma LabelsSingleLine()
    ensures forall i :: 0 <= i < 6 ==> NoNewline(ExportLabels[i])
  {
  }

  /** As written, the consumption row is split over four lines: the file
      has ten line breaks where seven rows need seven. */
  lemma ExportSpansExtraLines(email: string, iso: string, shown: DisplayedFields)
    requires SingleLine(email, iso, shown)
    ensures Newlines(CsvText(ExportRows(email, iso, ConsumptionText(shown.consumptionValue, shown.consumptionUnit), shown))) == 10
  {
    var field := ConsumptionText(shown.consumptionValue, shown.consumptionUnit);
    var rows := ExportRows(email, iso, field, shown);
    OtherRowsSingleLine(email, iso, field, shown);
    FieldNewlinesOnlyRow(rows, 2);
    ConsumptionTextNewlines(shown.consumptionValue, shown.consumptionUnit);
    PairNewlines("Consumption (kWh)", field);
    NewlinesNone("Consumption (kWh)");
    CsvTextNewlines(rows);
  }

  /** With the consumption figure alone in its field, the file has exactly
      one line per row plus the header line. */
  lemma IntendedExportLineCount(email: string, iso: string, shown: DisplayedFields)
    requires SingleLine(email, iso, shown)
    ensures Newlines(CsvText(ExportRows(email, iso, shown.consumptionValue, shown))) == 7
  {
    LabelsSingleLine();
    CsvLineCount(ExportRows(email, iso, shown.consumptionValue, shown));
  }

  datatype ExportResult =
    | ExportRefused(message: string)
    | Exported(fileName: string, csv: string, message: string)

  /** exportData: refused without a user; otherwise the file and the
      completion notice. The clock is read twice, so the two ISO timestamps
      are inputs: `iso` for the "Export Date" row and `fileIso` for the
      file name. */
  method ExportData(user: Option<User>, iso: string, fileIso: string, shown: DisplayedFields) returns (r: ExportResult)
    ensures r.ExportRefused? <==> user.None?
    ensures user.None? ==> r.message == "Please sign in to export data"
    ensures user.Some? ==> (r.fileName == ExportFileName(fileIso)
      && r.csv == CsvText(ExportRows(user.value.email, iso,
                                     ConsumptionText(shown.consumptionValue, shown.consumptionUnit), shown))
      && r.message == "Data export completed for " + user.value.email + ".")
  {
    if user.None? {
      return ExportRefused("Please sign in to export data");
    }
    var consumption := ConsumptionText(shown.consumptionValue, shown.consumptionUnit);
    var csv := BuildCsv(ExportRows(user.value.email, iso, consumption, shown));
    r := Exported(ExportFileName(fileIso), csv, "Data export completed for " + user.value.email + ".");
  }

  datatype AlertOutcome =
    | AlertRefused(message: string)
    | AlertSet(threshold: real)
    | Silent
    | InvalidThreshold(message: string)

  /** setUsageAlert. `answer` is the prompt's result (None when cancelled),
      `isNumeric` is `!isNaN(answer)` and `parsed` is `parseFloat(answer)`
      (None for NaN); both are given for the same answer. */
  function UsageAlert(user: Option<User>, answer: Option<string>, isNumeric: bool, parsed: Option<real>): (r: AlertOutcome)
    ensures r.AlertRefused? <==> user.None?
    ensures user.None? ==> r == AlertRefused("Please sign in to set usage alerts")
    ensures r.AlertSet? ==> r.threshold > 0.0 && parsed == Some(r.threshold)
    ensures r.AlertSet? <==> (user.Some? && answer.Some? && answer.value != "" && isNumeric
                              && parsed.Some? && parsed.value > 0.0)
    ensures r == Silent <==> user.Some? && answer.None?
    ensures r.InvalidThreshold? ==> r.message == "Please enter a valid positive number for the threshold."
  {
    if user.None? then AlertRefused("Please sign in to set usage alerts")
    else if answer.Some? && answer.value != "" && isNumeric && parsed.Some? && parsed.value > 0.0
    then AlertSet(parsed.value)
    else if answer.Some? then InvalidThreshold("Please enter a valid positive number for the threshold.")
    else Silent
  }

  /** An empty answer is not a cancellation: it gets the message. */
  lemma EmptyAnswerIsInvalid(u: User, isNumeric: bool, parsed: Option<real>)
    ensures UsageAlert(Some(u), Some(""), isNumeric, parsed).InvalidThreshold?
  {
  }
}
