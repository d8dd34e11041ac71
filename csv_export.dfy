/** The popup's CSV export: `logsToCSV` writes a header line, then one line per log entry in
    log order (newest first), fields joined by commas with no quoting or escaping. */
module CsvExport {
  import opened Types
  import LogStore

  /** The first line of every export, before its newline. */
  const HEADER_LINE: string := "timestamp," + "durationMs," + "fileSize," + "type," + "success," + "error"

  const HEADER: string := HEADER_LINE + "\n"

  // ---------------------------------------------------------------------------------------
  // Joining and splitting on a separator

  function Join(fields: seq<string>, sep: char): string
  {
    if |fields| == 0 then ""
    else if |fields| == 1 then fields[0]
    else fields[0] + [sep] + Join(fields[1..], sep)
  }

  /** The pieces of `s` between occurrences of `sep` (always at least one piece). */
  function Split(s: string, sep: char): (pieces: seq<string>)
    ensures |pieces| >= 1
  {
    if s == [] then [""]
    else if s[0] == sep then [""] + Split(s[1..], sep)
    else
      var rest := Split(s[1..], sep);
      [[s[0]] + rest[0]] + rest[1..]
  }

  predicate Free(s: string, sep: char)
  {
    sep !in s
  }

  lemma {:induction false} SplitFreePrefix(f: string, t: string, sep: char)
    requires Free(f, sep)
    ensures Split(f + t, sep) == [f + Split(t, sep)[0]] + Split(t, sep)[1..]
    decreases |f|
  {
    if f != [] {
      assert (f + t)[1..] == f[1..] + t;
      SplitFreePrefix(f[1..], t, sep);
      assert [f[0]] + (f[1..] + Split(t, sep)[0]) == f + Split(t, sep)[0];
    } else {
      assert f + t == t;
      assert f + Split(t, sep)[0] == Split(t, sep)[0];
      assert Split(t, sep) == [Split(t, sep)[0]] + Split(t, sep)[1..];
    }
  }

  /** Joining two non-empty runs of fields puts one separator between them. */
  lemma {:induction false} JoinConcat(a: seq<string>, b: seq<string>, sep: char)
    requires |a| >= 1 && |b| >= 1
    ensures Join(a + b, sep) == Join(a, sep) + [sep] + Join(b, sep)
    decreases |a|
  {
    if |a| > 1 {
      assert (a + b)[1..] == a[1..] + b;
      JoinConcat(a[1..], b, sep);
    } else {
      assert (a + b)[1..] == b;
    }
  }

  /** Splitting undoes joining as long as no field contains the separator. */
  lemma {:induction false} SplitJoin(fields: seq<string>, sep: char)
    requires |fields| >= 1
    requires forall i :: 0 <= i < |fields| ==> Free(fields[i], sep)
    ensures Split(Join(fields, sep), sep) == fields
    decreases |fields|
  {
    if |fields| == 1 {
      SplitFreePrefix(fields[0], "", sep);
      assert fields[0] + "" == fields[0];
    } else {
      var t := [sep] + Join(fields[1..], sep);
      SplitJoin(fields[1..], sep);
      SplitFreePrefix(fields[0], t, sep);
      assert t[0] == sep && t[1..] == Join(fields[1..], sep);
      assert Split(t, sep) == [""] + fields[1..];
      assert fields[0] + t == Join(fields, sep);
      assert fields[0] + "" == fields[0];
      assert fields == [fields[0]] + fields[1..];
    }
  }

  // ---------------------------------------------------------------------------------------
  // Rendering numbers and booleans as a template literal does

  function DigitChar(d: nat): (c: char)
    requires d < 10
    ensures '0' <= c <= '9'
  {
    "0123456789"[d]
  }

  predicate IsDigits(s: string)
  {
    forall k :: 0 <= k < |s| ==> '0' <= s[k] <= '9'
  }

  /** Decimal digits of `n`, without leading zeros. */
  function NatToString(n: nat): (s: string)
    ensures |s| >= 1 && IsDigits(s)
    ensures |s| > 1 ==> s[0] != '0'
  {
    if n < 10 then [DigitChar(n)] else NatToString(n / 10) + [DigitChar(n % 10)]
  }

  function ParseDigits(s: string): nat
    requires IsDigits(s)
  {
    if s == [] then 0 else 10 * ParseDigits(s[..|s| - 1]) + (s[|s| - 1] as int - '0' as int)
  }

  /** Reading the digits back gives the number. */
  lemma {:induction false} ParseNatToString(n: nat)
    ensures ParseDigits(NatToString(n)) == n
  {
    if n >= 10 {
      var s := NatToString(n);
      assert s[..|s| - 1] == NatToString(n / 10);
      ParseNatToString(n / 10);
    }
  }

  /** `${n}` for an integer. */
  function IntToString(i: int): (s: string)
    ensures |s| >= 1 && Free(s, ',') && Free(s, '\n')
    ensures i >= 0 ==> s == NatToString(i)
    ensures i < 0 ==> s == "-" + NatToString(-i)
  {
    if i < 0 then "-" + NatToString(-i) else NatToString(i)
  }

  function BoolText(b: bool): string
  {
    if b then "true" else "false"
  }

  /** `e.error || ''`. */
  function ErrorText(error: Option<string>): string
  {
    match error
    case None => ""
    case Some(m) => m
  }

  // ---------------------------------------------------------------------------------------
  // Lines

  /** The six fields of an entry; `iso` renders a timestamp as `toISOString` does. */
  function Fields(e: Entry, iso: int -> string): seq<string>
  {
    [iso(e.timestamp), IntToString(e.outcome.durationMs), IntToString(e.outcome.fileSize),
     KindName(e.outcome.kind), BoolText(e.outcome.success), ErrorText(e.outcome.error)]
  }

  /** One line of the export, without its newline: the six fields joined by commas, unquoted. */
  function Line(e: Entry, iso: int -> string): string
  {
    Join(Fields(e, iso), ',')
  }

  /** Each text followed by a newline. */
  function Terminated(ls: seq<string>): string
  {
    if ls == [] then "" else ls[0] + "\n" + Terminated(ls[1..])
  }

  /** The whole export: it always starts with the header, and is only the header for an empty log. */
  function Csv(logs: seq<Entry>, iso: int -> string): (text: string)
    ensures |HEADER| <= |text| && text[..|HEADER|] == HEADER
    ensures logs == [] ==> text == HEADER
  {
    HEADER + Terminated(Lines(logs, iso))
  }

  /** The line of each entry, in log order. */
  function Lines(logs: seq<Entry>, iso: int -> string): (ls: seq<string>)
    ensures |ls| == |logs| && forall i :: 0 <= i < |logs| ==> ls[i] == Line(logs[i], iso)
  {
    if logs == [] then [] else Lines(logs[..|logs| - 1], iso) + [Line(logs[|logs| - 1], iso)]
  }

  lemma JoinSix(a: string, b: string, c: string, d: string, f: string, g: string, sep: char)
    ensures Join([a, b, c, d, f, g], sep) == a + [sep] + b + [sep] + c + [sep] + d + [sep] + f + [sep] + g
  {
    assert [f, g][1..] == [g];
    assert Join([f, g], sep) == f + [sep] + g;
    assert [d, f, g][1..] == [f, g];
    assert Join([d, f, g], sep) == d + [sep] + (f + [sep] + g);
    assert [c, d, f, g][1..] == [d, f, g];
    assert Join([c, d, f, g], sep) == c + [sep] + (d + [sep] + (f + [sep] + g));
    assert [b, c, d, f, g][1..] == [c, d, f, g];
    assert Join([b, c, d, f, g], sep) == b + [sep] + (c + [sep] + (d + [sep] + (f + [sep] + g)));
    assert [a, b, c, d, f, g][1..] == [b, c, d, f, g];
  }

  /** The template literal of `logsToCSV` is the line of the entry. */
  lemma TemplateIsLine(e: Entry, iso: int -> string)
    ensures Line(e, iso) == iso(e.timestamp) + "," + IntToString(e.outcome.durationMs) + ","
      + IntToString(e.outcome.fileSize) + "," + KindName(e.outcome.kind) + ","
      + BoolText(e.outcome.success) + "," + ErrorText(e.outcome.error)
  {
    JoinSix(iso(e.timestamp), IntToString(e.outcome.durationMs), IntToString(e.outcome.fileSize),
      KindName(e.outcome.kind), BoolText(e.outcome.success), ErrorText(e.outcome.error), ',');
  }

  lemma KindNameFree(k: Kind, c: char)
    requires c == ',' || c == '\n'
    ensures Free(KindName(k), c)
  {
    match k
    case Page => assert KindName(k) == "page";
    case Download => assert KindName(k) == "download";
    case Dash => assert KindName(k) == "-";
  }

  lemma BoolTextFree(b: bool, c: char)
    requires c == ',' || c == '\n'
    ensures Free(BoolText(b), c)
  {
    if b { assert BoolText(b) == "true"; } else { assert BoolText(b) == "false"; }
  }

  /** Only the timestamp text and the error message can hold a comma or a newline. */
  lemma FieldsFree(e: Entry, iso: int -> string, c: char)
    requires c == ',' || c == '\n'
    requires Free(iso(e.timestamp), c) && Free(ErrorText(e.outcome.error), c)
    ensures forall i :: 0 <= i < |Fields(e, iso)| ==> Free(Fields(e, iso)[i], c)
  {
    KindNameFree(e.outcome.kind, c);
    BoolTextFree(e.outcome.success, c);
  }

  /** Reading a line back: its comma-separated columns are the six fields, provided the
      timestamp text and the error message hold no comma. */
  lemma ColumnsOfLine(e: Entry, iso: int -> string)
    requires Free(iso(e.timestamp), ',') && Free(ErrorText(e.outcome.error), ',')
    ensures Split(Line(e, iso), ',') == Fields(e, iso)
  {
    FieldsFree(e, iso, ',');
    SplitJoin(Fields(e, iso), ',');
  }

  /** Without quoting, a comma inside an error message adds a column. */
  lemma CommaInErrorAddsColumn(ts: int, iso: int -> string)
    requires Free(iso(ts), ',')
    ensures var e := Entry(ts, Outcome(false, Some("a,b"), 5, 0, Dash));
      |Split(Line(e, iso), ',')| == 7
  {
    var e := Entry(ts, Outcome(false, Some("a,b"), 5, 0, Dash));
    var head := Fields(e, iso)[..5];
    assert Fields(e, iso) == head + ["a,b"];
    JoinConcat(head, ["a,b"], ',');
    JoinConcat(head, ["a", "b"], ',');
    assert Join(["a", "b"], ',') == "a,b";
    var f := head + ["a", "b"];
    forall i | 0 <= i < |f| ensures Free(f[i], ',') {
      if i == 3 { assert f[i] == "-"; }
      if i == 4 { assert f[i] == "false"; }
    }
    SplitJoin(f, ',');
  }

  lemma {:induction false} TerminatedAppend(ls: seq<string>, l: string)
    ensures Terminated(ls + [l]) == Terminated(ls) + l + "\n"
    decreases |ls|
  {
    if ls != [] {
      assert (ls + [l])[1..] == ls[1..] + [l];
      TerminatedAppend(ls[1..], l);
    } else {
      assert Terminated([l][1..]) == "";
    }
  }

  lemma {:induction false} TerminatedAsJoin(ls: seq<string>)
    ensures Terminated(ls) == Join(ls + [""], '\n')
    decreases |ls|
  {
    if ls != [] {
      TerminatedAsJoin(ls[1..]);
      assert (ls + [""])[1..] == ls[1..] + [""];
    }
  }

  /** The header is exactly the source's literal. */
  lemma HeaderText()
    ensures HEADER == "timestamp,durationMs,fileSize,type,success,error\n"
  {
    assert "timestamp," + "durationMs," == "timestamp,durationMs,";
    assert "timestamp,durationMs," + "fileSize," == "timestamp,durationMs,fileSize,";
    assert "timestamp,durationMs,fileSize," + "type," == "timestamp,durationMs,fileSize,type,";
    assert "timestamp,durationMs,fileSize,type," + "success," == "timestamp,durationMs,fileSize,type,success,";
    assert "timestamp,durationMs,fileSize,type,success," + "error" == "timestamp,durationMs,fileSize,type,success,error";
  }

  /** The header line holds no newline: the header ends at its only newline. */
  lemma HeaderLineFree()
    ensures Free(HEADER_LINE, '\n')
  {
  }

  lemma LineFree(e: Entry, iso: int -> string)
    requires Free(iso(e.timestamp), '\n') && Free(ErrorText(e.outcome.error), '\n')
    ensures Free(Line(e, iso), '\n')
  {
    FieldsFree(e, iso, '\n');
    JoinFree(Fields(e, iso), ',', '\n');
  }

  /** The export is its lines joined by newlines, with an empty text after the last newline. */
  lemma CsvIsJoin(logs: seq<Entry>, iso: int -> string)
    ensures Csv(logs, iso) == Join([HEADER_LINE] + (Lines(logs, iso) + [""]), '\n')
  {
    var body := Lines(logs, iso) + [""];
    TerminatedAsJoin(Lines(logs, iso));
    assert ([HEADER_LINE] + body)[1..] == body;
    Associative(HEADER_LINE, "\n", Join(body, '\n'));
  }

  /** No line of the export holds a newline, provided no timestamp text or error message does. */
  lemma ExportLinesFree(logs: seq<Entry>, iso: int -> string)
    requires forall i :: 0 <= i < |logs| ==> Free(iso(logs[i].timestamp), '\n') && Free(ErrorText(logs[i].outcome.error), '\n')
    ensures var ls := [HEADER_LINE] + (Lines(logs, iso) + [""]);
      forall i :: 0 <= i < |ls| ==> Free(ls[i], '\n')
  {
    var lines := Lines(logs, iso);
    var ls := [HEADER_LINE] + (lines + [""]);
    HeaderLineFree();
    forall i | 0 <= i < |ls| ensures Free(ls[i], '\n') {
      if 0 < i < |ls| - 1 {
        assert ls[i] == Line(logs[i - 1], iso);
        LineFree(logs[i - 1], iso);
      }
    }
  }

  /** The export, split at newlines, is the header line, then one line per entry in log order,
      then the empty text after the final newline: every line ends with a newline, provided no
      timestamp text or error message holds one. */
  lemma CsvLines(logs: seq<Entry>, iso: int -> string)
    requires forall i :: 0 <= i < |logs| ==> Free(iso(logs[i].timestamp), '\n') && Free(ErrorText(logs[i].outcome.error), '\n')
    ensures Split(Csv(logs, iso), '\n') == [HEADER_LINE] + Lines(logs, iso) + [""]
  {
    var lines := Lines(logs, iso);
    CsvIsJoin(logs, iso);
    ExportLinesFree(logs, iso);
    SplitJoin([HEADER_LINE] + (lines + [""]), '\n');
    Associative([HEADER_LINE], lines, [""]);
  }

  /** Joining texts free of a character, with another separator, stays free of it. */
  lemma {:induction false} JoinFree(fields: seq<string>, sep: char, c: char)
    requires sep != c && forall i :: 0 <= i < |fields| ==> Free(fields[i], c)
    ensures Free(Join(fields, sep), c)
    decreases |fields|
  {
    if |fields| > 1 {
      JoinFree(fields[1..], sep, c);
    }
  }

  // ---------------------------------------------------------------------------------------
  // The popup's code

  /** One more entry adds its line and a newline at the end of the export. */
  lemma CsvStep(logs: seq<Entry>, iso: int -> string, i: nat)
    requires i < |logs|
    ensures HEADER + Terminated(Lines(logs[..i + 1], iso))
         == HEADER + Terminated(Lines(logs[..i], iso)) + (Line(logs[i], iso) + "\n")
  {
    var ls := Lines(logs[..i], iso);
    var l := Line(logs[i], iso);
    assert logs[..i + 1][..i] == logs[..i];
    assert Lines(logs[..i + 1], iso) == ls + [l];
    TerminatedAppend(ls, l);
    Associative(Terminated(ls), l, "\n");
    Associative(HEADER, Terminated(ls), l + "\n");
  }

  /** `logsToCSV`: the header, then a line per entry appended in a loop. */
  method LogsToCsv(logs: seq<Entry>, iso: int -> string) returns (csv: string)
    ensures csv == Csv(logs, iso)
  {
    csv := HEADER;
    for i := 0 to |logs|
      invariant csv == HEADER + Terminated(Lines(logs[..i], iso))
    {
      var e := logs[i];
      var time := iso(e.timestamp);
      var line := time + "," + IntToString(e.outcome.durationMs) + "," + IntToString(e.outcome.fileSize) + ","
        + KindName(e.outcome.kind) + "," + BoolText(e.outcome.success) + "," + ErrorText(e.outcome.error);
      TemplateIsLine(e, iso);
      CsvStep(logs, iso, i);
      csv := csv + (line + "\n");
    }
    assert logs[..|logs|] == logs;
  }

  /** The export button: nothing happens for a missing or empty log; otherwise the CSV text of
      the stored log is what gets downloaded. */
  method OnExportClick(stored: Option<seq<Entry>>, iso: int -> string) returns (file: Option<string>)
    ensures file == None <==> LogStore.Existing(stored) == []
    ensures file.Some? ==> file.value == Csv(LogStore.Existing(stored), iso)
  {
    var logs := LogStore.Existing(stored);
    if |logs| == 0 {
      return None;
    }
    var csv := LogsToCsv(logs, iso);
    file := Some(csv);
  }
}
