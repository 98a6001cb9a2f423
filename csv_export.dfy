/** The text `export_csv` (src-tauri/src/lib.rs) writes for a list of sync
    results: a fixed header line and one line per result. The dialog that
    picks the destination and the file write are not part of this model. */
module CsvExport {
  import opened Wrappers
  import opened Text
  import opened HostTypes

  /** The column header line (written in pieces only to keep literals short). */
  const HEADER: string := "Video,Audio," + "Start Delay (ms)," + "End Delay (ms)," + "Elapsed (ms),Error"

  /** Rust's `f64::to_string`, left abstract. */
  type Render = Delay -> string

  function Quoted(s: string): string {
    "\"" + s + "\""
  }

  /** A delay as written: its rendering, or the empty field when unknown. */
  function DelayField(d: Option<Delay>, render: Render): string {
    match d
    case Some(v) => render(v)
    case None => ""
  }

  /** The elapsed time as written: decimal digits, or the empty field. */
  function ElapsedField(e: Option<U64>): string {
    match e
    case Some(ms) => NatToString(ms)
    case None => ""
  }

  /** The row template: six comma-separated fields, the first two and the
      last quoted (with no escaping), the three numbers bare. */
  function FormatRow(video: string, audio: string, start: string, end: string, elapsed: string, err: string): string {
    Quoted(video) + "," + Quoted(audio) + "," + start + "," + end + "," + elapsed + "," + Quoted(err)
  }

  /** One data line, without its newline. */
  function RowLine(r: SyncResult, render: Render): string {
    FormatRow(r.videoFile, r.audioFile, DelayField(r.startDelay, render), DelayField(r.endDelay, render),
              ElapsedField(r.elapsedMs), r.error.GetOr(""))
  }

  function RowLines(results: seq<SyncResult>, render: Render): (rows: seq<string>)
    ensures |rows| == |results|
  {
    seq(|results|, i requires 0 <= i < |results| => RowLine(results[i], render))
  }

  /** The whole file: the header line, then one line per result, each line
      ending in a newline. */
  function CsvText(results: seq<SyncResult>, render: Render): string {
    JoinLines([HEADER] + RowLines(results, render))
  }

  /** The loop of `export_csv` that builds the text with `push_str`. */
  method ExportCsv(results: seq<SyncResult>, render: Render) returns (csv: string)
    ensures csv == CsvText(results, render)
  {
    csv := HEADER + "\n";
    assert csv == JoinLines([HEADER] + RowLines(results[..0], render));
    for i := 0 to |results|
      invariant csv == JoinLines([HEADER] + RowLines(results[..i], render))
    {
      var result := results[i];
      var start := DelayField(result.startDelay, render);
      var end := DelayField(result.endDelay, render);
      var elapsed := ElapsedField(result.elapsedMs);
      var err := result.error.GetOr("");
      csv := csv + FormatRow(result.videoFile, result.audioFile, start, end, elapsed, err) + "\n";
      CsvPrefixStep(results, i, render);
    }
    assert results[..|results|] == results;
  }

  lemma {:induction false} CsvPrefixStep(results: seq<SyncResult>, i: nat, render: Render)
    requires i < |results|
    ensures JoinLines([HEADER] + RowLines(results[..i + 1], render))
         == JoinLines([HEADER] + RowLines(results[..i], render)) + RowLine(results[i], render) + "\n"
  {
    var pre := [HEADER] + RowLines(results[..i], render);
    assert RowLines(results[..i + 1], render) == RowLines(results[..i], render) + [RowLine(results[i], render)];
    assert [HEADER] + RowLines(results[..i + 1], render) == pre + [RowLine(results[i], render)];
    JoinLinesSnoc(pre, RowLine(results[i], render));
  }

  /** No field of the result holds a newline. */
  predicate FieldsOnOneLine(r: SyncResult, render: Render) {
    && SingleLine(r.videoFile) && SingleLine(r.audioFile) && SingleLine(r.error.GetOr(""))
    && (r.startDelay.Some? ==> SingleLine(render(r.startDelay.value)))
    && (r.endDelay.Some? ==> SingleLine(render(r.endDelay.value)))
  }

  lemma {:induction false} RowLineOnOneLine(r: SyncResult, render: Render)
    requires FieldsOnOneLine(r, render)
    ensures SingleLine(RowLine(r, render))
  {
    var e := ElapsedField(r.elapsedMs);
    assert forall i :: 0 <= i < |e| ==> e[i] != '\n';
  }

  lemma {:induction false} HeaderOnOneLine()
    ensures SingleLine(HEADER)
  {
  }

  /** Read back line by line, the file is the header followed by the rows for
      the results in their order, so it has 1 + |results| lines; this holds
      as long as no field holds a newline (nothing is escaped). */
  lemma {:induction false} CsvLines(results: seq<SyncResult>, render: Render)
    requires forall i :: 0 <= i < |results| ==> FieldsOnOneLine(results[i], render)
    ensures SplitLines(CsvText(results, render)) == [HEADER] + RowLines(results, render)
    ensures |SplitLines(CsvText(results, render))| == 1 + |results|
    ensures forall i :: 0 <= i < |results| ==> SplitLines(CsvText(results, render))[i + 1] == RowLine(results[i], render)
  {
    var lines := [HEADER] + RowLines(results, render);
    LinesOnOneLine(results, render);
    SplitJoinLines(lines);
    assert SplitLines(CsvText(results, render)) == lines;
    HeaderThenRows(results, render);
  }

  lemma {:induction false} HeaderThenRows(results: seq<SyncResult>, render: Render)
    ensures |[HEADER] + RowLines(results, render)| == 1 + |results|
    ensures forall i :: 0 <= i < |results| ==> ([HEADER] + RowLines(results, render))[i + 1] == RowLine(results[i], render)
  {
  }

  lemma {:induction false} LinesOnOneLine(results: seq<SyncResult>, render: Render)
    requires forall i :: 0 <= i < |results| ==> FieldsOnOneLine(results[i], render)
    ensures forall i :: 0 <= i < |[HEADER] + RowLines(results, render)| ==> SingleLine(([HEADER] + RowLines(results, render))[i])
  {
    var lines := [HEADER] + RowLines(results, render);
    forall i | 0 <= i < |lines|
      ensures SingleLine(lines[i])
    {
      if i == 0 {
        HeaderOnOneLine();
      } else {
        assert lines[i] == RowLine(results[i - 1], render);
        RowLineOnOneLine(results[i - 1], render);
      }
    }
  }

  /** Unknown delays, elapsed time and error come out as empty fields. */
  lemma {:induction false} MissingValuesAreEmpty(r: SyncResult, render: Render)
    requires r.startDelay.None? && r.endDelay.None? && r.elapsedMs.None? && r.error.None?
    ensures RowLine(r, render) == Quoted(r.videoFile) + "," + Quoted(r.audioFile) + ",,,," + Quoted("")
  {
  }

  /** A known elapsed time is written in decimal and reads back unchanged. */
  lemma {:induction false} ElapsedFieldReadsBack(ms: U64)
    ensures var f := ElapsedField(Some(ms));
      (forall i :: 0 <= i < |f| ==> IsDigit(f[i])) && ParseDecimal(f) == ms
  {
    NatToStringRoundTrip(ms);
  }
}
