/**
 * The decisions of `downloadReport` (reportManager.js): the guards that
 * come before any file is written, the labels and two-column layout of the
 * metadata sections, the pagination of the test-data table, and what the
 * stream's `finish` handler records and resets. Text measurement
 * (`heightOfString`) is a pair of functions given by the caller.
 */
module ReportManager {
  import opened Js
  import FormManager
  import ModbusManager
  import ChartManager

  /** `footerHeight` and the table's `rowHeight`. */
  const FooterHeight: real := 15.0
  const TableRowHeight: real := 20.0
  /** The smallest height of a metadata row. */
  const SectionRowHeight: real := 22.0

  // ---------------------------------------------------------------------
  // Guards
  // ---------------------------------------------------------------------

  datatype Guard = Incomplete | EquipmentMissing | NoData | Generating

  /**
   * The three early returns of `downloadReport`, in order. `complete` is
   * `isTestMetadataComplete()`, `equipmentPresent` whether
   * `testMetadata.equipment` is set (an empty object counts as set) and
   * `tableLen` the number of rows `getTableData()` returns.
   */
  function DownloadGuard(complete: bool, isPolling: bool, equipmentPresent: bool, tableLen: nat): (r: Guard)
    ensures r == Incomplete <==> !complete
    ensures r == EquipmentMissing <==> complete && !isPolling && !equipmentPresent
    ensures r == NoData <==> complete && (isPolling || equipmentPresent) && tableLen == 0
    ensures r == Generating <==> complete && (isPolling || equipmentPresent) && tableLen > 0
  {
    if !complete then Incomplete
    else if !isPolling && !equipmentPresent then EquipmentMissing
    else if tableLen == 0 then NoData
    else Generating
  }

  /** Complete metadata always has an equipment object, so the second guard never fires. */
  lemma EquipmentGuardRedundant(meta: FormManager.TestMetadata, isPolling: bool, tableLen: nat)
    ensures DownloadGuard(FormManager.MetadataComplete(meta), isPolling, meta.equipment.Some?, tableLen)
      != EquipmentMissing
  {
    if FormManager.MetadataComplete(meta) {
      FormManager.CompleteHasEquipment(meta);
    }
  }

  /**
   * `downloadReport(...)` up to the creation of the PDF: the download button
   * is disabled, and every guard that stops the download enables it again.
   */
  method DownloadReport(session: ModbusManager.PollingSession, tableLen: nat) returns (g: Guard)
    modifies session
    ensures g == DownloadGuard(FormManager.MetadataComplete(session.testMetadata), session.isPolling,
                               session.testMetadata.equipment.Some?, tableLen)
    ensures g != Generating ==> !session.downloadDisabled
    ensures g == Generating ==> session.downloadDisabled
    ensures session.isPolling == old(session.isPolling) && session.locked == old(session.locked)
    ensures session.clientOpen == old(session.clientOpen)
    ensures session.peakValue == old(session.peakValue) && session.chartData == old(session.chartData)
    ensures session.testMetadata == old(session.testMetadata)
    ensures session.startDisabled == old(session.startDisabled)
    ensures session.stopDisabled == old(session.stopDisabled)
    ensures session.pendingTimers == old(session.pendingTimers)
    ensures session.readsInFlight == old(session.readsInFlight)
  {
    session.downloadDisabled := true;
    var complete := FormManager.IsTestMetadataComplete(session.testMetadata);
    if !complete {
      session.downloadDisabled := false;
      return Incomplete;
    }
    if !session.isPolling && session.testMetadata.equipment.None? {
      session.downloadDisabled := false;
      return EquipmentMissing;
    }
    if tableLen == 0 {
      session.downloadDisabled := false;
      return NoData;
    }
    return Generating;
  }

  // ---------------------------------------------------------------------
  // Key labels
  // ---------------------------------------------------------------------

  /** `.replace(/([A-Z])/g, ' $1')`: a space before every capital letter. */
  function SpaceBeforeUpper(s: string): (r: string)
    ensures |r| >= |s|
  {
    if s == [] then [] else (if IsUpper(s[0]) then [' ', s[0]] else [s[0]]) + SpaceBeforeUpper(s[1..])
  }

  /** The label a metadata key is shown under. */
  function CleanKey(key: string): string
  {
    Trim(UpperFirst(SpaceBeforeUpper(key)))
  }

  /** The string with its whitespace characters deleted. */
  function RemoveSpaces(s: string): string
  {
    if s == [] then [] else (if IsSpace(s[0]) then [] else [s[0]]) + RemoveSpaces(s[1..])
  }

  lemma {:induction false} RemoveSpacesAppend(a: string, b: string)
    ensures RemoveSpaces(a + b) == RemoveSpaces(a) + RemoveSpaces(b)
  {
    if a == [] {
      assert a + b == b;
    } else {
      assert (a + b)[0] == a[0] && (a + b)[1..] == a[1..] + b;
      RemoveSpacesAppend(a[1..], b);
    }
  }

  /** Whitespace cut from either end is whitespace `RemoveSpaces` deletes anyway. */
  lemma RemoveSpacesTrim(s: string)
    ensures RemoveSpaces(Trim(s)) == RemoveSpaces(s)
  {
    RemoveSpacesTrimStart(s);
    RemoveSpacesTrimEnd(TrimStart(s));
  }

  lemma {:induction false} RemoveSpacesTrimStart(s: string)
    ensures RemoveSpaces(TrimStart(s)) == RemoveSpaces(s)
  {
    if s != [] && IsSpace(s[0]) {
      RemoveSpacesTrimStart(s[1..]);
    }
  }

  lemma {:induction false} RemoveSpacesTrimEnd(s: string)
    ensures RemoveSpaces(TrimEnd(s)) == RemoveSpaces(s)
  {
    if s != [] && IsSpace(s[|s| - 1]) {
      var init := s[..|s| - 1];
      RemoveSpacesTrimEnd(init);
      assert s == init + [s[|s| - 1]];
      RemoveSpacesAppend(init, [s[|s| - 1]]);
      assert RemoveSpaces([s[|s| - 1]]) == [];
    }
  }

  /** The inserted spaces are the only whitespace in the spaced-out key. */
  lemma {:induction false} SpacedKeyWithoutSpaces(key: string)
    requires forall i :: 0 <= i < |key| ==> !IsSpace(key[i])
    ensures RemoveSpaces(SpaceBeforeUpper(key)) == key
  {
    if key != [] {
      var head := if IsUpper(key[0]) then [' ', key[0]] else [key[0]];
      RemoveSpacesAppend(head, SpaceBeforeUpper(key[1..]));
      SpacedKeyWithoutSpaces(key[1..]);
      assert RemoveSpaces(head) == [key[0]] by {
        if IsUpper(key[0]) {
          assert head[1..] == [key[0]];
        }
      }
      assert key == [key[0]] + key[1..];
    }
  }

  /**
   * For a key without whitespace, deleting the spaces from its label gives
   * the key back with its first character in upper case.
   */
  lemma CleanKeyWithoutSpaces(key: string)
    requires forall i :: 0 <= i < |key| ==> !IsSpace(key[i])
    ensures RemoveSpaces(CleanKey(key)) == UpperFirst(key)
  {
    var spaced := SpaceBeforeUpper(key);
    RemoveSpacesTrim(UpperFirst(spaced));
    SpacedKeyWithoutSpaces(key);
    if key != [] {
      var c := key[0];
      if IsUpper(c) {
        assert spaced == [' ', c] + SpaceBeforeUpper(key[1..]);
        assert UpperFirst(spaced) == spaced;
        assert UpperFirst(key) == key;
      } else {
        var rest := SpaceBeforeUpper(key[1..]);
        assert spaced == [c] + rest;
        RemoveSpacesCons(c, rest);
        assert RemoveSpaces(rest) == key[1..] by {
          assert key == [c] + key[1..];
        }
        assert UpperFirst(spaced) == [UpperChar(c)] + rest;
        RemoveSpacesCons(UpperChar(c), rest);
      }
    }
  }

  lemma RemoveSpacesCons(c: char, s: string)
    requires !IsSpace(c)
    ensures RemoveSpaces([c] + s) == [c] + RemoveSpaces(s)
  {
    assert ([c] + s)[0] == c && ([c] + s)[1..] == s;
  }

  // ---------------------------------------------------------------------
  // Metadata sections
  // ---------------------------------------------------------------------

  type Entry = (string, string)

  /** The equipment keys the report leaves out of its table. */
  const ExcludedEquipmentKeys: seq<string> := ["proofLoad", "testedBy", "certifiedBy", "certificateValidity"]

  /** `equipmentEntries.filter(([key]) => ![...].includes(key))` */
  function FilterEquipment(entries: seq<Entry>): (r: seq<Entry>)
    ensures |r| <= |entries|
    ensures forall e :: e in r <==> e in entries && e.0 !in ExcludedEquipmentKeys
  {
    if entries == [] then []
    else (if entries[0].0 in ExcludedEquipmentKeys then [] else [entries[0]]) + FilterEquipment(entries[1..])
  }

  /** The filter works entry by entry, so the kept entries stay in their order. */
  lemma {:induction false} FilterEquipmentAppend(a: seq<Entry>, b: seq<Entry>)
    ensures FilterEquipment(a + b) == FilterEquipment(a) + FilterEquipment(b)
  {
    if a == [] {
      assert a + b == b;
    } else {
      assert (a + b)[0] == a[0] && (a + b)[1..] == a[1..] + b;
      FilterEquipmentAppend(a[1..], b);
    }
  }

  /** Entries with none of the left-out keys pass through as they are. */
  lemma {:induction false} FilterEquipmentKeeps(entries: seq<Entry>)
    requires forall i :: 0 <= i < |entries| ==> entries[i].0 !in ExcludedEquipmentKeys
    ensures FilterEquipment(entries) == entries
  {
    if entries != [] {
      FilterEquipmentKeeps(entries[1..]);
    }
  }

  /** `Math.ceil(n / 2)` */
  function Half(n: nat): (r: nat)
    ensures r + r == n || r + r == n + 1
  {
    (n + 1) / 2
  }

  /** `entries.slice(0, half)` and `entries.slice(half)`. */
  function Columns(entries: seq<Entry>): (r: (seq<Entry>, seq<Entry>))
    ensures r.0 + r.1 == entries
    ensures |r.0| == Half(|entries|)
    ensures |r.0| == |r.1| || |r.0| == |r.1| + 1
  {
    var half := Half(|entries|);
    (entries[..half], entries[half..])
  }

  /** One key/value pair as drawn: the cleaned label (with a colon), and the value. */
  datatype Cell = Cell(caption: string, value: string)

  /**
   * One drawn row of a section: where it is, how tall, whether shaded, and
   * the entries it shows (each drawn as its `CellOf`).
   */
  datatype SectionRow = SectionRow(top: real, height: real, shaded: bool, left: Entry, right: Option<Entry>)

  function CellOf(e: Entry): Cell
  {
    Cell(CleanKey(e.0) + ":", e.1)
  }

  function Max(a: real, b: real): real
  {
    if a >= b then a else b
  }

  /**
   * The height one entry needs: the taller of its label and its value as
   * the measuring functions give them, plus 6.
   */
  function EntryHeight(e: Entry, keyHeight: string -> real, valueHeight: string -> real): real
  {
    Max(keyHeight(CleanKey(e.0) + ":"), valueHeight(e.1)) + 6.0
  }

  /** A row is at least 22 high and tall enough for both of its entries. */
  function RowHeightOf(left: Entry, right: Option<Entry>, keyHeight: string -> real, valueHeight: string -> real): real
  {
    var h := Max(SectionRowHeight, EntryHeight(left, keyHeight, valueHeight));
    if right.Some? then Max(h, EntryHeight(right.value, keyHeight, valueHeight)) else h
  }

  /** The row is the tallest of 22 and its entries' heights. */
  lemma RowHeightBounds(left: Entry, right: Option<Entry>, keyHeight: string -> real, valueHeight: string -> real)
    ensures var r := RowHeightOf(left, right, keyHeight, valueHeight);
      && r >= SectionRowHeight && r >= EntryHeight(left, keyHeight, valueHeight)
      && (right.Some? ==> r >= EntryHeight(right.value, keyHeight, valueHeight))
      && (r == SectionRowHeight || r == EntryHeight(left, keyHeight, valueHeight)
          || (right.Some? && r == EntryHeight(right.value, keyHeight, valueHeight)))
  {
  }

  /** The entry of the right column beside row i, if there is one. */
  function RightOf(right: seq<Entry>, i: nat): Option<Entry>
  {
    if i < |right| then Some(right[i]) else None
  }

  /** Where the row after the first `i` rows starts; the first starts 5 below the heading. */
  function NextTop(rows: seq<SectionRow>, yTitle: real, i: nat): real
    requires i <= |rows|
  {
    if i == 0 then yTitle + 5.0 else rows[i - 1].top + rows[i - 1].height
  }

  /** Row i of a section holds left entry i and right entry i, stacked without gaps. */
  predicate SectionRowOk(rows: seq<SectionRow>, left: seq<Entry>, right: seq<Entry>, yTitle: real,
                         keyHeight: string -> real, valueHeight: string -> real, i: nat)
    requires i < |rows| && i < |left|
  {
    RowDrawn(rows[i], left, right, keyHeight, valueHeight, i, NextTop(rows, yTitle, i))
  }

  /** Row i shows entry i and its partner, shaded on even rows, starting at `top`. */
  predicate RowDrawn(row: SectionRow, left: seq<Entry>, right: seq<Entry>,
                     keyHeight: string -> real, valueHeight: string -> real, i: nat, top: real)
    requires i < |left|
  {
    && row.left == left[i]
    && row.right == RightOf(right, i)
    && row.height == RowHeightOf(row.left, row.right, keyHeight, valueHeight)
    && (row.shaded <==> i % 2 == 0)
    && row.top == top
  }

  /** Appending a row leaves the rows before it as they were. */
  lemma SectionRowsExtend(rows: seq<SectionRow>, row: SectionRow, left: seq<Entry>, right: seq<Entry>,
                          yTitle: real, keyHeight: string -> real, valueHeight: string -> real, i: nat)
    requires i < |rows| && i < |left|
    requires SectionRowOk(rows, left, right, yTitle, keyHeight, valueHeight, i)
    ensures SectionRowOk(rows + [row], left, right, yTitle, keyHeight, valueHeight, i)
  {
    var ext := rows + [row];
    assert ext[i] == rows[i];
    if i > 0 {
      assert ext[i - 1] == rows[i - 1];
    }
    assert NextTop(ext, yTitle, i) == NextTop(rows, yTitle, i);
  }

  /** The rows of a section are stacked top to bottom, each at least 22 high. */
  lemma SectionRowsStack(rows: seq<SectionRow>, left: seq<Entry>, right: seq<Entry>, yTitle: real,
                         keyHeight: string -> real, valueHeight: string -> real)
    requires |rows| <= |left|
    requires forall j :: 0 <= j < |rows| ==> SectionRowOk(rows, left, right, yTitle, keyHeight, valueHeight, j)
    ensures forall j :: 0 <= j < |rows| ==> rows[j].height >= SectionRowHeight
    ensures forall j :: 0 < j < |rows| ==> rows[j].top >= rows[j - 1].top + SectionRowHeight
    ensures |rows| > 0 ==> rows[0].top == yTitle + 5.0
  {
    forall j | 0 <= j < |rows|
      ensures rows[j].height >= SectionRowHeight
    {
      RowHeightAtLeast(rows, left, right, yTitle, keyHeight, valueHeight, j);
    }
    forall j | 0 < j < |rows|
      ensures rows[j].top >= rows[j - 1].top + SectionRowHeight
    {
      RowHeightAtLeast(rows, left, right, yTitle, keyHeight, valueHeight, j - 1);
      assert SectionRowOk(rows, left, right, yTitle, keyHeight, valueHeight, j);
    }
    if |rows| > 0 {
      assert SectionRowOk(rows, left, right, yTitle, keyHeight, valueHeight, 0);
    }
  }

  lemma RowHeightAtLeast(rows: seq<SectionRow>, left: seq<Entry>, right: seq<Entry>, yTitle: real,
                         keyHeight: string -> real, valueHeight: string -> real, j: nat)
    requires j < |rows| && j < |left|
    requires SectionRowOk(rows, left, right, yTitle, keyHeight, valueHeight, j)
    ensures rows[j].height >= SectionRowHeight
  {
    RowHeightBounds(rows[j].left, rows[j].right, keyHeight, valueHeight);
  }

  /** Drawing row i below rows 0..i-1 keeps every row in its place. */
  lemma SectionStep(rows: seq<SectionRow>, row: SectionRow, left: seq<Entry>, right: seq<Entry>,
                    yTitle: real, keyHeight: string -> real, valueHeight: string -> real)
    requires |rows| < |left|
    requires forall j :: 0 <= j < |rows| ==> SectionRowOk(rows, left, right, yTitle, keyHeight, valueHeight, j)
    requires row.top == NextTop(rows, yTitle, |rows|) && row.left == left[|rows|]
    requires row.right == RightOf(right, |rows|) && (row.shaded <==> |rows| % 2 == 0)
    requires row.height == RowHeightOf(row.left, row.right, keyHeight, valueHeight)
    ensures forall j :: 0 <= j <= |rows| ==> SectionRowOk(rows + [row], left, right, yTitle, keyHeight, valueHeight, j)
    ensures NextTop(rows + [row], yTitle, |rows| + 1) == row.top + row.height
  {
    forall j | 0 <= j < |rows|
      ensures SectionRowOk(rows + [row], left, right, yTitle, keyHeight, valueHeight, j)
    {
      SectionRowsExtend(rows, row, left, right, yTitle, keyHeight, valueHeight, j);
    }
    var ext := rows + [row];
    assert ext[|rows|] == row;
    if |rows| > 0 {
      assert ext[|rows| - 1] == rows[|rows| - 1];
    }
  }

  /**
   * `renderSection(title, entries)` after its heading: `yTitle` is the
   * cursor below the heading. Returns the drawn rows and the new `y`.
   */
  method RenderSection(entries: seq<Entry>, yTitle: real,
                       keyHeight: string -> real, valueHeight: string -> real)
    returns (rows: seq<SectionRow>, y: real)
    ensures |rows| == Half(|entries|)
    ensures forall i :: 0 <= i < |rows| ==>
      SectionRowOk(rows, Columns(entries).0, Columns(entries).1, yTitle, keyHeight, valueHeight, i)
    ensures y == NextTop(rows, yTitle, |rows|) + 15.0
  {
    y := yTitle + 5.0;
    var half := Half(|entries|);
    var left, right := Columns(entries).0, Columns(entries).1;
    rows := [];
    for i := 0 to half
      invariant |rows| == i
      invariant forall j :: 0 <= j < i ==> SectionRowOk(rows, left, right, yTitle, keyHeight, valueHeight, j)
      invariant y == NextTop(rows, yTitle, i)
    {
      var rowHeight := RowHeightOf(left[i], RightOf(right, i), keyHeight, valueHeight);
      var row := SectionRow(y, rowHeight, i % 2 == 0, left[i], RightOf(right, i));
      SectionStep(rows, row, left, right, yTitle, keyHeight, valueHeight);
      rows := rows + [row];
      y := y + rowHeight;
    }
    y := y + 15.0;
  }

  /** Every entry lands in exactly one cell: the first half on the left, the rest on the right. */
  lemma SectionShowsEveryEntry(entries: seq<Entry>, k: nat)
    requires k < |entries|
    ensures var half := Half(|entries|);
      if k < half then Columns(entries).0[k] == entries[k]
      else k - half < half && Columns(entries).1[k - half] == entries[k]
  {
  }

  // ---------------------------------------------------------------------
  // Test-data table
  // ---------------------------------------------------------------------

  /** One row of the test-data table: its page (counted from the table's first page) and position. */
  datatype TableRow = TableRow(page: nat, top: real, newPage: bool, shaded: bool)

  /** The lowest position a row may reach: `page.height - margins.bottom - footerHeight - 10`. */
  function PageLimit(pageHeight: real, marginBottom: real): real
  {
    pageHeight - marginBottom - FooterHeight - 10.0
  }

  /** The cursor after the first i rows; the header drawn at `yStart` comes first. */
  function Cursor(rows: seq<TableRow>, yStart: real, i: nat): real
    requires i <= |rows|
  {
    if i == 0 then yStart + TableRowHeight else rows[i - 1].top + TableRowHeight
  }

  function PageBefore(rows: seq<TableRow>, i: nat): nat
    requires i <= |rows|
  {
    if i == 0 then 0 else rows[i - 1].page
  }

  /**
   * Row i breaks the page exactly when it would cross the limit, and then
   * sits under a header redrawn at the top margin.
   */
  predicate TableRowOk(rows: seq<TableRow>, yStart: real, marginTop: real, limit: real, i: nat)
    requires i < |rows|
  {
    && (rows[i].newPage <==> Cursor(rows, yStart, i) + TableRowHeight > limit)
    && rows[i].top == (if rows[i].newPage then marginTop + TableRowHeight else Cursor(rows, yStart, i))
    && rows[i].page == PageBefore(rows, i) + (if rows[i].newPage then 1 else 0)
    && (rows[i].shaded <==> i % 2 == 0)
  }

  lemma TableRowsExtend(rows: seq<TableRow>, row: TableRow, yStart: real, marginTop: real, limit: real, i: nat)
    requires i < |rows| && TableRowOk(rows, yStart, marginTop, limit, i)
    ensures TableRowOk(rows + [row], yStart, marginTop, limit, i)
  {
    var ext := rows + [row];
    assert ext[i] == rows[i];
    if i > 0 {
      assert ext[i - 1] == rows[i - 1];
    }
  }

  /**
   * The table loop: header at `yStart`, then one row of `rowHeight` per
   * entry of `tableData`, with a new page and a new header whenever the
   * next row would not fit above `limit`.
   */
  method PaginateTable(tableData: seq<seq<string>>, yStart: real, marginTop: real, limit: real)
    returns (rows: seq<TableRow>)
    ensures |rows| == |tableData|
    ensures forall i :: 0 <= i < |rows| ==> TableRowOk(rows, yStart, marginTop, limit, i)
    ensures marginTop + 2.0 * TableRowHeight <= limit ==>
      forall i :: 0 <= i < |rows| ==> rows[i].top + TableRowHeight <= limit
  {
    var y := yStart + TableRowHeight;
    var page := 0;
    rows := [];
    for index := 0 to |tableData|
      invariant |rows| == index
      invariant y == Cursor(rows, yStart, index) && page == PageBefore(rows, index)
      invariant forall i :: 0 <= i < index ==> TableRowOk(rows, yStart, marginTop, limit, i)
      invariant marginTop + 2.0 * TableRowHeight <= limit ==>
        forall i :: 0 <= i < index ==> rows[i].top + TableRowHeight <= limit
    {
      var newPage := y + TableRowHeight > limit;
      if newPage {
        page := page + 1;
        y := marginTop + TableRowHeight;
      }
      var row := TableRow(page, y, newPage, index % 2 == 0);
      forall i | 0 <= i < index
        ensures TableRowOk(rows + [row], yStart, marginTop, limit, i)
      {
        TableRowsExtend(rows, row, yStart, marginTop, limit, i);
      }
      assert (rows + [row])[index] == row;
      rows := rows + [row];
      y := y + TableRowHeight;
    }
  }

  // ---------------------------------------------------------------------
  // After the PDF is written
  // ---------------------------------------------------------------------

  /** One entry of tests.json. */
  datatype TestRecord = TestRecord(
    id: string, metadata: FormManager.TestMetadata, chartData: seq<ModbusManager.Sample>,
    peakValue: real, filePath: string)

  /** `Proof Load Test Value: ...`: `proofLoad + ' t'` when it is set, `N/A` when it is falsy. */
  function ProofLoadText(equipment: FormManager.Fields): (r: string)
    ensures !Truthy(if "proofLoad" in equipment then Some(equipment["proofLoad"]) else None) ==> r == "N/A"
    ensures "proofLoad" in equipment && equipment["proofLoad"] != "" ==>
      |r| == |equipment["proofLoad"]| + 2 && r[..|equipment["proofLoad"]|] == equipment["proofLoad"]
      && r[|equipment["proofLoad"]|..] == " t"
  {
    if "proofLoad" in equipment && equipment["proofLoad"] != "" then equipment["proofLoad"] + " t" else "N/A"
  }

  /** Equipment saved by the form shows the formatted proof load in tonnes. */
  lemma SavedProofLoadShown(data: FormManager.Fields, formatted: string, validity: string)
    requires formatted != ""
    ensures ProofLoadText(data["proofLoad" := formatted]["certificateValidity" := validity]) == formatted + " t"
  {
  }

  /** tests.json as the `finish` handler finds it. */
  datatype TestsFile =
    | NoTestsFile
    | Unparsable
    /** JSON that is not an array (`{}`, `null`, a number, ...): `tests.push` throws. */
    | NotAnArray
    | Records(records: seq<TestRecord>)

  /**
   * The records to write: the parsed array (or `[]` when the file is missing
   * or does not parse) with the new record appended; None where `push` throws.
   */
  function AppendRecord(file: TestsFile, rec: TestRecord): (r: Option<seq<TestRecord>>)
    ensures r.None? <==> file.NotAnArray?
    ensures file.NoTestsFile? || file.Unparsable? ==> r == Some([rec])
    ensures file.Records? ==>
      r.Some? && |r.value| == |file.records| + 1 && r.value[..|file.records|] == file.records
    ensures r.Some? ==> r.value != [] && r.value[|r.value| - 1] == rec
  {
    match file
    case NoTestsFile => Some([rec])
    case Unparsable => Some([rec])
    case NotAnArray => None
    case Records(records) => Some(records + [rec])
  }

  /**
   * The stream's `finish` handler. The record holds the metadata and sample
   * objects `downloadReport` read at its start; polling pushes into that same
   * sample array and the forms update that same metadata object in place, so
   * by `finish` they hold the store's current values, which is what the
   * record takes here. `file` is tests.json as found; `id` is the current
   * time as an ISO string. Returns what is written to tests.json: None when
   * `push` throws, and then nothing after it runs.
   */
  method FinishSave(session: ModbusManager.PollingSession, chart: ChartManager.Chart,
                    file: TestsFile, id: string, filePath: string,
                    canvasPresent: bool, destroyOk: bool)
    returns (written: Option<seq<TestRecord>>)
    requires chart.Valid()
    modifies session, chart
    ensures written == AppendRecord(file, TestRecord(id, old(session.testMetadata), old(session.chartData),
                                                     old(session.peakValue), filePath))
    ensures written.None? ==> unchanged(session) && unchanged(chart)
    ensures written.Some? ==>
      && session.testMetadata == FormManager.ResetEquipmentData(old(session.testMetadata))
      && session.chartData == [] && session.peakValue == 0.0 && session.PeakTracked()
      && !session.startDisabled && session.stopDisabled && !session.downloadDisabled
      && session.isPolling == old(session.isPolling) && session.locked == old(session.locked)
      && session.clientOpen == old(session.clientOpen)
      && session.pendingTimers == old(session.pendingTimers)
      && session.readsInFlight == old(session.readsInFlight)
      && chart.Valid() && chart.destroyInProgress
      && (old(chart.chartInstance).Some? && destroyOk ==> chart.chartInstance == None)
  {
    written := AppendRecord(file, TestRecord(id, session.testMetadata, session.chartData,
                                             session.peakValue, filePath));
    if written.None? {
      return;
    }
    session.testMetadata := FormManager.ResetEquipmentData(session.testMetadata);
    session.chartData := [];
    session.peakValue := 0.0;
    chart.ClearChart(canvasPresent, destroyOk);
    session.startDisabled := false;
    session.stopDisabled := true;
    session.downloadDisabled := false;
  }

  /** The stream's `error` handler: only the download button comes back. */
  method StreamFailed(session: ModbusManager.PollingSession)
    modifies session
    ensures !session.downloadDisabled
    ensures session.isPolling == old(session.isPolling) && session.locked == old(session.locked)
    ensures session.clientOpen == old(session.clientOpen)
    ensures session.peakValue == old(session.peakValue) && session.chartData == old(session.chartData)
    ensures session.testMetadata == old(session.testMetadata)
    ensures session.startDisabled == old(session.startDisabled)
    ensures session.stopDisabled == old(session.stopDisabled)
    ensures session.pendingTimers == old(session.pendingTimers)
    ensures session.readsInFlight == old(session.readsInFlight)
  {
    session.downloadDisabled := false;
  }
}
