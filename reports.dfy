/**
 * The report list of reports.js: `toTitleCase`, the search filter, the
 * newest-first ordering, which PDF a row links to, and the rewrite of
 * tests.json by `deleteReport`. File existence and date handling are
 * functions given by the caller.
 */
module Reports {
  import opened Js

  // ---------------------------------------------------------------------
  // toTitleCase
  // ---------------------------------------------------------------------

  /** `str.split(' ')`: never empty; an empty string gives one empty piece. */
  function Split(s: string): (r: seq<string>)
    ensures |r| >= 1
  {
    if s == [] then [[]]
    else
      var rest := Split(s[1..]);
      if s[0] == ' ' then [[]] + rest else [[s[0]] + rest[0]] + rest[1..]
  }

  /** `words.join(' ')` */
  function Join(words: seq<string>): string
  {
    if words == [] then []
    else if |words| == 1 then words[0]
    else words[0] + " " + Join(words[1..])
  }

  function CapitalizeAll(words: seq<string>): (r: seq<string>)
    ensures |r| == |words|
  {
    if words == [] then [] else [UpperFirst(words[0])] + CapitalizeAll(words[1..])
  }

  /** `toTitleCase(str)` */
  function ToTitleCase(s: string): string
  {
    Join(CapitalizeAll(Split(Lower(s))))
  }

  /**
   * The same result computed one character at a time over the lowercased
   * string: a character is capitalised when it starts a piece (`cap`).
   */
  function TitleChars(t: string, cap: bool): (r: string)
    ensures |r| == |t|
  {
    if t == [] then []
    else if t[0] == ' ' then [' '] + TitleChars(t[1..], true)
    else [if cap then UpperChar(t[0]) else t[0]] + TitleChars(t[1..], false)
  }

  /** The first piece capitalised or not, the rest capitalised, joined. */
  function JoinFrom(pieces: seq<string>, cap: bool): string
    requires |pieces| >= 1
  {
    Join([if cap then UpperFirst(pieces[0]) else pieces[0]] + CapitalizeAll(pieces[1..]))
  }

  lemma JoinCons(x: char, w: string, rest: seq<string>)
    ensures Join([[x] + w] + rest) == [x] + Join([w] + rest)
  {
    var ws := [[x] + w] + rest;
    if |ws| > 1 {
      assert ws[1..] == rest;
      assert ([w] + rest)[1..] == rest;
    }
  }

  /** A leading space ends an empty first piece and the next piece is capitalised. */
  lemma JoinFromSpace(t: string, cap: bool)
    requires t != [] && t[0] == ' '
    ensures JoinFrom(Split(t), cap) == " " + JoinFrom(Split(t[1..]), true)
  {
    var rest := Split(t[1..]);
    var pieces := Split(t);
    assert pieces == [[]] + rest;
    assert pieces[0] == [] && pieces[1..] == rest;
    var cr := CapitalizeAll(rest);
    assert cr == [UpperFirst(rest[0])] + CapitalizeAll(rest[1..]);
    var ws := [[]] + cr;
    assert JoinFrom(pieces, cap) == Join(ws);
    assert |ws| > 1 && ws[0] == [] && ws[1..] == cr;
    assert Join(ws) == " " + Join(cr);
  }

  /** A leading letter joins the first piece, capitalised only when `cap`. */
  lemma JoinFromLetter(t: string, cap: bool)
    requires t != [] && t[0] != ' '
    ensures JoinFrom(Split(t), cap) == [if cap then UpperChar(t[0]) else t[0]] + JoinFrom(Split(t[1..]), false)
  {
    var rest := Split(t[1..]);
    var c := t[0];
    assert Split(t) == [[c] + rest[0]] + rest[1..];
    var first := if cap then UpperChar(c) else c;
    assert (if cap then UpperFirst([c] + rest[0]) else [c] + rest[0]) == [first] + rest[0];
    JoinCons(first, rest[0], CapitalizeAll(rest[1..]));
  }

  lemma {:induction false} JoinFromChars(t: string, cap: bool)
    ensures JoinFrom(Split(t), cap) == TitleChars(t, cap)
  {
    if t != [] {
      JoinFromChars(t[1..], t[0] == ' ');
      if t[0] == ' ' {
        JoinFromSpace(t, cap);
      } else {
        JoinFromLetter(t, cap);
      }
    }
  }

  /** `toTitleCase` is the character-by-character form on the lowercased input. */
  lemma TitleCaseChars(s: string)
    ensures ToTitleCase(s) == TitleChars(Lower(s), true)
  {
    JoinFromChars(Lower(s), true);
  }

  /** The characters kept, with the same spaces: the output is exactly as long. */
  lemma TitleCaseLength(s: string)
    ensures |ToTitleCase(s)| == |s|
  {
    TitleCaseChars(s);
  }

  /** Position i starts a piece: it is first, or follows a space. */
  predicate PieceStart(s: string, i: nat)
    requires i < |s|
  {
    i == 0 || s[i - 1] == ' '
  }

  lemma {:induction false} TitleCharsAt(t: string, cap: bool, i: nat)
    requires i < |t|
    ensures TitleChars(t, cap)[i] ==
      if t[i] == ' ' then ' '
      else if (if i == 0 then cap else t[i - 1] == ' ') then UpperChar(t[i])
      else t[i]
  {
    if i > 0 {
      TitleCharsAt(t[1..], t[0] == ' ', i - 1);
    }
  }

  /**
   * Each character of `toTitleCase(s)`: spaces stay, the first character of
   * every piece is upper case, every other character lower case.
   */
  lemma TitleCaseAt(s: string, i: nat)
    requires i < |s|
    ensures |ToTitleCase(s)| == |s|
    ensures ToTitleCase(s)[i] ==
      if s[i] == ' ' then ' '
      else if PieceStart(s, i) then UpperChar(LowerChar(s[i]))
      else LowerChar(s[i])
  {
    TitleCaseChars(s);
    var t := Lower(s);
    TitleCharsAt(t, true, i);
    assert t[i] == ' ' <==> s[i] == ' ';
    if i > 0 {
      assert t[i - 1] == ' ' <==> s[i - 1] == ' ';
    }
  }

  lemma CaseRoundTrip(c: char)
    ensures UpperChar(LowerChar(UpperChar(LowerChar(c)))) == UpperChar(LowerChar(c))
    ensures LowerChar(LowerChar(c)) == LowerChar(c)
    ensures (UpperChar(LowerChar(c)) == ' ') == (c == ' ')
    ensures (LowerChar(c) == ' ') == (c == ' ')
  {
  }

  /** Title-casing a title-cased string changes nothing. */
  lemma TitleCaseIdempotent(s: string)
    ensures ToTitleCase(ToTitleCase(s)) == ToTitleCase(s)
  {
    var u := ToTitleCase(s);
    TitleCaseLength(s);
    TitleCaseLength(u);
    forall i | 0 <= i < |s|
      ensures ToTitleCase(u)[i] == u[i]
    {
      TitleCaseAt(s, i);
      TitleCaseAt(u, i);
      CaseRoundTrip(s[i]);
      if i > 0 {
        TitleCaseAt(s, i - 1);
        CaseRoundTrip(s[i - 1]);
      }
    }
  }

  function Spaces(s: string): nat
  {
    if s == [] then 0 else (if s[0] == ' ' then 1 else 0) + Spaces(s[1..])
  }

  /** `split(' ')` yields one piece more than there are spaces. */
  lemma {:induction false} SplitCount(s: string)
    ensures |Split(s)| == Spaces(s) + 1
  {
    if s != [] {
      SplitCount(s[1..]);
    }
  }

  lemma {:induction false} SpacesSamePositions(a: string, b: string)
    requires |a| == |b| && forall i :: 0 <= i < |a| ==> (a[i] == ' ' <==> b[i] == ' ')
    ensures Spaces(a) == Spaces(b)
  {
    if a != [] {
      assert forall i :: 0 <= i < |a| - 1 ==> a[1..][i] == a[i + 1] && b[1..][i] == b[i + 1];
      SpacesSamePositions(a[1..], b[1..]);
    }
  }

  /** `toTitleCase` keeps the number of `' '`-separated pieces. */
  lemma TitleCasePieces(s: string)
    ensures |Split(ToTitleCase(s))| == |Split(s)|
  {
    var u := ToTitleCase(s);
    TitleCaseLength(s);
    forall i | 0 <= i < |s|
      ensures u[i] == ' ' <==> s[i] == ' '
    {
      TitleCaseAt(s, i);
      CaseRoundTrip(s[i]);
    }
    SpacesSamePositions(u, s);
    SplitCount(u);
    SplitCount(s);
  }

  // ---------------------------------------------------------------------
  // The stored tests
  // ---------------------------------------------------------------------

  /**
   * One entry of tests.json as the list reads it: `id`, the saved
   * `metadata.equipment` (None when it is missing), `peakValue` (0 when
   * missing), and `filePath` / `backupPath` ("" when missing).
   */
  datatype Report = Report(
    id: string, equipment: Option<map<string, string>>, peakValue: real,
    filePath: string, backupPath: string)

  /** `test.metadata?.equipment?.[key]` */
  function Field(t: Report, key: string): Option<string>
  {
    if t.equipment.Some? && key in t.equipment.value then Some(t.equipment.value[key]) else None
  }

  /** `value || fallback` for a string that may be missing. */
  function OrElse(v: Option<string>, fallback: string): (r: string)
    ensures Truthy(v) ==> r == v.value
    ensures !Truthy(v) ==> r == fallback
  {
    if Truthy(v) then v.value else fallback
  }

  // ---------------------------------------------------------------------
  // Newest first
  // ---------------------------------------------------------------------

  /**
   * The sort key `new Date(testDate || 0)`: `timestamp` is what `Date`
   * makes of a saved date string, and a missing date is time 0.
   */
  function DateKey(t: Report, timestamp: string -> int): int
  {
    var d := Field(t, "testDate");
    if Truthy(d) then timestamp(d.value) else 0
  }

  predicate NewestFirst(s: seq<Report>, timestamp: string -> int)
  {
    forall i, j :: 0 <= i < j < |s| ==> DateKey(s[i], timestamp) >= DateKey(s[j], timestamp)
  }

  /** Place `x` after every entry at least as new (so equal dates keep their order). */
  function Insert(x: Report, s: seq<Report>, timestamp: string -> int): (r: seq<Report>)
    ensures multiset(r) == multiset(s) + multiset{x}
    ensures |r| == |s| + 1
  {
    if s == [] then [x]
    else if DateKey(s[0], timestamp) < DateKey(x, timestamp) then [x] + s
    else
      assert s == [s[0]] + s[1..];
      [s[0]] + Insert(x, s[1..], timestamp)
  }

  /** `tests.sort((a, b) => dateB - dateA)`, as a stable sort. */
  function SortByDate(s: seq<Report>, timestamp: string -> int): (r: seq<Report>)
    ensures multiset(r) == multiset(s)
    ensures |r| == |s|
  {
    if s == [] then []
    else
      var init := s[..|s| - 1];
      assert s == init + [s[|s| - 1]];
      Insert(s[|s| - 1], SortByDate(init, timestamp), timestamp)
  }

  /** No test of `s` is newer than `bound`. */
  predicate NoneNewer(s: seq<Report>, bound: int, timestamp: string -> int)
  {
    forall i :: 0 <= i < |s| ==> DateKey(s[i], timestamp) <= bound
  }

  lemma {:induction false} InsertNoneNewer(x: Report, s: seq<Report>, bound: int, timestamp: string -> int)
    requires NoneNewer(s, bound, timestamp) && DateKey(x, timestamp) <= bound
    ensures NoneNewer(Insert(x, s, timestamp), bound, timestamp)
  {
    if s != [] && DateKey(s[0], timestamp) >= DateKey(x, timestamp) {
      InsertNoneNewer(x, s[1..], bound, timestamp);
      var r := Insert(x, s, timestamp);
      forall i | 0 <= i < |r|
        ensures DateKey(r[i], timestamp) <= bound
      {
        if i > 0 {
          assert r[i] == Insert(x, s[1..], timestamp)[i - 1];
        }
      }
    }
  }

  lemma {:induction false} InsertKeepsOrder(x: Report, s: seq<Report>, timestamp: string -> int)
    requires NewestFirst(s, timestamp)
    ensures NewestFirst(Insert(x, s, timestamp), timestamp)
  {
    if s != [] && DateKey(s[0], timestamp) >= DateKey(x, timestamp) {
      var rest := Insert(x, s[1..], timestamp);
      InsertKeepsOrder(x, s[1..], timestamp);
      assert NoneNewer(s[1..], DateKey(s[0], timestamp), timestamp) by {
        forall i | 0 <= i < |s[1..]|
          ensures DateKey(s[1..][i], timestamp) <= DateKey(s[0], timestamp)
        {
          assert s[1..][i] == s[i + 1];
        }
      }
      InsertNoneNewer(x, s[1..], DateKey(s[0], timestamp), timestamp);
      var r := [s[0]] + rest;
      forall i, j | 0 <= i < j < |r|
        ensures DateKey(r[i], timestamp) >= DateKey(r[j], timestamp)
      {
        assert r[j] == rest[j - 1];
        if i > 0 {
          assert r[i] == rest[i - 1];
        }
      }
    }
  }

  /** After sorting, tests run from the newest date to the oldest. */
  lemma {:induction false} SortedNewestFirst(s: seq<Report>, timestamp: string -> int)
    ensures NewestFirst(SortByDate(s, timestamp), timestamp)
  {
    if s != [] {
      SortedNewestFirst(s[..|s| - 1], timestamp);
      InsertKeepsOrder(s[|s| - 1], SortByDate(s[..|s| - 1], timestamp), timestamp);
    }
  }

  // ---------------------------------------------------------------------
  // Search and rows
  // ---------------------------------------------------------------------

  /** `rawSearch.trim().toLowerCase()` */
  function SearchTerm(raw: string): string
  {
    Lower(Trim(raw))
  }

  /** The equipment name cell: `toTitleCase(equipmentName || 'Untitled')`. */
  function NameCell(t: Report): string
  {
    ToTitleCase(OrElse(Field(t, "equipmentName"), "Untitled"))
  }

  /** The location cell: `toTitleCase(location || 'N/A')`. */
  function LocationCell(t: Report): string
  {
    ToTitleCase(OrElse(Field(t, "location"), "N/A"))
  }

  /** The date cell: the saved date as `toLocaleDateString('en-IN')` shows it, or `N/A`. */
  function DateCell(t: Report, formatDate: string -> string): string
  {
    var d := Field(t, "testDate");
    if Truthy(d) then formatDate(d.value) else "N/A"
  }

  /** The text searched: name, location and date, lowercased. */
  function CombinedText(t: Report, formatDate: string -> string): string
  {
    Lower(NameCell(t) + " " + LocationCell(t) + " " + DateCell(t, formatDate))
  }

  /** A test is listed unless there is a term and its text does not contain it. */
  predicate Listed(t: Report, term: string, formatDate: string -> string)
  {
    term == "" || Contains(CombinedText(t, formatDate), term)
  }

  /** The PDF a row links to: the saved path if it exists, else the backup if it exists. */
  function ResolvedPath(t: Report, fileExists: string -> bool): (r: Option<string>)
    ensures t.filePath != "" && fileExists(t.filePath) ==> r == Some(t.filePath)
    ensures !(t.filePath != "" && fileExists(t.filePath)) && t.backupPath != "" && fileExists(t.backupPath) ==>
      r == Some(t.backupPath)
    ensures r.None? <==> !(t.filePath != "" && fileExists(t.filePath)) && !(t.backupPath != "" && fileExists(t.backupPath))
    ensures r.Some? ==> r.value != "" && fileExists(r.value)
  {
    if t.filePath != "" && fileExists(t.filePath) then Some(t.filePath)
    else if t.backupPath != "" && fileExists(t.backupPath) then Some(t.backupPath)
    else None
  }

  /**
   * One table row. `peak` is None where the page shows `N/A`; `path` is the
   * resolved PDF, and the View, Download and Delete buttons are shown iff
   * it is set (otherwise "Report not found").
   */
  datatype ListRow = ListRow(id: string, name: string, location: string, date: string,
                             peak: Option<real>, path: Option<string>)

  predicate ActionsShown(row: ListRow)
  {
    row.path.Some?
  }

  function RowOf(t: Report, formatDate: string -> string, fileExists: string -> bool): ListRow
  {
    ListRow(t.id, NameCell(t), LocationCell(t), DateCell(t, formatDate),
            if t.peakValue != 0.0 then Some(t.peakValue) else None, ResolvedPath(t, fileExists))
  }

  /** The filter of the list as a function on tests. */
  function KeepFor(term: string, formatDate: string -> string): Report -> bool
  {
    t => Listed(t, term, formatDate)
  }

  /** The row drawn for a test as a function on tests. */
  function RenderFor(formatDate: string -> string, fileExists: string -> bool): Report -> ListRow
  {
    t => RowOf(t, formatDate, fileExists)
  }

  /** The rows drawn for the tests that `keep` lets through, in their order. */
  function Visible(tests: seq<Report>, keep: Report -> bool, render: Report -> ListRow): (r: seq<ListRow>)
    ensures |r| <= |tests|
  {
    if tests == [] then []
    else
      var last := tests[|tests| - 1];
      Visible(tests[..|tests| - 1], keep, render) + (if keep(last) then [render(last)] else [])
  }

  /** Some test of the list is let through. */
  predicate AnyKept(tests: seq<Report>, keep: Report -> bool)
  {
    exists i :: 0 <= i < |tests| && keep(tests[i])
  }

  lemma {:induction false} VisibleEmptyIff(tests: seq<Report>, keep: Report -> bool, render: Report -> ListRow)
    ensures Visible(tests, keep, render) == [] <==> !AnyKept(tests, keep)
  {
    if tests != [] {
      var init := tests[..|tests| - 1];
      VisibleEmptyIff(init, keep, render);
      if AnyKept(init, keep) {
        var i :| 0 <= i < |init| && keep(init[i]);
        assert tests[i] == init[i];
      }
      if AnyKept(tests, keep) && !keep(tests[|tests| - 1]) {
        var i :| 0 <= i < |tests| && keep(tests[i]);
        assert init[i] == tests[i];
      }
    }
  }

  /** Row i of the visible rows is drawn for some test that is let through. */
  lemma {:induction false} VisibleRowsFromKept(tests: seq<Report>, keep: Report -> bool,
                                               render: Report -> ListRow, i: nat)
    requires i < |Visible(tests, keep, render)|
    ensures exists j :: 0 <= j < |tests| && keep(tests[j]) && Visible(tests, keep, render)[i] == render(tests[j])
  {
    var init := tests[..|tests| - 1];
    var v := Visible(init, keep, render);
    if i < |v| {
      VisibleRowsFromKept(init, keep, render, i);
      var j :| 0 <= j < |init| && keep(init[j]) && v[i] == render(init[j]);
      assert tests[j] == init[j];
    } else {
      assert keep(tests[|tests| - 1]);
    }
  }

  /** Every test the filter lets through has its row among the rows shown. */
  lemma {:induction false} KeptIsShown(tests: seq<Report>, keep: Report -> bool,
                                       render: Report -> ListRow, j: nat)
    requires j < |tests| && keep(tests[j])
    ensures render(tests[j]) in Visible(tests, keep, render)
  {
    var init := tests[..|tests| - 1];
    if j < |init| {
      assert init[j] == tests[j];
      KeptIsShown(init, keep, render, j);
    }
  }

  /** A filter that lets every test through shows every test's row, in order. */
  lemma {:induction false} AllKeptAllShown(tests: seq<Report>, keep: Report -> bool, render: Report -> ListRow)
    requires forall i :: 0 <= i < |tests| ==> keep(tests[i])
    ensures |Visible(tests, keep, render)| == |tests|
    ensures forall i :: 0 <= i < |tests| ==> Visible(tests, keep, render)[i] == render(tests[i])
  {
    if tests != [] {
      var init := tests[..|tests| - 1];
      assert forall i :: 0 <= i < |init| ==> init[i] == tests[i];
      AllKeptAllShown(init, keep, render);
      assert keep(tests[|tests| - 1]);
    }
  }

  /** With an empty search term every test gets a row, in the sorted order: row i is test i's. */
  lemma EmptyTermListsAll(tests: seq<Report>, raw: string, render: Report -> ListRow,
                          formatDate: string -> string)
    requires SearchTerm(raw) == ""
    ensures |Visible(tests, KeepFor(SearchTerm(raw), formatDate), render)| == |tests|
    ensures forall i :: 0 <= i < |tests| ==>
      Visible(tests, KeepFor(SearchTerm(raw), formatDate), render)[i] == render(tests[i])
  {
    var keep := KeepFor(SearchTerm(raw), formatDate);
    assert forall i :: 0 <= i < |tests| ==> keep(tests[i]);
    AllKeptAllShown(tests, keep, render);
  }

  /** A blank search box (only whitespace) is an empty term. */
  lemma BlankSearchIsEmpty(raw: string)
    requires forall i :: 0 <= i < |raw| ==> IsSpace(raw[i])
    ensures SearchTerm(raw) == ""
  {
    TrimEmptyIff(raw);
  }

  lemma AnyKeptExtend(tests: seq<Report>, t: Report, keep: Report -> bool)
    ensures AnyKept(tests + [t], keep) <==> AnyKept(tests, keep) || keep(t)
  {
    if AnyKept(tests + [t], keep) && !keep(t) {
      var i :| 0 <= i < |tests| + 1 && keep((tests + [t])[i]);
      assert tests[i] == (tests + [t])[i];
    }
    if AnyKept(tests, keep) {
      var i :| 0 <= i < |tests| && keep(tests[i]);
      assert (tests + [t])[i] == tests[i];
    }
    if keep(t) {
      assert (tests + [t])[|tests|] == t;
    }
  }

  /** One more test considered: its row, if kept, goes after the others. */
  lemma VisibleStep(tests: seq<Report>, k: nat, keep: Report -> bool, render: Report -> ListRow)
    requires k < |tests|
    ensures Visible(tests[..k + 1], keep, render) ==
      Visible(tests[..k], keep, render) + (if keep(tests[k]) then [render(tests[k])] else [])
    ensures AnyKept(tests[..k + 1], keep) <==> AnyKept(tests[..k], keep) || keep(tests[k])
  {
    assert tests[..k + 1][..k] == tests[..k];
    assert tests[..k + 1] == tests[..k] + [tests[k]];
    AnyKeptExtend(tests[..k], tests[k], keep);
  }

  /**
   * The loop of `loadReports` over the sorted tests: a row for each test
   * the search lets through, and whether there was any.
   */
  method BuildRows(tests: seq<Report>, searchTerm: string, formatDate: string -> string,
                   fileExists: string -> bool)
    returns (rows: seq<ListRow>, matchFound: bool)
    ensures rows == Visible(tests, KeepFor(searchTerm, formatDate), RenderFor(formatDate, fileExists))
    ensures matchFound <==> AnyKept(tests, KeepFor(searchTerm, formatDate))
    ensures matchFound <==> rows != []
  {
    matchFound := false;
    rows := [];
    ghost var keep := KeepFor(searchTerm, formatDate);
    ghost var render := RenderFor(formatDate, fileExists);
    for k := 0 to |tests|
      invariant rows == Visible(tests[..k], keep, render)
      invariant matchFound <==> AnyKept(tests[..k], keep)
    {
      var test := tests[k];
      VisibleStep(tests, k, keep, render);
      var listed := searchTerm == "" || Contains(CombinedText(test, formatDate), searchTerm);
      var row := RowOf(test, formatDate, fileExists);
      assert keep(test) == listed && render(test) == row;
      if !listed {
        assert rows == Visible(tests[..k + 1], keep, render);
        continue;
      }
      matchFound := true;
      rows := rows + [row];
      assert rows == Visible(tests[..k + 1], keep, render);
    }
    assert tests[..|tests|] == tests;
    VisibleEmptyIff(tests, keep, render);
  }

  /** What `loadReports` puts into the list. */
  datatype Listing = NoReportsFound | Table(rows: seq<ListRow>, matchFound: bool)

  /**
   * `loadReports()` from reading tests.json on. `stored` is the parsed file,
   * None when it is missing or not an array; `raw` is the search box
   * (`''` when it is missing).
   */
  method LoadReports(stored: Option<seq<Report>>, raw: string, timestamp: string -> int,
                     formatDate: string -> string, fileExists: string -> bool)
    returns (listing: Listing)
    ensures stored.None? || stored.value == [] ==> listing == NoReportsFound
    ensures stored.Some? && stored.value != [] ==>
      var sorted := SortByDate(stored.value, timestamp);
      && listing.Table?
      && listing.rows == Visible(sorted, KeepFor(SearchTerm(raw), formatDate), RenderFor(formatDate, fileExists))
      && (listing.matchFound <==> AnyKept(sorted, KeepFor(SearchTerm(raw), formatDate)))
      && (listing.matchFound <==> listing.rows != [])
  {
    if stored.None? || stored.value == [] {
      return NoReportsFound;
    }
    var tests := SortByDate(stored.value, timestamp);
    var rows, matchFound := BuildRows(tests, SearchTerm(raw), formatDate, fileExists);
    return Table(rows, matchFound);
  }

  // ---------------------------------------------------------------------
  // deleteReport
  // ---------------------------------------------------------------------

  /** `tests.filter(t => t.id !== testId)` */
  function RemoveId(tests: seq<Report>, id: string): (r: seq<Report>)
    ensures |r| <= |tests|
    ensures forall t :: t in r <==> t in tests && t.id != id
  {
    if tests == [] then []
    else (if tests[0].id == id then [] else [tests[0]]) + RemoveId(tests[1..], id)
  }

  /** The filter keeps the other entries in their order. */
  lemma {:induction false} RemoveIdAppend(a: seq<Report>, b: seq<Report>, id: string)
    ensures RemoveId(a + b, id) == RemoveId(a, id) + RemoveId(b, id)
  {
    if a == [] {
      assert a + b == b;
    } else {
      assert (a + b)[0] == a[0] && (a + b)[1..] == a[1..] + b;
      RemoveIdAppend(a[1..], b, id);
    }
  }

  /** With no entry of that id the list is unchanged. */
  lemma {:induction false} RemoveAbsentId(tests: seq<Report>, id: string)
    requires forall i :: 0 <= i < |tests| ==> tests[i].id != id
    ensures RemoveId(tests, id) == tests
  {
    if tests != [] {
      RemoveAbsentId(tests[1..], id);
    }
  }

  /**
   * `deleteReport(testId, ...)`: what is written to tests.json, or None
   * when nothing is (not confirmed, no file, or no entry with that id).
   * `stored` is the parsed file, None when it is missing.
   */
  function DeleteReport(confirmed: bool, stored: Option<seq<Report>>, id: string): (r: Option<seq<Report>>)
    ensures r.Some? <==> confirmed && stored.Some? && exists i :: 0 <= i < |stored.value| && stored.value[i].id == id
    ensures r.Some? ==> |r.value| < |stored.value|
    ensures r.Some? ==> forall t :: t in r.value <==> t in stored.value && t.id != id
  {
    if !confirmed || stored.None? then None
    else if exists i :: 0 <= i < |stored.value| && stored.value[i].id == id then
      var i :| 0 <= i < |stored.value| && stored.value[i].id == id;
      RemoveDrops(stored.value, id, i);
      Some(RemoveId(stored.value, id))
    else None
  }

  /** Removing an id that occurs makes the list shorter. */
  lemma {:induction false} RemoveDrops(tests: seq<Report>, id: string, i: nat)
    requires i < |tests| && tests[i].id == id
    ensures |RemoveId(tests, id)| < |tests|
  {
    if i > 0 {
      RemoveDrops(tests[1..], id, i - 1);
    }
  }
}
