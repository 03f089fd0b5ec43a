/** Reading results back out: the CSV download of a plugin's output
    (web/views.py:700-717) and the rows the pluginresults request returns
    (web/views.py:1491-1564). */
module Export {
  import opened PyStr
  import opened Tables
  import opened Session
  import opened Records

  /** `str(item)` for each item of a row. */
  function Texts(row: seq<Cell>): (r: seq<string>)
    ensures |r| == |row| && forall k :: 0 <= k < |row| ==> r[k] == CellText(row[k])
  {
    seq(|row|, k requires 0 <= k < |row| => CellText(row[k]))
  }

  // ---------------------------------------------------------------------
  // The CSV file as web/views.py:706-713 writes it

  /** A row as written: every item followed by a comma. */
  function RowAsWritten(row: seq<Cell>): string
    decreases |row|
  {
    if row == [] then [] else RowAsWritten(row[..|row| - 1]) + CellText(row[|row| - 1]) + ","
  }

  function BodyAsWritten(rows: seq<seq<Cell>>): string
    decreases |rows|
  {
    if rows == [] then [] else BodyAsWritten(rows[..|rows| - 1]) + RowAsWritten(rows[|rows| - 1]) + "\n"
  }

  function CsvAsWritten(t: Table): string
  {
    Join(t.columns, ",") + "\n" + BodyAsWritten(t.rows)
  }

  /** The loop of web/views.py:706-713; the stripped copy of each row is
      computed and dropped. */
  method BuildCsvAsWritten(t: Table) returns (data: string)
    ensures data == CsvAsWritten(t)
  {
    hide BodyAsWritten, RowAsWritten;
    NothingWritten();
    data := Join(t.columns, ",") + "\n";
    ghost var header := data;
    for i := 0 to |t.rows|
      invariant data == header + BodyAsWritten(t.rows[..i])
    {
      var row := t.rows[i];
      ghost var before := data;
      for j := 0 to |row|
        invariant data == before + RowAsWritten(row[..j])
      {
        ItemWrittenStep(row, j);
        data := data + CellText(row[j]) + ",";
      }
      assert row[..|row|] == row;
      var _ := RStrip(data, ",");
      RowWrittenStep(t.rows, i);
      data := data + "\n";
    }
    assert t.rows[..|t.rows|] == t.rows;
  }

  lemma NothingWritten()
    ensures forall row: seq<Cell> :: RowAsWritten(row[..0]) == []
    ensures forall rows: seq<seq<Cell>> :: BodyAsWritten(rows[..0]) == [] && Body(rows[..0]) == []
  {
    forall row: seq<Cell> ensures RowAsWritten(row[..0]) == [] { assert row[..0] == []; }
    forall rows: seq<seq<Cell>> ensures BodyAsWritten(rows[..0]) == [] && Body(rows[..0]) == [] { assert rows[..0] == []; }
  }

  /** One more item of a row, as written. */
  lemma ItemWrittenStep(row: seq<Cell>, j: nat)
    requires j < |row|
    ensures RowAsWritten(row[..j + 1]) == RowAsWritten(row[..j]) + CellText(row[j]) + ","
  {
    assert row[..j + 1][..j] == row[..j];
  }

  /** One more row, as written. */
  lemma RowWrittenStep(rows: seq<seq<Cell>>, i: nat)
    requires i < |rows|
    ensures BodyAsWritten(rows[..i + 1]) == BodyAsWritten(rows[..i]) + RowAsWritten(rows[i]) + "\n"
  {
    assert rows[..i + 1][..i] == rows[..i];
  }

  // ---------------------------------------------------------------------
  // The CSV file as intended: each row joined by commas, like the header

  function RowLine(row: seq<Cell>): string
  {
    Join(Texts(row), ",")
  }

  function Body(rows: seq<seq<Cell>>): string
    decreases |rows|
  {
    if rows == [] then [] else Body(rows[..|rows| - 1]) + RowLine(rows[|rows| - 1]) + "\n"
  }

  function Csv(t: Table): string
  {
    Join(t.columns, ",") + "\n" + Body(t.rows)
  }

  /** The download loop with each row written as its items joined by commas. */
  method BuildCsv(t: Table) returns (data: string)
    ensures data == Csv(t)
  {
    hide Body, RowLine, Join;
    NothingWritten();
    data := Join(t.columns, ",") + "\n";
    ghost var header := data;
    for i := 0 to |t.rows|
      invariant data == header + Body(t.rows[..i])
    {
      BodyStep(t.rows, i);
      data := data + RowLine(t.rows[i]) + "\n";
    }
    assert t.rows[..|t.rows|] == t.rows;
  }

  /** One more row, as intended. */
  lemma BodyStep(rows: seq<seq<Cell>>, i: nat)
    requires i < |rows|
    ensures Body(rows[..i + 1]) == Body(rows[..i]) + RowLine(rows[i]) + "\n"
  {
    assert rows[..i + 1][..i] == rows[..i];
  }

  /** As written, a non-empty row is the intended line with one comma more. */
  lemma {:induction false} TrailingComma(row: seq<Cell>)
    requires |row| >= 1
    ensures RowAsWritten(row) == RowLine(row) + ","
    decreases |row|
  {
    var n := |row| - 1;
    var init := row[..n];
    assert Texts(row) == Texts(init) + [CellText(row[n])];
    if n == 0 {
      JoinSteps(Texts(row), ",");
    } else {
      TrailingComma(init);
      JoinSnoc(Texts(init), CellText(row[n]), ",");
    }
  }

  /** So a reader splitting a written row on commas finds one empty field
      more than the row has items. */
  lemma ExtraField(row: seq<Cell>)
    requires |row| >= 1
    requires forall k :: 0 <= k < |row| ==> ',' !in CellText(row[k])
    ensures Split(RowAsWritten(row), ",") == Texts(row) + [""]
  {
    hide Join, RowAsWritten, Split, SplitFrom;
    var ts := Texts(row) + [""];
    forall k | 0 <= k < |ts| ensures ',' !in ts[k] {
      if k < |row| {
        assert ts[k] == CellText(row[k]);
      }
    }
    SplitJoin(ts, ',');
    TrailingComma(row);
    JoinSnoc(Texts(row), "", ",");
    assert RowAsWritten(row) == Join(ts, ",");
  }

  /** The single-cell table `a` / `x` comes out as "a\nx,\n" instead of "a\nx\n". */
  lemma CsvTrailingCommaExample()
    ensures CsvAsWritten(Table(["a"], [[Text("x")]])) == "a\nx,\n"
    ensures Csv(Table(["a"], [[Text("x")]])) == "a\nx\n"
  {
    var rows := [[Text("x")]];
    assert rows[..0] == [] && rows[..0] == [];
    assert [Text("x")][..0] == [];
    assert Texts([Text("x")]) == ["x"];
  }

  /** Splitting an intended row line on commas gives back the row's items
      when none of them contains a comma. */
  lemma RowLineRoundTrip(row: seq<Cell>)
    requires |row| >= 1
    requires forall k :: 0 <= k < |row| ==> ',' !in CellText(row[k])
    ensures Split(RowLine(row), ",") == Texts(row)
  {
    SplitJoin(Texts(row), ',');
  }

  /** The intended lines of the rows. */
  function Lines(rows: seq<seq<Cell>>): (r: seq<string>)
    ensures |r| == |rows| && forall k :: 0 <= k < |rows| ==> r[k] == RowLine(rows[k])
  {
    seq(|rows|, k requires 0 <= k < |rows| => RowLine(rows[k]))
  }

  /** The intended file is the header line and one line per row, each ended
      by a newline. */
  lemma {:induction false} CsvIsLines(header: string, rows: seq<seq<Cell>>)
    ensures header + "\n" + Body(rows) == Join([header] + Lines(rows), "\n") + "\n"
    decreases |rows|
  {
    hide Join, RowLine, Lines;
    if rows == [] {
      assert [header] + Lines(rows) == [header];
      JoinSteps([header], "\n");
    } else {
      var n := |rows| - 1;
      CsvIsLines(header, rows[..n]);
      assert [header] + Lines(rows) == [header] + Lines(rows[..n]) + [RowLine(rows[n])];
      JoinSnoc([header] + Lines(rows[..n]), RowLine(rows[n]), "\n");
    }
  }

  /** Splitting the intended file on newlines gives the header line, one
      line per row, and the empty rest after the last newline, when no column
      name or item contains a newline. */
  lemma CsvLines(t: Table)
    requires forall k :: 0 <= k < |t.columns| ==> '\n' !in t.columns[k]
    requires forall i, k :: 0 <= i < |t.rows| && 0 <= k < |t.rows[i]| ==> '\n' !in CellText(t.rows[i][k])
    ensures Split(Csv(t), "\n") == [Join(t.columns, ",")] + Lines(t.rows) + [""]
  {
    var header := Join(t.columns, ",");
    var parts := [header] + Lines(t.rows);
    CsvIsLines(header, t.rows);
    JoinSnoc(parts, "", "\n");
    assert Csv(t) == Join(parts + [""], "\n");
    NotInJoin(t.columns, ",", '\n');
    forall i | 0 <= i < |t.rows| ensures '\n' !in RowLine(t.rows[i]) {
      NotInJoin(Texts(t.rows[i]), ",", '\n');
    }
    SplitJoin(parts + [""], '\n');
  }

  datatype Download = DownloadRaised | Attachment(fileName: string, data: string)

  /** file_download for a plugin: the output as `<plugin name>.csv`, as
      web/views.py:706-713 writes it (every row with a trailing comma); an
      unknown id or a plugin without output raises. */
  method PluginCsv(plugins: PluginCollection, objectId: string) returns (d: Download)
    ensures var id := ObjectIdOf(objectId);
      if id.None? || id.value >= |plugins.records| || plugins.records[id.value].output.None? then d == DownloadRaised
      else
        var r := plugins.records[id.value];
        d == Attachment(r.name + ".csv", CsvAsWritten(r.output.value))
  {
    var id := ObjectIdOf(objectId);
    if id.None? || id.value >= |plugins.records| || plugins.records[id.value].output.None? {
      return DownloadRaised;
    }
    var r := plugins.records[id.value];
    var data := BuildCsvAsWritten(r.output.value);
    d := Attachment(r.name + ".csv", data);
  }

  /** The same download with the rows written as intended: each row's items
      joined by commas. */
  method FixedPluginCsv(plugins: PluginCollection, objectId: string) returns (d: Download)
    ensures var id := ObjectIdOf(objectId);
      if id.None? || id.value >= |plugins.records| || plugins.records[id.value].output.None? then d == DownloadRaised
      else
        var r := plugins.records[id.value];
        d == Attachment(r.name + ".csv", Csv(r.output.value))
  {
    var id := ObjectIdOf(objectId);
    if id.None? || id.value >= |plugins.records| || plugins.records[id.value].output.None? {
      return DownloadRaised;
    }
    var r := plugins.records[id.value];
    var data := BuildCsv(r.output.value);
    d := Attachment(r.name + ".csv", data);
  }

  // ---------------------------------------------------------------------
  // pluginresults (web/views.py:1491-1564)

  /** `start` and `length` as pluginresults reads them: 0 and 25 when absent;
      None when `int()` raises. */
  function Window(post: Post): Option<(int, int)>
  {
    var start := if "start" in post then ParseInt(post["start"]) else Some(0);
    var length := if "length" in post then ParseInt(post["length"]) else Some(25);
    if start.None? || length.None? then None else Some((start.value, length.value))
  }

  /** `output[start:start+length]`, the rows a datatables page shows. */
  method PageRows(output: seq<seq<Cell>>, start: int, length: int) returns (paged: seq<seq<Cell>>)
    ensures paged == Slice(output, start, start + length)
  {
    paged := [];
    var lo, hi := Bound(start, |output|), Bound(start + length, |output|);
    if lo < hi {
      for k := lo to hi
        invariant paged == output[lo..k]
      {
        paged := paged + [output[k]];
      }
    }
  }

  /** The rows whose lower-cased text contains `term`, in order. */
  function Matching(rows: seq<seq<Cell>>, term: string, repr: seq<Cell> -> string): (r: seq<seq<Cell>>)
    ensures |r| <= |rows|
    decreases |rows|
  {
    if rows == [] then []
    else
      var last := rows[|rows| - 1];
      Matching(rows[..|rows| - 1], term, repr) + (if Contains(Lower(repr(last)), term) then [last] else [])
  }

  /** The rows a search keeps: without a `search[value]` field, none. */
  function Searched(post: Post, rows: seq<seq<Cell>>, repr: seq<Cell> -> string): seq<seq<Cell>>
  {
    if "search[value]" in post then Matching(rows, Lower(post["search[value]"]), repr) else []
  }

  /** A row is kept by the search exactly when its lower-cased text contains
      the lower-cased term. */
  lemma {:induction false} MatchingExactly(rows: seq<seq<Cell>>, term: string, repr: seq<Cell> -> string)
    ensures forall row :: row in Matching(rows, term, repr) <==> row in rows && Contains(Lower(repr(row)), term)
    decreases |rows|
  {
    if rows != [] {
      var init := rows[..|rows| - 1];
      MatchingExactly(init, term, repr);
      assert rows == init + [rows[|rows| - 1]];
    }
  }

  /** An empty search keeps every row, in order. */
  lemma {:induction false} EmptySearchKeepsAll(rows: seq<seq<Cell>>, repr: seq<Cell> -> string)
    ensures Matching(rows, "", repr) == rows
    decreases |rows|
  {
    if rows != [] {
      EmptySearchKeepsAll(rows[..|rows| - 1], repr);
      assert [] <= Lower(repr(rows[|rows| - 1]));
      assert rows == rows[..|rows| - 1] + [rows[|rows| - 1]];
    }
  }

  datatype Results =
    | ResultsRaised
    | NoPluginId
    | DataTables(total: nat, filtered: nat, data: seq<seq<Cell>>)
    | FirstRows(rows: seq<seq<Cell>>, total: nat, bookmarks: seq<int>)

  /** Whether the datatables sort fields are there and `int()` accepts the
      column index. */
  predicate SortReadable(post: Post)
  {
    && "order[0][column]" in post && ParseInt(post["order[0][column]"]).Some?
    && "order[0][dir]" in post && "draw" in post
  }

  /** Whether `x[col]` reads a cell of every row: Python accepts the
      indices from `-len(x)` to `len(x) - 1`. */
  predicate ColumnIn(rows: seq<seq<Cell>>, col: int)
  {
    forall k :: 0 <= k < |rows| ==> -|rows[k]| <= col < |rows[k]|
  }

  /** pluginresults. `repr` is `str(row)`; `sorted` is the column sort (by
      the integer value of the column when every row has one, else by its
      lower-cased text), given the column index and whether it is reversed;
      like Python's `sorted` it returns a permutation of the rows. A column
      index that misses some row raises in both sort attempts. */
  method PluginResults(plugins: PluginCollection, post: Post, repr: seq<Cell> -> string,
                       sorted: (seq<seq<Cell>>, int, bool) -> seq<seq<Cell>>)
    returns (r: Results)
    requires forall rs, c, d :: multiset(sorted(rs, c, d)) == multiset(rs)
    ensures Window(post).None? ==> r == ResultsRaised
    ensures Window(post).Some? && "plugin_id" !in post ==> r == NoPluginId
    ensures Window(post).Some? && "plugin_id" in post ==>
      var (start, length) := Window(post).value;
      var id := ObjectIdOf(post["plugin_id"]);
      if id.None? || id.value >= |plugins.records| || plugins.records[id.value].output.None? then r == ResultsRaised
      else
        var rows := plugins.records[id.value].output.value.rows;
        if "pagination" in post then
          var found := Searched(post, rows, repr);
          if !SortReadable(post) || !ColumnIn(found, ParseInt(post["order[0][column]"]).value) then r == ResultsRaised
          else
            var output := sorted(found, ParseInt(post["order[0][column]"]).value, post["order[0][dir]"] != "asc");
            && multiset(output) == multiset(found)
            && r == DataTables(|rows|, |found|, Slice(output, start, start + length))
        else
          r == FirstRows(Slice(rows, start, length), |rows|, CurrentBookmarks(plugins.records, id.value))
  {
    var window := Window(post);
    if window.None? {
      return ResultsRaised;
    }
    var (start, length) := window.value;
    if "plugin_id" !in post {
      return NoPluginId;
    }
    var id := ObjectIdOf(post["plugin_id"]);
    if id.None? || id.value >= |plugins.records| || plugins.records[id.value].output.None? {
      return ResultsRaised;
    }
    var rows := plugins.records[id.value].output.value.rows;
    var bookmarks := CurrentBookmarks(plugins.records, id.value);
    if "pagination" in post {
      var found := Searched(post, rows, repr);
      if !SortReadable(post) {
        return ResultsRaised;
      }
      var column := ParseInt(post["order[0][column]"]).value;
      if !ColumnIn(found, column) {
        return ResultsRaised;
      }
      var output := sorted(found, column, post["order[0][dir]"] != "asc");
      assert |output| == |multiset(output)| == |multiset(found)| == |found|;
      var paged := PageRows(output, start, length);
      r := DataTables(|rows|, |output|, paged);
    } else {
      r := FirstRows(Slice(rows, start, length), |rows|, bookmarks);
    }
  }

  /** A datatables page holds at most `length` rows, and they are the
      output's rows from `start` on. */
  lemma PageWithin(output: seq<seq<Cell>>, start: nat, length: nat)
    ensures |Slice(output, start, start + length)| <= length
    ensures start + length <= |output| ==> Slice(output, start, start + length) == output[start..start + length]
    ensures start <= |output| < start + length ==> Slice(output, start, start + length) == output[start..]
    ensures |output| < start ==> Slice(output, start, start + length) == []
  {
  }

  /** Consecutive datatables pages follow on from each other without a gap
      or an overlap. */
  lemma PagesTile(output: seq<seq<Cell>>, start: nat, length: nat)
    ensures Slice(output, start, start + length) + Slice(output, start + length, start + 2 * length)
         == Slice(output, start, start + 2 * length)
  {
    var n := |output|;
    if start + length < n {
      assert output[start..start + length] + output[start + length..Bound(start + 2 * length, n)]
          == output[start..Bound(start + 2 * length, n)];
    }
  }

  /** The plain view `rows[start:length]` is the first page of the datatables
      view when `start` is 0, the default, and is empty once `start` reaches
      `length`: with 50 rows, start 25 and length 25 it shows nothing where
      the datatables view shows rows 25 to 49. In between, when
      `0 < start < length`, it is shorter than a full page. */
  lemma PlainViewWindow(rows: seq<seq<Cell>>, start: nat, length: nat)
    ensures start == 0 ==> Slice(rows, start, length) == Slice(rows, start, start + length)
    ensures length <= start ==> Slice(rows, start, length) == []
    ensures |rows| == 50 && start == 25 && length == 25 ==> |Slice(rows, start, start + length)| == 25
    ensures 0 < start < length && start + length <= |rows| ==>
      |Slice(rows, start, length)| == length - start < length == |Slice(rows, start, start + length)|
  {
  }
}
