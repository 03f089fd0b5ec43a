/** The extra processing `run_plugin` applies to every result table
    (web/views.py:607-648): a leading `#` column with a 1-based row counter,
    and a trailing action link for the hive list plugins and for malfind;
    then the parsing of imageinfo's text output (web/views.py:652-661). */
module Normalise {
  import opened PyStr
  import opened Tables

  /** `plugin_row['plugin_name'] in ['hivelist', 'hivescan']`: the stored
      name, not its lower-case form. */
  predicate HasHiveLinks(rawName: string)
  {
    rawName == "hivelist" || rawName == "hivescan"
  }

  predicate HasMalfindLinks(rawName: string)
  {
    rawName == "malfind"
  }

  /** The columns after normalisation, or None when `results['columns'][0]`
      raises on an empty column list. */
  function NormalColumns(rawName: string, columns: seq<string>): (r: Option<seq<string>>)
    ensures r.None? <==> columns == []
    ensures r.Some? ==> |r.value| == |columns| + (if columns[0] != "#" then 1 else 0)
                                     + (if HasHiveLinks(rawName) then 1 else 0)
                                     + (if HasMalfindLinks(rawName) then 1 else 0)
    ensures r.Some? ==> r.value[0] == "#"
    // The `#` column is inserted only when the first column is not already `#`.
    ensures r.Some? && columns[0] != "#" ==> r.value[1..|columns| + 1] == columns
    ensures r.Some? && columns[0] == "#" ==> r.value[..|columns|] == columns
    ensures r.Some? && HasHiveLinks(rawName) ==> r.value[|r.value| - 1] == "Extract Keys"
    ensures r.Some? && HasMalfindLinks(rawName) ==> r.value[|r.value| - 1] == "Extract Injected Code"
  {
    if columns == [] then None
    else
      var withId := if columns[0] != "#" then ["#"] + columns else columns;
      var withHive := if HasHiveLinks(rawName) then withId + ["Extract Keys"] else withId;
      Some(if HasMalfindLinks(rawName) then withHive + ["Extract Injected Code"] else withHive)
  }

  /** Normalising the columns a second time leaves `#` where it is: only the
      action columns are appended again. */
  lemma HashColumnOnce(rawName: string, columns: seq<string>)
    requires columns != [] && !HasHiveLinks(rawName) && !HasMalfindLinks(rawName)
    ensures NormalColumns(rawName, NormalColumns(rawName, columns).value) == NormalColumns(rawName, columns)
  {
  }

  /** Whether a row gets the counter: memdump rows only with 3 cells and
      dumpfiles rows only with 4 (rows reused from an earlier run already
      carry theirs); every other plugin's rows always. */
  predicate Numbered(name: string, row: seq<Cell>)
  {
    if name == "memdump" then |row| == 3
    else if name == "dumpfiles" then |row| == 4
    else true
  }

  const LINK_HEAD: string := "<a class=\"text-success\" href=\"#\" onclick=\"ajaxHandler('"
  const LINK_ARGS: string := "', {'plugin_id':'"
  const LINK_ROW: string := "', 'rowid':'"
  const LINK_TAIL: string := "'}, true )\"; return false>"

  /** The action link of row `counter` of plugin record `pluginId`. */
  function ActionLink(action: string, caption: string, pluginId: nat, counter: nat): string
  {
    LINK_HEAD + action + LINK_ARGS + Decimal(pluginId) + LINK_ROW + Decimal(counter) + LINK_TAIL + caption + "</a>"
  }

  /** Row `counter` (1-based) after normalisation; `name` is the lower-case
      plugin name, `rawName` the stored one. */
  function NumberedRow(rawName: string, name: string, pluginId: nat, row: seq<Cell>, counter: nat): (r: seq<Cell>)
    ensures var n := if Numbered(name, row) then 1 else 0;
      && |r| == n + |row| + (if HasHiveLinks(rawName) then 1 else 0) + (if HasMalfindLinks(rawName) then 1 else 0)
      && r[n..n + |row|] == row
      && (Numbered(name, row) ==> r[0] == Num(counter))
    ensures HasHiveLinks(rawName) ==> r[|r| - 1] == Text(ActionLink("hivedetails", "View Hive Keys", pluginId, counter))
    ensures HasMalfindLinks(rawName) ==> r[|r| - 1] == Text(ActionLink("malfind_export", "Extract Injected", pluginId, counter))
  {
    var withId := if Numbered(name, row) then [Num(counter)] + row else row;
    var withHive := if HasHiveLinks(rawName) then withId + [Text(ActionLink("hivedetails", "View Hive Keys", pluginId, counter))] else withId;
    if HasMalfindLinks(rawName) then withHive + [Text(ActionLink("malfind_export", "Extract Injected", pluginId, counter))] else withHive
  }

  /** The rows after normalisation: the k-th row (from 0) is numbered k + 1. */
  function NumberedRows(rawName: string, name: string, pluginId: nat, rows: seq<seq<Cell>>): (r: seq<seq<Cell>>)
    ensures |r| == |rows|
    ensures forall k :: 0 <= k < |rows| ==> r[k] == NumberedRow(rawName, name, pluginId, rows[k], k + 1)
  {
    seq(|rows|, k requires 0 <= k < |rows| => NumberedRow(rawName, name, pluginId, rows[k], k + 1))
  }

  /** The loop of web/views.py:626-648: each row is updated in place and the
      counter advanced. */
  method NumberRows(rawName: string, name: string, pluginId: nat, rows: seq<seq<Cell>>) returns (out: seq<seq<Cell>>)
    ensures out == NumberedRows(rawName, name, pluginId, rows)
  {
    out := rows;
    var counter := 1;
    var i := 0;
    while i < |out|
      invariant 0 <= i <= |out| == |rows| && counter == i + 1
      invariant forall k :: 0 <= k < i ==> out[k] == NumberedRow(rawName, name, pluginId, rows[k], k + 1)
      invariant forall k :: i <= k < |out| ==> out[k] == rows[k]
    {
      var row := out[i];
      assert row == rows[i];
      if name == "memdump" {
        if |row| == 3 {
          row := [Num(counter)] + row;
        }
      } else if name == "dumpfiles" {
        if |row| == 4 {
          row := [Num(counter)] + row;
        }
      } else {
        row := [Num(counter)] + row;
      }
      if HasHiveLinks(rawName) {
        row := row + [Text(ActionLink("hivedetails", "View Hive Keys", pluginId, counter))];
      }
      if HasMalfindLinks(rawName) {
        row := row + [Text(ActionLink("malfind_export", "Extract Injected", pluginId, counter))];
      }
      out := out[i := row];
      counter := counter + 1;
      i := i + 1;
    }
  }

  /** The table after normalisation, or None when the column lookup raises. */
  function NormalTable(rawName: string, name: string, pluginId: nat, t: Table): (r: Option<Table>)
    ensures r.None? <==> t.columns == []
  {
    match NormalColumns(rawName, t.columns)
    case None => None
    case Some(columns) => Some(Table(columns, NumberedRows(rawName, name, pluginId, t.rows)))
  }

  /** A memdump or dumpfiles row that was numbered once keeps its number
      when the table is normalised again, so the rows an earlier run left in
      the stored output are not renumbered. */
  lemma NumberKeptOnRerun(rawName: string, name: string, pluginId: nat, row: seq<Cell>, k: nat, k': nat)
    requires name == "memdump" || name == "dumpfiles"
    requires Numbered(name, row)
    ensures var once := NumberedRow(rawName, name, pluginId, row, k);
      !Numbered(name, once) && NumberedRow(rawName, name, pluginId, once, k')[..|once|] == once
  {
  }

  // ---------------------------------------------------------------------
  // imageinfo

  /** A line of imageinfo's text of the form `key : value`, with exactly
      one separator, gives its stripped key and value; any other line raises
      a ValueError in the unpacking, which the loop catches. */
  function ParseEntry(line: string): Option<(string, string)>
  {
    var parts := Split(line, " : ");
    if |parts| == 2 then Some((Strip(parts[0]), Strip(parts[1]))) else None
  }

  /** The dictionary built from the lines in order: later entries win, lines
      that do not parse are skipped. */
  function Collect(parse: string -> Option<(string, string)>, lines: seq<string>): map<string, string>
  {
    if lines == [] then map[]
    else
      var pre := Collect(parse, lines[..|lines| - 1]);
      match parse(lines[|lines| - 1])
      case None => pre
      case Some((key, value)) => pre[key := value]
  }

  function ImageInfoOf(lines: seq<string>): map<string, string>
  {
    Collect(ParseEntry, lines)
  }

  /** The parsing loop of web/views.py:655-661 over the lines of the text. */
  method ParseImageInfo(text: string) returns (info: map<string, string>)
    ensures info == ImageInfoOf(Split(text, "\n"))
  {
    info := map[];
    var lines := Split(text, "\n");
    var i := 0;
    while i < |lines|
      invariant 0 <= i <= |lines|
      invariant info == Collect(ParseEntry, lines[..i])
    {
      assert lines[..i + 1][..i] == lines[..i];
      var parts := Split(lines[i], " : ");
      if |parts| == 2 {
        info := info[Strip(parts[0]) := Strip(parts[1])];
      }
      i := i + 1;
    }
    assert lines[..i] == lines;
  }

  /** Whether the line parses to an entry for `key`. */
  predicate Names(parse: string -> Option<(string, string)>, line: string, key: string)
  {
    parse(line).Some? && parse(line).value.0 == key
  }

  /** A key is in the dictionary exactly when some line parses to an entry
      for it. */
  lemma {:induction false} CollectKeys(parse: string -> Option<(string, string)>, lines: seq<string>, key: string)
    ensures key in Collect(parse, lines) <==> exists k :: 0 <= k < |lines| && Names(parse, lines[k], key)
  {
    if lines != [] {
      var n := |lines| - 1;
      var init := lines[..n];
      CollectKeys(parse, init, key);
      if Names(parse, lines[n], key) {
        assert key in Collect(parse, lines);
      } else {
        assert key in Collect(parse, lines) <==> key in Collect(parse, init);
        if exists k :: 0 <= k < |lines| && Names(parse, lines[k], key) {
          var k :| 0 <= k < |lines| && Names(parse, lines[k], key);
          assert k < n && init[k] == lines[k];
        }
        if key in Collect(parse, init) {
          var k :| 0 <= k < |init| && Names(parse, init[k], key);
          assert lines[k] == init[k];
        }
      }
    }
  }

  /** The value of a key is the value of the last line that names it. */
  lemma {:induction false} CollectLastWins(parse: string -> Option<(string, string)>, lines: seq<string>, k: nat)
    requires k < |lines| && parse(lines[k]).Some?
    requires forall j :: k < j < |lines| ==> !Names(parse, lines[j], parse(lines[k]).value.0)
    ensures var (key, value) := parse(lines[k]).value;
      key in Collect(parse, lines) && Collect(parse, lines)[key] == value
  {
    var n := |lines| - 1;
    var init := lines[..n];
    if k < n {
      assert init[k] == lines[k];
      forall j | k < j < |init|
        ensures !Names(parse, init[j], parse(init[k]).value.0)
      {
        assert init[j] == lines[j];
      }
      CollectLastWins(parse, init, k);
      assert !Names(parse, lines[n], parse(lines[k]).value.0);
    }
  }

  /** An imageinfo key is recorded exactly when some `key : value` line
      names it, with the value of the last such line. */
  lemma ImageInfoEntries(lines: seq<string>, key: string)
    ensures key in ImageInfoOf(lines) <==> exists k :: 0 <= k < |lines| && Names(ParseEntry, lines[k], key)
    ensures key in ImageInfoOf(lines) ==>
      exists k :: (0 <= k < |lines| && Names(ParseEntry, lines[k], key) &&
                   ImageInfoOf(lines)[key] == ParseEntry(lines[k]).value.1)
  {
    CollectKeys(ParseEntry, lines, key);
    if key in ImageInfoOf(lines) {
      var k :| (0 <= k < |lines| && Names(ParseEntry, lines[k], key) &&
                forall j :: k < j < |lines| ==> !Names(ParseEntry, lines[j], key)) by {
        LastNaming(ParseEntry, lines, key);
      }
      CollectLastWins(ParseEntry, lines, k);
    }
  }

  /** Some line names the key last. */
  lemma {:induction false} LastNaming(parse: string -> Option<(string, string)>, lines: seq<string>, key: string)
    requires exists k :: 0 <= k < |lines| && Names(parse, lines[k], key)
    ensures exists k :: (0 <= k < |lines| && Names(parse, lines[k], key) &&
                         forall j :: k < j < |lines| ==> !Names(parse, lines[j], key))
  {
    var n := |lines| - 1;
    if !Names(parse, lines[n], key) {
      var init := lines[..n];
      var k :| 0 <= k < |lines| && Names(parse, lines[k], key);
      assert k < n && init[k] == lines[k];
      LastNaming(parse, init, key);
      var m :| 0 <= m < |init| && Names(parse, init[m], key)
        && forall j :: m < j < |init| ==> !Names(parse, init[j], key);
      assert lines[m] == init[m];
      forall j | m < j < |lines|
        ensures !Names(parse, lines[j], key)
      {
        if j < n {
          assert lines[j] == init[j];
        }
      }
    }
  }
}
