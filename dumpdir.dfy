/** Post-processing of a plugin run that used a scratch (dump) directory
    (web/views.py:460-600): the files the engine left there are stored as
    artifacts and the result table is extended or rebuilt, depending on the
    kind of plugin. Each kind is a strategy for one item (a file name, a row
    or a text segment), applied to the items in order by one loop that
    stores each item's files and stops at the first exception. */
module DumpDir {
  import opened PyStr
  import opened Common
  import opened Tables

  /** `hashlib.sha256(data).hexdigest()`, left uninterpreted. */
  type Hasher = Bytes -> string

  /** The scratch directory as `os.listdir` and `open(...).read()` see it:
      the names in listing order and each file's bytes. */
  datatype Listing = Listing(names: seq<string>, contents: map<string, Bytes>)

  /** `os.listdir` lists every file of the directory once. */
  predicate ValidListing(l: Listing)
  {
    && (forall k :: 0 <= k < |l.names| ==> l.names[k] in l.contents)
    && (forall f :: f in l.contents ==> f in l.names)
    && (forall i, j :: 0 <= i < j < |l.names| ==> l.names[i] != l.names[j])
  }

  /** The kinds of plugin that write to the dump directory, by `plugin_name`. */
  datatype Kind = FileCarver | NamedDumper | HiveDumper | CertDumper | RegionDumper | NoDump

  function KindOf(name: string): Kind
  {
    if name == "dumpfiles" then FileCarver
    else if name == "procdump" || name == "dlldump" then NamedDumper
    else if name == "dumpregistry" then HiveDumper
    else if name == "dumpcerts" then CertDumper
    else if name == "memdump" then RegionDumper
    else NoDump
  }

  /** Rows produced, files stored (in order), and whether an exception ended
      the work; the rows of an extraction that raised are never used. */
  datatype Extracted = Extracted(rows: seq<seq<Cell>>, stored: seq<StoredFile>, raised: bool)

  /** What one file of the directory becomes in the file store. */
  function Stored(l: Listing, f: string, sess: nat, hash: Hasher): StoredFile
    requires f in l.contents
  {
    StoredFile(l.contents[f], sess, hash(l.contents[f]), f)
  }

  /** A cell holding the link to some stored file. */
  ghost predicate IsLink(c: Cell)
  {
    exists id: nat :: c == Text(FileLink(id))
  }

  // ---------------------------------------------------------------------
  // The extraction loop

  /** The loop over the items (the listing, the result rows or the text
      segments), each given the id the file store assigns to its file next;
      the first exception stops it. Defined from the last item back, as the
      loop builds it. */
  function ExtractAll<X>(item: (X, nat) -> Extracted, xs: seq<X>, id: nat): Extracted
    decreases |xs|
  {
    if xs == [] then Extracted([], [], false)
    else
      var pre := ExtractAll(item, xs[..|xs| - 1], id);
      if pre.raised then pre
      else
        var last := item(xs[|xs| - 1], id + |pre.stored|);
        Extracted(pre.rows + last.rows, pre.stored + last.stored, last.raised)
  }

  /** Once an item raises, the items after it are never reached. */
  lemma {:induction false} StopAtRaise<X>(item: (X, nat) -> Extracted, xs: seq<X>, i: nat, id: nat)
    requires i <= |xs| && ExtractAll(item, xs[..i], id).raised
    ensures ExtractAll(item, xs, id) == ExtractAll(item, xs[..i], id)
    decreases |xs| - i
  {
    if i < |xs| {
      assert xs[..i + 1][..i] == xs[..i];
      StopAtRaise(item, xs, i + 1, id);
    } else {
      assert xs[..i] == xs;
    }
  }

  /** The items `keep` selects, in order. */
  function Filter<X>(keep: X -> bool, xs: seq<X>): (r: seq<X>)
    ensures |r| <= |xs|
    decreases |xs|
  {
    if xs == [] then []
    else Filter(keep, xs[..|xs| - 1]) + (if keep(xs[|xs| - 1]) then [xs[|xs| - 1]] else [])
  }

  lemma {:induction false} FilterAll<X>(keep: X -> bool, xs: seq<X>)
    requires forall k :: 0 <= k < |xs| ==> keep(xs[k])
    ensures Filter(keep, xs) == xs
    decreases |xs|
  {
    if xs != [] {
      var init := xs[..|xs| - 1];
      forall k | 0 <= k < |init|
        ensures keep(init[k])
      {
        assert init[k] == xs[k];
      }
      FilterAll(keep, init);
      assert xs == init + [xs[|xs| - 1]];
    }
  }

  /** The loop for items that each either add nothing (not `keep`), raise
      (kept but not `ok`) or add one row related to it by `shape`: it raises
      exactly when some kept item is not ok, and otherwise yields one row per
      kept item, in order. */
  lemma {:induction false} ExtractEach<X>(item: (X, nat) -> Extracted, keep: X -> bool, ok: X -> bool,
                                          shape: (X, seq<Cell>) -> bool, xs: seq<X>, id: nat)
    requires forall x: X, i: nat :: !keep(x) ==> item(x, i) == Extracted([], [], false)
    requires forall x: X, i: nat :: keep(x) ==> (item(x, i).raised <==> !ok(x))
    requires forall x: X, i: nat :: keep(x) && ok(x) ==> |item(x, i).rows| == 1 && shape(x, item(x, i).rows[0])
    ensures var e := ExtractAll(item, xs, id);
      var kept := Filter(keep, xs);
      && (e.raised <==> exists k :: 0 <= k < |kept| && !ok(kept[k]))
      && (!e.raised ==> |e.rows| == |kept| && forall k :: 0 <= k < |kept| ==> shape(kept[k], e.rows[k]))
    decreases |xs|
  {
    if xs != [] {
      var n := |xs| - 1;
      var init, x := xs[..n], xs[n];
      ExtractEach(item, keep, ok, shape, init, id);
      var pre := ExtractAll(item, init, id);
      var e := ExtractAll(item, xs, id);
      var preKept := Filter(keep, init);
      var kept := Filter(keep, xs);
      assert kept == preKept + (if keep(x) then [x] else []);
      if pre.raised {
        assert e == pre;
        var k :| 0 <= k < |preKept| && !ok(preKept[k]);
        assert kept[k] == preKept[k];
        assert 0 <= k < |kept| && !ok(kept[k]);
        assert e.raised;
        assert exists k :: 0 <= k < |Filter(keep, xs)| && !ok(Filter(keep, xs)[k]);
      } else {
        var last := item(x, id + |pre.stored|);
        assert e == Extracted(pre.rows + last.rows, pre.stored + last.stored, last.raised);
        if !keep(x) {
          assert kept == preKept && e.rows == pre.rows && !e.raised;
        } else {
          assert forall k :: 0 <= k < |preKept| ==> kept[k] == preKept[k];
          if exists k :: 0 <= k < |Filter(keep, xs)| && !ok(Filter(keep, xs)[k]) {
            var k :| 0 <= k < |kept| && !ok(kept[k]);
            assert k == |preKept|;
            assert kept[k] == x;
          }
          if e.raised {
            assert last.raised && !ok(x);
            assert kept[|preKept|] == x;
            assert 0 <= |preKept| < |kept| && !ok(kept[|preKept|]);
            assert exists k :: 0 <= k < |Filter(keep, xs)| && !ok(Filter(keep, xs)[k]);
          } else {
            assert |e.rows| == |kept|;
            forall k | 0 <= k < |kept|
              ensures shape(kept[k], e.rows[k])
            {
              if k < |preKept| {
                assert kept[k] == preKept[k] && e.rows[k] == pre.rows[k];
              } else {
                assert kept[k] == x && e.rows[k] == last.rows[0];
              }
            }
          }
        }
      }
    }
  }

  /** The loop for items that each store one file and add one row: the k-th
      item's row is given the k-th id. */
  lemma {:induction false} ExtractOneEach<X>(item: (X, nat) -> Extracted, ok: X -> bool, row: (X, nat) -> seq<Cell>,
                                             file: X --> StoredFile, xs: seq<X>, id: nat)
    requires forall x: X :: ok(x) ==> file.requires(x)
    requires forall x: X, i: nat :: ok(x) ==> item(x, i) == Extracted([row(x, i)], [file(x)], false)
    requires forall k :: 0 <= k < |xs| ==> ok(xs[k])
    ensures var e := ExtractAll(item, xs, id);
      && !e.raised && |e.rows| == |xs| && |e.stored| == |xs|
      && forall k :: 0 <= k < |xs| ==> e.rows[k] == row(xs[k], id + k) && e.stored[k] == file(xs[k])
    decreases |xs|
  {
    if xs != [] {
      var n := |xs| - 1;
      var init := xs[..n];
      forall k | 0 <= k < |init|
        ensures ok(init[k])
      {
        assert init[k] == xs[k];
      }
      ExtractOneEach(item, ok, row, file, init, id);
      var pre := ExtractAll(item, init, id);
      var last := item(xs[n], id + n);
      var e := ExtractAll(item, xs, id);
      assert e == Extracted(pre.rows + last.rows, pre.stored + last.stored, false);
      forall k | 0 <= k < |xs|
        ensures e.rows[k] == row(xs[k], id + k) && e.stored[k] == file(xs[k])
      {
        if k < n {
          assert init[k] == xs[k] && e.rows[k] == pre.rows[k] && e.stored[k] == pre.stored[k];
        }
      }
    }
  }

  /** Writes the given files to the store, in order. */
  method StoreAll(store: FileStore, fs: seq<StoredFile>)
    modifies store
    ensures store.files == old(store.files) + fs && store.dropped == old(store.dropped)
  {
    var j := 0;
    while j < |fs|
      invariant 0 <= j <= |fs|
      invariant store.files == old(store.files) + fs[..j] && store.dropped == old(store.dropped)
    {
      var _ := store.Create(fs[j].data, fs[j].sessionId, fs[j].sha256, fs[j].filename);
      assert fs[..j + 1] == fs[..j] + [fs[j]];
      j := j + 1;
    }
    assert fs[..j] == fs;
  }

  /** The loop body the five kinds share: each item's files are stored, then
      its rows kept, until one raises. */
  method Extract<X>(store: FileStore, item: (X, nat) -> Extracted, xs: seq<X>)
    returns (rows: seq<seq<Cell>>, raised: bool)
    modifies store
    ensures var e := ExtractAll(item, xs, |old(store.files)|);
      rows == e.rows && raised == e.raised
      && store.files == old(store.files) + e.stored && store.dropped == old(store.dropped)
  {
    rows := [];
    ghost var id0 := |store.files|;
    ghost var stored: seq<StoredFile> := [];
    var i := 0;
    while i < |xs|
      invariant 0 <= i <= |xs|
      invariant store.files == old(store.files) + stored && store.dropped == old(store.dropped)
      invariant ExtractAll(item, xs[..i], id0) == Extracted(rows, stored, false)
    {
      var e := item(xs[i], |store.files|);
      assert xs[..i + 1][..i] == xs[..i];
      assert ExtractAll(item, xs[..i + 1], id0) == Extracted(rows + e.rows, stored + e.stored, e.raised);
      StoreAll(store, e.stored);
      stored := stored + e.stored;
      rows := rows + e.rows;
      i := i + 1;
      if e.raised {
        StopAtRaise(item, xs, i, id0);
        return rows, true;
      }
    }
    assert xs[..i] == xs;
    raised := false;
  }

  // ---------------------------------------------------------------------
  // dumpfiles (web/views.py:474-498)

  /** The section type a dumped file's name stands for. */
  function ImageType(filename: string): (t: string)
    ensures t in {"ImageSectionObject", "DataSectionObject", "SharedCacheMap", "N/A"}
    ensures t == "ImageSectionObject" <==> EndsWith(filename, "img")
    ensures t == "DataSectionObject" <==> !EndsWith(filename, "img") && EndsWith(filename, "dat")
    ensures t == "SharedCacheMap" <==> !EndsWith(filename, "img") && !EndsWith(filename, "dat") && EndsWith(filename, "vacb")
  {
    if EndsWith(filename, "img") then "ImageSectionObject"
    else if EndsWith(filename, "dat") then "DataSectionObject"
    else if EndsWith(filename, "vacb") then "SharedCacheMap"
    else "N/A"
  }

  const CARVER_COLUMNS: seq<string> := ["Offset", "File Name", "Image Type", "StoredFile"]

  function CarvedRow(offset: string, f: string, id: nat): seq<Cell>
  {
    [Text(offset), Text(f), Text(ImageType(f)), Text(FileLink(id))]
  }

  /** One file of the listing: stored, then `plugin_options['PHYSOFFSET']`
      is read for its row, which raises when the options carry no offset. */
  function CarveItem(l: Listing, offset: Option<string>, sess: nat, hash: Hasher, f: string, id: nat): Extracted
  {
    if f !in l.contents then Extracted([], [], true)
    else if offset.None? then Extracted([], [Stored(l, f, sess, hash)], true)
    else Extracted([CarvedRow(offset.value, f, id)], [Stored(l, f, sess, hash)], false)
  }

  function CarveStep(l: Listing, offset: Option<string>, sess: nat, hash: Hasher): (string, nat) -> Extracted
  {
    (f: string, id: nat) => CarveItem(l, offset, sess, hash, f, id)
  }

  /** With an offset, every file of the listing is stored and adds exactly
      one row, classified by its suffix, in listing order, the k-th with file
      id `id + k`. */
  lemma CarveRowPerFile(l: Listing, names: seq<string>, offset: string, sess: nat, hash: Hasher, id: nat)
    requires forall k :: 0 <= k < |names| ==> names[k] in l.contents
    ensures var e := ExtractAll(CarveStep(l, Some(offset), sess, hash), names, id);
      && !e.raised && |e.rows| == |names| && |e.stored| == |names|
      && forall k :: 0 <= k < |names| ==>
           e.rows[k] == CarvedRow(offset, names[k], id + k) && e.stored[k] == Stored(l, names[k], sess, hash)
  {
    forall f: string, i: nat | f in l.contents
      ensures CarveStep(l, Some(offset), sess, hash)(f, i) == Extracted([CarvedRow(offset, f, i)], [Stored(l, f, sess, hash)], false)
    {
    }
    ExtractOneEach(CarveStep(l, Some(offset), sess, hash), (f: string) => f in l.contents,
                   (f: string, i: nat) => CarvedRow(offset, f, i), (f: string) requires f in l.contents => Stored(l, f, sess, hash),
                   names, id);
  }

  /** Without an offset, the first file is stored and the loop raises. */
  lemma CarveWithoutOffsetRaises(l: Listing, names: seq<string>, sess: nat, hash: Hasher, id: nat)
    requires names != [] && names[0] in l.contents
    ensures var e := ExtractAll(CarveStep(l, None, sess, hash), names, id);
      e.raised && e.stored == [Stored(l, names[0], sess, hash)]
  {
    var step := CarveStep(l, None, sess, hash);
    assert names[..1] == [names[0]];
    assert names[..1][..0] == [];
    assert ExtractAll(step, names[..1], id) == Extracted([], [Stored(l, names[0], sess, hash)], true);
    StopAtRaise(step, names, 1, id);
  }

  // ---------------------------------------------------------------------
  // procdump, dlldump (web/views.py:500-515)

  /** The file name after the last "OK: " of the result cell. */
  function OkFile(result: string): string
  {
    var parts := Split(result, "OK: ");
    parts[|parts| - 1]
  }

  /** `row[-1].startswith("OK")` raises on an empty row and on a number. */
  predicate HasTextResult(row: seq<Cell>)
  {
    row != [] && row[|row| - 1].Text?
  }

  function NamedItem(l: Listing, sess: nat, hash: Hasher, row: seq<Cell>, id: nat): Extracted
  {
    if !HasTextResult(row) then Extracted([], [], true)
    else
      var result := row[|row| - 1].s;
      if StartsWith(result, "OK") then
        var f := OkFile(result);
        if f !in l.names then Extracted([row], [], false)
        else if f !in l.contents then Extracted([], [], true)
        else Extracted([row + [Text(FileLink(id))]], [Stored(l, f, sess, hash)], false)
      else Extracted([row + [Text("Not Stored")]], [], false)
  }

  function NamedStep(l: Listing, sess: nat, hash: Hasher): (seq<Cell>, nat) -> Extracted
  {
    (row: seq<Cell>, id: nat) => NamedItem(l, sess, hash, row, id)
  }

  /** The cell a row of a named dumper gets: `Not Stored` unless its result
      starts with "OK", a link when that file was dumped, and NOTHING when an
      "OK" row's file is missing from the listing. */
  ghost predicate NamedShape(l: Listing, row: seq<Cell>, out: seq<Cell>)
    requires HasTextResult(row)
  {
    var result := row[|row| - 1].s;
    if !StartsWith(result, "OK") then out == row + [Text("Not Stored")]
    else if OkFile(result) !in l.names then out == row
    else |out| == |row| + 1 && out[..|row|] == row && IsLink(out[|row|])
  }

  /** One row of a named dumper. */
  lemma NamedItemShape(l: Listing, sess: nat, hash: Hasher, row: seq<Cell>, id: nat)
    requires ValidListing(l)
    ensures var e := NamedItem(l, sess, hash, row, id);
      && (e.raised <==> !HasTextResult(row))
      && (HasTextResult(row) ==> |e.rows| == 1 && NamedShape(l, row, e.rows[0]))
  {
    if HasTextResult(row) {
      var result := row[|row| - 1].s;
      if StartsWith(result, "OK") && OkFile(result) in l.names {
        assert NamedItem(l, sess, hash, row, id).rows[0][|row|] == Text(FileLink(id));
      }
    }
  }

  /** Each row is kept, in order, and gets the cell `NamedShape` says; the
      loop raises exactly when some row has no text result cell. */
  lemma NamedRowsShape(l: Listing, rows: seq<seq<Cell>>, sess: nat, hash: Hasher, id: nat)
    requires ValidListing(l)
    ensures var e := ExtractAll(NamedStep(l, sess, hash), rows, id);
      && (e.raised <==> exists k :: 0 <= k < |rows| && !HasTextResult(rows[k]))
      && (!e.raised ==> |e.rows| == |rows| && forall k :: 0 <= k < |rows| ==> HasTextResult(rows[k]) && NamedShape(l, rows[k], e.rows[k]))
  {
    var keep := (row: seq<Cell>) => true;
    var shape := (row: seq<Cell>, out: seq<Cell>) => HasTextResult(row) && NamedShape(l, row, out);
    forall row: seq<Cell>, i: nat
      ensures var e := NamedStep(l, sess, hash)(row, i);
        && (e.raised <==> !HasTextResult(row))
        && (HasTextResult(row) ==> |e.rows| == 1 && shape(row, e.rows[0]))
    {
      NamedItemShape(l, sess, hash, row, i);
    }
    ExtractEach(NamedStep(l, sess, hash), keep, HasTextResult, shape, rows, id);
    FilterAll(keep, rows);
  }

  /** The quirk of web/views.py:504-513: an "OK" row whose file is not in the
      listing keeps its length while the columns grow by "StoredFile". */
  lemma MissingOkFileBreaksArity(l: Listing, row: seq<Cell>, sess: nat, hash: Hasher, id: nat)
    requires HasTextResult(row) && StartsWith(row[|row| - 1].s, "OK")
    requires OkFile(row[|row| - 1].s) !in l.names
    ensures NamedItem(l, sess, hash, row, id) == Extracted([row], [], false)
  {
  }

  // ---------------------------------------------------------------------
  // dumpregistry (web/views.py:517-527)

  const HIVE_COLUMNS: seq<string> := ["Hive Name", "StoredFile"]

  function HiveItem(l: Listing, sess: nat, hash: Hasher, f: string, id: nat): Extracted
  {
    if f !in l.contents then Extracted([], [], true)
    else Extracted([[Text(f), Text(FileLink(id))]], [Stored(l, f, sess, hash)], false)
  }

  function HiveStep(l: Listing, sess: nat, hash: Hasher): (string, nat) -> Extracted
  {
    (f: string, id: nat) => HiveItem(l, sess, hash, f, id)
  }

  /** The table is rebuilt from the listing alone: one row per file, its
      name and the link to its stored copy. */
  lemma HiveRowPerFile(l: Listing, names: seq<string>, sess: nat, hash: Hasher, id: nat)
    requires forall k :: 0 <= k < |names| ==> names[k] in l.contents
    ensures var e := ExtractAll(HiveStep(l, sess, hash), names, id);
      && !e.raised && |e.rows| == |names| && |e.stored| == |names|
      && forall k :: 0 <= k < |names| ==>
           e.rows[k] == [Text(names[k]), Text(FileLink(id + k))] && e.stored[k] == Stored(l, names[k], sess, hash)
  {
    ExtractOneEach(HiveStep(l, sess, hash), (f: string) => f in l.contents,
                   (f: string, i: nat) => [Text(f), Text(FileLink(i))], (f: string) requires f in l.contents => Stored(l, f, sess, hash),
                   names, id);
  }

  // ---------------------------------------------------------------------
  // dumpcerts (web/views.py:529-542)

  function CertItem(l: Listing, sess: nat, hash: Hasher, row: seq<Cell>, id: nat): Extracted
  {
    if |row| <= 5 then Extracted([], [], true)
    else if row[5].Text? && row[5].s in l.names then
      if row[5].s !in l.contents then Extracted([], [], true)
      else Extracted([row[|row| - 1 := Text(FileLink(id))]], [Stored(l, row[5].s, sess, hash)], false)
    else Extracted([row + [Text("Not Stored")]], [], false)
  }

  function CertStep(l: Listing, sess: nat, hash: Hasher): (seq<Cell>, nat) -> Extracted
  {
    (row: seq<Cell>, id: nat) => CertItem(l, sess, hash, row, id)
  }

  /** A certificate row whose file (column 5) was dumped has its LAST cell
      overwritten by the link; any other row gets `Not Stored` appended. */
  ghost predicate CertShape(l: Listing, row: seq<Cell>, out: seq<Cell>)
    requires |row| > 5
  {
    if row[5].Text? && row[5].s in l.names then
      |out| == |row| && out[..|row| - 1] == row[..|row| - 1] && IsLink(out[|row| - 1])
    else out == row + [Text("Not Stored")]
  }

  /** One certificate row. */
  lemma CertItemShape(l: Listing, sess: nat, hash: Hasher, row: seq<Cell>, id: nat)
    requires ValidListing(l)
    ensures var e := CertItem(l, sess, hash, row, id);
      && (e.raised <==> |row| <= 5)
      && (|row| > 5 ==> |e.rows| == 1 && CertShape(l, row, e.rows[0]))
  {
    if |row| > 5 && row[5].Text? && row[5].s in l.names {
      assert CertItem(l, sess, hash, row, id).rows[0][|row| - 1] == Text(FileLink(id));
    }
  }

  /** Every row is kept, in order, shaped as `CertShape` says; the loop raises
      exactly when some row has no column 5. */
  lemma CertRowsShape(l: Listing, rows: seq<seq<Cell>>, sess: nat, hash: Hasher, id: nat)
    requires ValidListing(l)
    ensures var e := ExtractAll(CertStep(l, sess, hash), rows, id);
      && (e.raised <==> exists k :: 0 <= k < |rows| && |rows[k]| <= 5)
      && (!e.raised ==> |e.rows| == |rows| && forall k :: 0 <= k < |rows| ==> |rows[k]| > 5 && CertShape(l, rows[k], e.rows[k]))
  {
    var keep := (row: seq<Cell>) => true;
    var ok := (row: seq<Cell>) => |row| > 5;
    var shape := (row: seq<Cell>, out: seq<Cell>) => |row| > 5 && CertShape(l, row, out);
    forall row: seq<Cell>, i: nat
      ensures var e := CertStep(l, sess, hash)(row, i);
        && (e.raised <==> !ok(row))
        && (ok(row) ==> |e.rows| == 1 && shape(row, e.rows[0]))
    {
      CertItemShape(l, sess, hash, row, i);
    }
    ExtractEach(CertStep(l, sess, hash), keep, ok, shape, rows, id);
    FilterAll(keep, rows);
  }

  // ---------------------------------------------------------------------
  // memdump (web/views.py:544-574)

  const REGION_COLUMNS: seq<string> := ["Process", "PID", "StoredFile"]

  /** The separator line of memdump's text output: 72 asterisks. */
  const STARS: string := "************************************************************************"

  /** The pid of a dump file name: what precedes its first dot. */
  function PidOf(dumpFile: string): string
  {
    Split(dumpFile, ".")[0]
  }

  function RegionItem(l: Listing, sess: nat, hash: Hasher, segment: string, id: nat): Extracted
  {
    if !MentionsDump(segment) then Extracted([], [], false)
    else
      var words := SplitWords(segment);
      if |words| < 2 then Extracted([], [], true)
      else
        var process, dumpFile := words[1], words[|words| - 1];
        if dumpFile !in l.names then
          Extracted([[Text(process), Text(PidOf(dumpFile)), Text("Not Stored")]], [], false)
        else if dumpFile !in l.contents then Extracted([], [], true)
        else
          Extracted([[Text(process), Text(PidOf(dumpFile)), Text(FileLink(id))]], [Stored(l, dumpFile, sess, hash)], false)
  }

  function RegionStep(l: Listing, sess: nat, hash: Hasher): (string, nat) -> Extracted
  {
    (segment: string, id: nat) => RegionItem(l, sess, hash, segment, id)
  }

  predicate MentionsDump(segment: string)
  {
    Contains(segment, ".dmp")
  }

  /** The segments that mention a ".dmp" file, in order. */
  function DumpSegments(segments: seq<string>): seq<string>
  {
    Filter(MentionsDump, segments)
  }

  /** A row of the rebuilt memdump table for a segment: word 1 of the
      segment, the pid taken from the last word, and a link or `Not Stored`,
      the latter exactly when the last word is not a dumped file. */
  ghost predicate RegionShape(l: Listing, segment: string, out: seq<Cell>)
  {
    var words := SplitWords(segment);
    && |words| >= 2
    && |out| == 3
    && out[0] == Text(words[1])
    && out[1] == Text(PidOf(words[|words| - 1]))
    && (out[2] == Text("Not Stored") <==> words[|words| - 1] !in l.names)
    && (words[|words| - 1] in l.names ==> IsLink(out[2]))
  }

  /** One segment: nothing unless it mentions ".dmp"; otherwise one row, or
      an exception when it has fewer than two words. */
  lemma RegionItemShape(l: Listing, sess: nat, hash: Hasher, segment: string, id: nat)
    requires ValidListing(l)
    ensures var e := RegionItem(l, sess, hash, segment, id);
      && (!MentionsDump(segment) ==> e == Extracted([], [], false))
      && (MentionsDump(segment) ==>
           && (e.raised <==> |SplitWords(segment)| < 2)
           && (!e.raised ==> |e.rows| == 1 && RegionShape(l, segment, e.rows[0])))
  {
    if MentionsDump(segment) {
      var words := SplitWords(segment);
      if |words| >= 2 && words[|words| - 1] in l.names {
        assert RegionItem(l, sess, hash, segment, id).rows[0][2] == Text(FileLink(id));
      }
    }
  }

  /** Segments without ".dmp" are skipped; every other one yields one row,
      in order; the loop raises exactly on a ".dmp" segment of fewer than
      two words. */
  lemma RegionRowPerSegment(l: Listing, segments: seq<string>, sess: nat, hash: Hasher, id: nat)
    requires ValidListing(l)
    ensures var e := ExtractAll(RegionStep(l, sess, hash), segments, id);
      var dumps := DumpSegments(segments);
      && (e.raised <==> exists k :: 0 <= k < |dumps| && |SplitWords(dumps[k])| < 2)
      && (!e.raised ==> |e.rows| == |dumps| && forall k :: 0 <= k < |dumps| ==> RegionShape(l, dumps[k], e.rows[k]))
  {
    var ok := (segment: string) => |SplitWords(segment)| >= 2;
    var shape := (segment: string, out: seq<Cell>) => RegionShape(l, segment, out);
    forall segment: string, i: nat
      ensures var e := RegionStep(l, sess, hash)(segment, i);
        && (!MentionsDump(segment) ==> e == Extracted([], [], false))
        && (MentionsDump(segment) ==> (e.raised <==> !ok(segment)))
        && (MentionsDump(segment) && ok(segment) ==> |e.rows| == 1 && shape(segment, e.rows[0]))
    {
      RegionItemShape(l, sess, hash, segment, i);
    }
    ExtractEach(RegionStep(l, sess, hash), MentionsDump, ok, shape, segments, id);
    var e := ExtractAll(RegionStep(l, sess, hash), segments, id);
    var dumps := DumpSegments(segments);
    assert dumps == Filter(MentionsDump, segments);
    if !e.raised {
      assert forall k :: 0 <= k < |dumps| ==> shape(dumps[k], e.rows[k]);
    }
  }

  /** The pid column is the prefix of the dump file name before its first dot. */
  lemma PidIsPrefix(dumpFile: string)
    ensures PidOf(dumpFile) <= dumpFile && '.' !in PidOf(dumpFile)
  {
    FirstPiece(dumpFile, '.', []);
  }

  lemma {:induction false} FirstPiece(s: string, c: char, acc: string)
    requires c !in acc
    ensures SplitFrom(s, [c], acc)[0] <= acc + s && c !in SplitFrom(s, [c], acc)[0]
    decreases |s|
  {
    if s != [] && !([c] <= s) {
      FirstPiece(s[1..], c, acc + [s[0]]);
      assert acc + [s[0]] + s[1..] == acc + s;
    }
  }

  /** `base_output.lstrip('<pre>').rstrip('</pre>')`: both strip character
      sets, not the tags as strings. */
  function Unwrap(text: string): string
  {
    RStrip(LStrip(text, "<pre>"), "</pre>")
  }

  // ---------------------------------------------------------------------
  // The dispatch on the plugin's name

  /** The table a kind starts from: its default columns or the output stored
      by an earlier run (`dumpfiles` and `memdump` reuse it). */
  function BaseTable(kind: Kind, prior: Option<Table>, results: Table): Table
  {
    match kind
    case FileCarver => if prior.None? then Table(CARVER_COLUMNS, []) else prior.value
    case NamedDumper => Table(results.columns + ["StoredFile"], [])
    case HiveDumper => Table(HIVE_COLUMNS, [])
    case CertDumper => Table(results.columns, [])
    case RegionDumper => if prior.None? then Table(REGION_COLUMNS, []) else prior.value
    case NoDump => results
  }

  /** The memdump text: the first cell of the first row, which must exist
      and be a string. */
  predicate HasRegionText(results: Table)
  {
    results.rows != [] && results.rows[0] != [] && results.rows[0][0].Text?
  }

  /** What a kind's loop makes of its items: the listing, the result rows or
      the text segments. */
  function DumpExtract(kind: Kind, results: Table, l: Listing, offset: Option<string>,
                       sess: nat, hash: Hasher, id: nat): (e: Extracted)
    ensures kind == NoDump ==> e == Extracted([], [], false)
    ensures kind == RegionDumper && !HasRegionText(results) ==> e == Extracted([], [], true)
  {
    match kind
    case NoDump => Extracted([], [], false)
    case FileCarver => ExtractAll(CarveStep(l, offset, sess, hash), l.names, id)
    case NamedDumper => ExtractAll(NamedStep(l, sess, hash), results.rows, id)
    case HiveDumper => ExtractAll(HiveStep(l, sess, hash), l.names, id)
    case CertDumper => ExtractAll(CertStep(l, sess, hash), results.rows, id)
    case RegionDumper =>
      if !HasRegionText(results) then Extracted([], [], true)
      else ExtractAll(RegionStep(l, sess, hash), Split(Unwrap(results.rows[0][0].s), STARS), id)
  }

  /** The table a kind leaves: the new rows after the reused ones for
      dumpfiles and memdump, the new rows alone for the others. */
  function DumpTable(kind: Kind, prior: Option<Table>, results: Table, e: Extracted): (t: Table)
    ensures kind == NoDump ==> t == results
    ensures kind != NoDump ==> t.columns == BaseTable(kind, prior, results).columns
    ensures kind == NamedDumper ==> t.columns == results.columns + ["StoredFile"]
    ensures kind == HiveDumper ==> t.columns == HIVE_COLUMNS
    ensures kind in {NamedDumper, HiveDumper, CertDumper} ==> t.rows == e.rows
    ensures kind in {FileCarver, RegionDumper} ==> t.rows == BaseTable(kind, prior, results).rows + e.rows
  {
    var base := BaseTable(kind, prior, results);
    if kind == NoDump then results
    else if kind in {FileCarver, RegionDumper} then Table(base.columns, base.rows + e.rows)
    else Table(base.columns, e.rows)
  }

  /** web/views.py:460-574: stores the dumped files and returns the new
      results, or reports that an exception escaped. */
  method ProcessDumpDir(store: FileStore, name: string, prior: Option<Table>, results: Table, l: Listing,
                        offset: Option<string>, sess: nat, hash: Hasher)
    returns (table: Table, raised: bool)
    modifies store
    ensures var e := DumpExtract(KindOf(name), results, l, offset, sess, hash, |old(store.files)|);
      && raised == e.raised
      && (!raised ==> table == DumpTable(KindOf(name), prior, results, e))
      && store.files == old(store.files) + e.stored && store.dropped == old(store.dropped)
  {
    var kind := KindOf(name);
    var base := BaseTable(kind, prior, results);
    var rows;
    match kind {
      case NoDump =>
        return results, false;
      case FileCarver =>
        rows, raised := Extract(store, CarveStep(l, offset, sess, hash), l.names);
        rows := base.rows + rows;
      case NamedDumper =>
        rows, raised := Extract(store, NamedStep(l, sess, hash), results.rows);
      case HiveDumper =>
        rows, raised := Extract(store, HiveStep(l, sess, hash), l.names);
      case CertDumper =>
        rows, raised := Extract(store, CertStep(l, sess, hash), results.rows);
      case RegionDumper =>
        if !HasRegionText(results) {
          return base, true;
        }
        var baseOutput := Unwrap(results.rows[0][0].s);
        rows, raised := Extract(store, RegionStep(l, sess, hash), Split(baseOutput, STARS));
        rows := base.rows + rows;
    }
    table := Table(base.columns, rows);
  }
  // ---------------------------------------------------------------------
  // The table each kind leaves, from the shape of its items

  /** dumpfiles with an offset: the reused rows, or none, then one carved
      row per listed file, in listing order. */
  lemma CarverTable(prior: Option<Table>, results: Table, l: Listing, offset: string, sess: nat, hash: Hasher, id: nat)
    requires ValidListing(l)
    ensures var e := DumpExtract(FileCarver, results, l, Some(offset), sess, hash, id);
      var t := DumpTable(FileCarver, prior, results, e);
      var base := if prior.None? then Table(CARVER_COLUMNS, []) else prior.value;
      && !e.raised && t.columns == base.columns
      && |t.rows| == |base.rows| + |l.names| && t.rows[..|base.rows|] == base.rows
      && forall k :: 0 <= k < |l.names| ==> t.rows[|base.rows| + k] == CarvedRow(offset, l.names[k], id + k)
  {
    CarveRowPerFile(l, l.names, offset, sess, hash, id);
  }

  /** procdump and dlldump: when no row lacks its text result, one shaped
      row per result row under the result columns plus `StoredFile`. */
  lemma NamedTable(prior: Option<Table>, results: Table, l: Listing, sess: nat, hash: Hasher, id: nat)
    requires ValidListing(l)
    ensures var e := DumpExtract(NamedDumper, results, l, None, sess, hash, id);
      var t := DumpTable(NamedDumper, prior, results, e);
      && (e.raised <==> exists k :: 0 <= k < |results.rows| && !HasTextResult(results.rows[k]))
      && t.columns == results.columns + ["StoredFile"]
      && (!e.raised ==>
            && |t.rows| == |results.rows|
            && forall k :: 0 <= k < |results.rows| ==> NamedShape(l, results.rows[k], t.rows[k]))
  {
    NamedRowsShape(l, results.rows, sess, hash, id);
  }

  /** dumpregistry: one row of hive name and link per listed file, under
      the hive columns. */
  lemma HiveTable(prior: Option<Table>, results: Table, l: Listing, sess: nat, hash: Hasher, id: nat)
    requires ValidListing(l)
    ensures var e := DumpExtract(HiveDumper, results, l, None, sess, hash, id);
      var t := DumpTable(HiveDumper, prior, results, e);
      && !e.raised && t.columns == HIVE_COLUMNS && |t.rows| == |l.names|
      && forall k :: 0 <= k < |l.names| ==> t.rows[k] == [Text(l.names[k]), Text(FileLink(id + k))]
  {
    HiveRowPerFile(l, l.names, sess, hash, id);
  }

  /** dumpcerts: when every row has column 5, one shaped row per result
      row under the result columns. */
  lemma CertTable(prior: Option<Table>, results: Table, l: Listing, sess: nat, hash: Hasher, id: nat)
    requires ValidListing(l)
    ensures var e := DumpExtract(CertDumper, results, l, None, sess, hash, id);
      var t := DumpTable(CertDumper, prior, results, e);
      && (e.raised <==> exists k :: 0 <= k < |results.rows| && |results.rows[k]| <= 5)
      && t.columns == results.columns
      && (!e.raised ==>
            && |t.rows| == |results.rows|
            && forall k :: 0 <= k < |results.rows| ==> CertShape(l, results.rows[k], t.rows[k]))
  {
    CertRowsShape(l, results.rows, sess, hash, id);
  }

  /** memdump with its text cell: the reused rows, or none, then one shaped
      row per ".dmp" segment of the text, in order. */
  lemma RegionTable(prior: Option<Table>, results: Table, l: Listing, sess: nat, hash: Hasher, id: nat)
    requires ValidListing(l) && HasRegionText(results)
    ensures var e := DumpExtract(RegionDumper, results, l, None, sess, hash, id);
      var t := DumpTable(RegionDumper, prior, results, e);
      var base := if prior.None? then Table(REGION_COLUMNS, []) else prior.value;
      var dumps := DumpSegments(Split(Unwrap(results.rows[0][0].s), STARS));
      && t.columns == base.columns && t.rows[..|base.rows|] == base.rows
      && (e.raised <==> exists k :: 0 <= k < |dumps| && |SplitWords(dumps[k])| < 2)
      && (!e.raised ==>
            && |t.rows| == |base.rows| + |dumps|
            && forall k :: 0 <= k < |dumps| ==> RegionShape(l, dumps[k], t.rows[|base.rows| + k]))
  {
    RegionRowPerSegment(l, Split(Unwrap(results.rows[0][0].s), STARS), sess, hash, id);
  }
}
