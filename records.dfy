/** The record-keeping requests of the AJAX handler (web/views.py): polling a
    session for plugins registered since it was opened, resetting a plugin's
    result, toggling a row bookmark, and deleting a dumped file together with
    the result rows that mention it. Record ids travel in the request as
    text; they are modelled as naturals written in decimal. */
module Records {
  import opened PyStr
  import opened Tables
  import opened Session

  // ---------------------------------------------------------------------
  // Request fields

  /** One or more decimal digits. */
  predicate IsDecimal(s: string)
  {
    s != [] && forall i :: 0 <= i < |s| ==> '0' <= s[i] <= '9'
  }

  /** `ObjectId(s)`: any text that is not the rendering of an id raises. */
  function ObjectIdOf(s: string): (r: Option<nat>)
    ensures r.Some? <==> IsDecimal(s)
  {
    if IsDecimal(s) then Some(DecimalValue(s)) else None
  }

  /** An id read back from its own rendering is the same id. */
  lemma ObjectIdOfDecimal(n: nat)
    ensures ObjectIdOf(Decimal(n)) == Some(n)
  {
    DecimalRoundTrip(n);
  }

  /** `int(s)`: an optional sign and one or more decimal digits, with white
      space allowed around them; anything else raises ValueError. */
  function ParseInt(s: string): Option<int>
  {
    var t := Strip(s);
    if t != [] && (t[0] == '-' || t[0] == '+') then
      if IsDecimal(t[1..]) then
        var v: int := DecimalValue(t[1..]);
        Some(if t[0] == '-' then -v else v)
      else None
    else if IsDecimal(t) then Some(DecimalValue(t))
    else None
  }

  /** Strip leaves a string alone that neither starts nor ends with white space. */
  lemma StripPlain(s: string)
    requires s != [] && s[0] !in WHITESPACE && s[|s| - 1] !in WHITESPACE
    ensures Strip(s) == s
  {
    StripNone(s, WHITESPACE);
  }

  lemma StripNone(s: string, chars: string)
    requires s != [] && s[0] !in chars && s[|s| - 1] !in chars
    ensures LStrip(s, chars) == s && RStrip(s, chars) == s
  {
  }

  /** `int(str(i)) == i` */
  lemma ParseIntText(i: int)
    ensures ParseInt(IntText(i)) == Some(i)
  {
    IntTextShape(i);
    hide ParseInt, Strip, Decimal, DecimalValue, IsDecimal, IntText;
    StripPlain(IntText(i));
    if i < 0 {
      ParseIntSigned(IntText(i));
    } else {
      ParseIntUnsigned(IntText(i));
    }
  }

  /** `str(i)`: the digits of |i|, after a minus sign when i < 0. */
  lemma IntTextShape(i: int)
    ensures var s := IntText(i);
      && s != [] && s[0] !in WHITESPACE && s[|s| - 1] !in WHITESPACE
      && (i < 0 ==> s[0] == '-' && IsDecimal(s[1..]) && DecimalValue(s[1..]) == -i)
      && (i >= 0 ==> IsDecimal(s) && DecimalValue(s) == i)
  {
    var n: nat := if i < 0 then -i else i;
    DecimalRoundTrip(n);
    var d := Decimal(n);
    if i < 0 {
      assert IntText(i)[1..] == d;
    }
  }

  lemma ParseIntSigned(s: string)
    requires Strip(s) == s && s != [] && s[0] == '-' && IsDecimal(s[1..])
    ensures ParseInt(s) == Some(-(DecimalValue(s[1..]) as int))
  {
  }

  lemma ParseIntUnsigned(s: string)
    requires Strip(s) == s && IsDecimal(s)
    ensures ParseInt(s) == Some(DecimalValue(s))
  {
  }

  // ---------------------------------------------------------------------
  // pollplugins (web/views.py:757-805)

  /** `db.get_pluginbysession(sid)`: the session's records in store order. */
  function SessionRows(records: seq<PluginRecord>, sid: nat): (r: seq<PluginRecord>)
    ensures |r| <= |records|
    ensures forall k :: 0 <= k < |r| ==> r[k].sessionId == sid
    decreases |records|
  {
    if records == [] then []
    else
      var last := records[|records| - 1];
      SessionRows(records[..|records| - 1], sid) + (if last.sessionId == sid then [last] else [])
  }

  /** The `plugin_name` of each row. */
  function Names(rows: seq<PluginRecord>): (r: seq<string>)
    ensures |r| == |rows| && forall k :: 0 <= k < |rows| ==> r[k] == rows[k].name
  {
    seq(|rows|, k requires 0 <= k < |rows| => rows[k].name)
  }

  /** `existing_plugins`: the plugins session `sid` already has a record for. */
  function Existing(records: seq<PluginRecord>, sid: nat): seq<string>
  {
    Names(SessionRows(records, sid))
  }

  datatype PollOutcome =
    | PollServerError          // no session_id in the request
    | PollRaised               // bad id, unknown session, no session_path yet, or list_plugins() raised
    | Polled(rows: seq<PluginRecord>)

  /** pollplugins: every entry of the session's catalogue that is neither
      dropped nor already recorded gets a fresh record, and the session's
      records are rendered. `catalog` gives `list_plugins()` for a profile
      and image path (None when it raises), `drop` is `plugin_filters['drop']`. */
  method PollPlugins(plugins: PluginCollection, sessions: SessionCollection, post: Post,
                     catalog: (string, string) -> Option<seq<CatalogEntry>>, drop: seq<string>)
    returns (outcome: PollOutcome)
    modifies plugins
    ensures plugins.statusLog == old(plugins.statusLog)
    ensures "session_id" !in post ==> outcome == PollServerError && plugins.records == old(plugins.records)
    ensures "session_id" in post ==>
      var sid := ObjectIdOf(post["session_id"]);
      if sid.None? || sid.value >= |sessions.sessions| || sessions.sessions[sid.value].path.None?
         || catalog(sessions.sessions[sid.value].profile, sessions.sessions[sid.value].path.value).None? then
        outcome == PollRaised && plugins.records == old(plugins.records)
      else
        var s := sessions.sessions[sid.value];
        var entries := catalog(s.profile, s.path.value).value;
        && plugins.records == old(plugins.records)
             + NewRecords(sid.value, entries, drop + Existing(old(plugins.records), sid.value))
        && outcome == Polled(SessionRows(plugins.records, sid.value))
  {
    if "session_id" !in post {
      return PollServerError;
    }
    var sid := ObjectIdOf(post["session_id"]);
    if sid.None? || sid.value >= |sessions.sessions| {
      return PollRaised;
    }
    var session := sessions.sessions[sid.value];
    var rows := SessionRows(plugins.records, sid.value);
    if session.path.None? {
      return PollRaised;
    }
    var listed := catalog(session.profile, session.path.value);
    if listed.None? {
      return PollRaised;
    }
    var entries := listed.value;
    var existing := NamesOf(rows);
    var refresh := AddMissing(plugins, sid.value, entries, drop, existing);
    if refresh {
      rows := SessionRows(plugins.records, sid.value);
    } else {
      assert plugins.records == old(plugins.records) + [];
      assert plugins.records == old(plugins.records);
    }
    outcome := Polled(rows);
  }

  /** web/views.py:775-777 */
  method NamesOf(rows: seq<PluginRecord>) returns (names: seq<string>)
    ensures names == Names(rows)
  {
    names := [];
    for j := 0 to |rows|
      invariant |names| == j && forall k :: 0 <= k < j ==> names[k] == rows[k].name
    {
      names := names + [rows[j].name];
    }
  }

  /** web/views.py:780-798: the catalogue loop, and whether it wrote anything. */
  method AddMissing(plugins: PluginCollection, sid: nat, entries: seq<CatalogEntry>, drop: seq<string>,
                    existing: seq<string>)
    returns (refresh: bool)
    modifies plugins
    ensures plugins.records == old(plugins.records) + NewRecords(sid, entries, drop + existing)
    ensures plugins.statusLog == old(plugins.statusLog)
    ensures refresh <==> NewRecords(sid, entries, drop + existing) != []
  {
    ghost var skip := drop + existing;
    refresh := false;
    for i := 0 to |entries|
      invariant plugins.records == old(plugins.records) + NewRecords(sid, entries[..i], skip)
      invariant plugins.statusLog == old(plugins.statusLog)
      invariant refresh <==> NewRecords(sid, entries[..i], skip) != []
    {
      assert entries[..i + 1][..i] == entries[..i];
      var (name, help) := entries[i];
      assert name in skip <==> name in drop || name in existing;
      if name !in drop && name !in existing {
        var _ := plugins.Create(FreshRecord(sid, name, help));
        refresh := true;
      }
    }
    assert entries[..|entries|] == entries;
  }

  /** Names of rows laid end to end. */
  lemma NamesAppend(a: seq<PluginRecord>, b: seq<PluginRecord>)
    ensures Names(a + b) == Names(a) + Names(b)
  {
    assert forall k :: 0 <= k < |a + b| ==> Names(a + b)[k] == (Names(a) + Names(b))[k];
  }

  /** Store order is kept: the rows of appended records follow the old ones. */
  lemma {:induction false} SessionRowsAppend(a: seq<PluginRecord>, b: seq<PluginRecord>, sid: nat)
    ensures SessionRows(a + b, sid) == SessionRows(a, sid) + SessionRows(b, sid)
    decreases |b|
  {
    if b != [] {
      var n := |b| - 1;
      SessionRowsAppend(a, b[..n], sid);
      assert (a + b)[..|a + b| - 1] == a + b[..n];
      assert (a + b)[|a + b| - 1] == b[n];
    } else {
      assert a + b == a;
    }
  }

  /** A record of session `sid` shows up among its existing plugins. */
  lemma {:induction false} RecordedIsExisting(records: seq<PluginRecord>, sid: nat, k: nat)
    requires k < |records| && records[k].sessionId == sid
    ensures records[k].name in Existing(records, sid)
    decreases |records|
  {
    var n := |records| - 1;
    var init := records[..n];
    NamesAppend(SessionRows(init, sid), if records[n].sessionId == sid then [records[n]] else []);
    if k < n {
      RecordedIsExisting(init, sid, k);
    } else {
      assert Existing(records, sid) == Existing(init, sid) + [records[n].name];
    }
  }

  /** A catalogue whose every name is skipped makes no record. */
  lemma {:induction false} NothingNew(sid: nat, entries: seq<CatalogEntry>, skip: seq<string>)
    requires forall i :: 0 <= i < |entries| ==> entries[i].0 in skip
    ensures NewRecords(sid, entries, skip) == []
    decreases |entries|
  {
    if entries != [] {
      NothingNew(sid, entries[..|entries| - 1], skip);
    }
  }

  /** A poll adds records only for catalogue entries that are neither
      dropped nor already recorded for the session; each new record is a
      fresh record of that session. */
  lemma PollAddsOnlyMissing(records: seq<PluginRecord>, sid: nat, entries: seq<CatalogEntry>, drop: seq<string>)
    ensures var existing := Existing(records, sid);
      var added := NewRecords(sid, entries, drop + existing);
      forall k :: 0 <= k < |added| ==>
        && added[k].name !in drop && added[k].name !in existing && (added[k].name, added[k].help) in entries
        && added[k].sessionId == sid && added[k].output.None? && added[k].status == Unset
  {
    RecordsFromCatalog(sid, entries, drop + Existing(records, sid));
  }

  /** After a poll, the session has a record for every catalogue entry
      outside the drop list. */
  lemma PollCovers(records: seq<PluginRecord>, sid: nat, entries: seq<CatalogEntry>, drop: seq<string>)
    ensures var after := records + NewRecords(sid, entries, drop + Existing(records, sid));
      forall i :: 0 <= i < |entries| && entries[i].0 !in drop ==> entries[i].0 in Existing(after, sid)
  {
    var existing := Existing(records, sid);
    var added := NewRecords(sid, entries, drop + existing);
    var after := records + added;
    SessionRowsAppend(records, added, sid);
    NamesAppend(SessionRows(records, sid), SessionRows(added, sid));
    assert Existing(after, sid) == existing + Existing(added, sid);
    RecordsFromCatalog(sid, entries, drop + existing);
    CatalogRecorded(sid, entries, drop + existing);
    forall i | 0 <= i < |entries| && entries[i].0 !in drop
      ensures entries[i].0 in Existing(after, sid)
    {
      if entries[i].0 !in existing {
        assert entries[i].0 !in drop + existing;
        var k :| 0 <= k < |added| && added[k].name == entries[i].0;
        RecordedIsExisting(added, sid, k);
      }
    }
  }

  /** Polling again with the same catalogue creates nothing. */
  lemma PollIdempotent(records: seq<PluginRecord>, sid: nat, entries: seq<CatalogEntry>, drop: seq<string>)
    ensures var after := records + NewRecords(sid, entries, drop + Existing(records, sid));
      NewRecords(sid, entries, drop + Existing(after, sid)) == []
  {
    var after := records + NewRecords(sid, entries, drop + Existing(records, sid));
    PollCovers(records, sid, entries, drop);
    NothingNew(sid, entries, drop + Existing(after, sid));
  }

  // ---------------------------------------------------------------------
  // dropplugin (web/views.py:821-826)

  /** The store after `update_plugin(id, {'created': None, 'plugin_output':
      None, 'status': None})`: an unknown id matches nothing. */
  function Cleared(records: seq<PluginRecord>, id: nat): (r: seq<PluginRecord>)
    ensures |r| == |records|
    ensures forall k :: 0 <= k < |r| && k != id ==> r[k] == records[k]
  {
    if id < |records| then records[id := records[id].(created := None, output := None, status := Unset)] else records
  }

  datatype DropOutcome = DropIgnored | DropRaised | DropOk

  /** dropplugin: resets the plugin's result so that it can be run again. */
  method DropPlugin(plugins: PluginCollection, post: Post) returns (outcome: DropOutcome)
    modifies plugins
    ensures "plugin_id" !in post ==>
      outcome == DropIgnored && plugins.records == old(plugins.records) && plugins.statusLog == old(plugins.statusLog)
    ensures "plugin_id" in post ==>
      match ObjectIdOf(post["plugin_id"])
      case None =>
        outcome == DropRaised && plugins.records == old(plugins.records) && plugins.statusLog == old(plugins.statusLog)
      case Some(id) =>
        outcome == DropOk && plugins.records == Cleared(old(plugins.records), id)
        && plugins.statusLog == old(plugins.statusLog) + [(id, Unset)]
  {
    if "plugin_id" !in post {
      return DropIgnored;
    }
    var id := ObjectIdOf(post["plugin_id"]);
    if id.None? {
      return DropRaised;
    }
    plugins.Reset(id.value);
    outcome := DropOk;
  }

  /** A dropped plugin keeps its session, name, help text and bookmarks, and
      loses its time, output and status; dropping twice is dropping once. */
  lemma DropResets(records: seq<PluginRecord>, id: nat)
    requires id < |records|
    ensures var r := Cleared(records, id)[id];
      && r.sessionId == records[id].sessionId && r.name == records[id].name && r.help == records[id].help
      && r.bookmarks == records[id].bookmarks
      && r.created.None? && r.output.None? && r.status == Unset
    ensures Cleared(Cleared(records, id), id) == Cleared(records, id)
  {
  }

  /** Two stores with the same sessions and names in the same places have
      the same existing plugins. */
  lemma {:induction false} ExistingByKeys(a: seq<PluginRecord>, b: seq<PluginRecord>, sid: nat)
    requires |a| == |b|
    requires forall k :: 0 <= k < |a| ==> a[k].sessionId == b[k].sessionId && a[k].name == b[k].name
    ensures Existing(a, sid) == Existing(b, sid)
    decreases |a|
  {
    if a != [] {
      var n := |a| - 1;
      ExistingByKeys(a[..n], b[..n], sid);
      NamesAppend(SessionRows(a[..n], sid), if a[n].sessionId == sid then [a[n]] else []);
      NamesAppend(SessionRows(b[..n], sid), if b[n].sessionId == sid then [b[n]] else []);
    }
  }

  /** A dropped plugin keeps its row: polling afterwards creates exactly
      what it would have created before the drop. */
  lemma DropKeepsRow(records: seq<PluginRecord>, id: nat, sid: nat, entries: seq<CatalogEntry>, drop: seq<string>)
    ensures Existing(Cleared(records, id), sid) == Existing(records, sid)
    ensures NewRecords(sid, entries, drop + Existing(Cleared(records, id), sid))
         == NewRecords(sid, entries, drop + Existing(records, sid))
  {
    ExistingByKeys(Cleared(records, id), records, sid);
  }

  // ---------------------------------------------------------------------
  // bookmark (web/views.py:1566-1587)

  /** `bs.index(x)` */
  function IndexOf(bs: seq<int>, x: int): (i: nat)
    requires x in bs
    ensures i < |bs| && bs[i] == x && x !in bs[..i]
  {
    if bs[0] == x then 0
    else
      assert x in bs[1..];
      var j := IndexOf(bs[1..], x);
      assert bs[..j + 1] == [bs[0]] + bs[1..][..j];
      j + 1
  }

  /** `bs.remove(x)`: drops the first occurrence of `x` (called only when
      `x` is in `bs`). */
  function RemoveFirst(bs: seq<int>, x: int): seq<int>
  {
    if bs == [] then []
    else if bs[0] == x then bs[1..]
    else [bs[0]] + RemoveFirst(bs[1..], x)
  }

  /** Removing cuts out the first occurrence. */
  lemma {:induction false} RemoveFirstCut(bs: seq<int>, x: int)
    requires x in bs
    ensures RemoveFirst(bs, x) == bs[..IndexOf(bs, x)] + bs[IndexOf(bs, x) + 1..]
    decreases |bs|
  {
    if bs[0] != x {
      var tail := bs[1..];
      assert x in tail;
      RemoveFirstCut(tail, x);
      var j := IndexOf(tail, x);
      assert IndexOf(bs, x) == j + 1;
      assert bs[..j + 1] == [bs[0]] + tail[..j];
      assert bs[j + 2..] == tail[j + 1..];
    }
  }

  /** The new bookmark list and the answer for row `x`. */
  function Toggle(bs: seq<int>, x: int): (seq<int>, string)
  {
    if x in bs then (RemoveFirst(bs, x), "remove") else (bs + [x], "add")
  }

  predicate Distinct(bs: seq<int>)
  {
    forall i, j :: 0 <= i < j < |bs| ==> bs[i] != bs[j]
  }

  /** On a list without repeats, a toggle flips exactly the membership of
      `x`, says which way it went, and keeps the list free of repeats. */
  lemma ToggleFlips(bs: seq<int>, x: int)
    requires Distinct(bs)
    ensures Distinct(Toggle(bs, x).0)
    ensures forall y :: y in Toggle(bs, x).0 <==> (y in bs && y != x) || (y !in bs && y == x)
    ensures Toggle(bs, x).1 == if x in bs then "remove" else "add"
  {
    if x in bs {
      RemoveFirstCut(bs, x);
      CutDistinct(bs, IndexOf(bs, x));
    } else {
      var r := bs + [x];
      forall a, b | 0 <= a < b < |r| ensures r[a] != r[b] {
        if b == |bs| { assert r[a] == bs[a]; }
      }
    }
  }

  /** Taking the `i`-th element out of a list without repeats removes exactly
      that value and leaves a list without repeats. */
  lemma CutDistinct(bs: seq<int>, i: nat)
    requires Distinct(bs) && i < |bs|
    ensures Distinct(bs[..i] + bs[i + 1..])
    ensures forall y :: y in bs[..i] + bs[i + 1..] <==> y in bs && y != bs[i]
  {
    var r := bs[..i] + bs[i + 1..];
    assert forall k :: 0 <= k < |r| ==> r[k] == bs[if k < i then k else k + 1];
    forall y ensures y in r <==> y in bs && y != bs[i] {
      if y in bs && y != bs[i] {
        var k :| 0 <= k < |bs| && bs[k] == y;
        assert r[if k < i then k else k - 1] == y;
      }
    }
  }

  /** On a list without repeats, toggling the same row twice gives back the
      same bookmarks; adding then removing gives back the very list. */
  lemma ToggleTwice(bs: seq<int>, x: int)
    requires Distinct(bs)
    ensures multiset(Toggle(Toggle(bs, x).0, x).0) == multiset(bs)
    ensures x !in bs ==> Toggle(Toggle(bs, x).0, x).0 == bs
  {
    if x in bs {
      RemoveThenAdd(bs, x);
    } else {
      AddThenRemove(bs, x);
    }
  }

  lemma RemoveThenAdd(bs: seq<int>, x: int)
    requires Distinct(bs) && x in bs
    ensures multiset(Toggle(Toggle(bs, x).0, x).0) == multiset(bs)
  {
    var i := IndexOf(bs, x);
    var once := bs[..i] + bs[i + 1..];
    RemoveFirstCut(bs, x);
    CutDistinct(bs, i);
    assert Toggle(bs, x).0 == once;
    assert Toggle(once, x).0 == once + [x];
    assert bs == bs[..i] + [x] + bs[i + 1..];
    calc {
      multiset(once + [x]);
      multiset(bs[..i]) + multiset(bs[i + 1..]) + multiset{x};
      multiset(bs[..i] + [x] + bs[i + 1..]);
    }
  }

  lemma AddThenRemove(bs: seq<int>, x: int)
    requires x !in bs
    ensures Toggle(Toggle(bs, x).0, x).0 == bs
  {
    var once := bs + [x];
    RemoveFirstCut(once, x);
    assert once[..|bs|] == bs;
  }

  /** The bookmarks the request starts from: the record's list, or [] when
      there is no such record or it has no 'bookmarks' key. */
  function CurrentBookmarks(records: seq<PluginRecord>, id: nat): seq<int>
  {
    if id < |records| && records[id].bookmarks.Some? then records[id].bookmarks.value else []
  }

  /** `plugin_id, row_id = row_id.split('_')` then `ObjectId(plugin_id)` and
      `int(row_id)`; None when any of the three raises. */
  function RowRef(s: string): Option<(nat, int)>
  {
    var parts := Split(s, "_");
    if |parts| != 2 then None
    else
      match (ObjectIdOf(parts[0]), ParseInt(parts[1]))
      case (Some(p), Some(r)) => Some((p, r))
      case _ => None
  }

  /** The reference the page builds as "<plugin id>_<row>" reads back as
      that plugin and row. */
  lemma RowRefRoundTrip(p: nat, r: int)
    ensures RowRef(Decimal(p) + "_" + IntText(r)) == Some((p, r))
  {
    var a, b := Decimal(p), IntText(r);
    assert '_' !in a;
    assert b == if r < 0 then "-" + Decimal(-r) else Decimal(r);
    assert '_' !in b;
    SplitJoin([a, b], '_');
    JoinSteps([a, b], "_");
    JoinSteps([a, b][1..], "_");
    assert [a, b][1..] == [b];
    ObjectIdOfDecimal(p);
    ParseIntText(r);
  }

  datatype BookmarkOutcome = BookmarkIgnored | BookmarkRaised | Bookmarked(answer: string)

  /** bookmark: toggles row `row` of plugin `p` in the plugin's bookmarks and
      answers 'add' or 'remove'. */
  method Bookmark(plugins: PluginCollection, post: Post) returns (outcome: BookmarkOutcome)
    modifies plugins
    ensures plugins.statusLog == old(plugins.statusLog)
    ensures "row_id" !in post ==> outcome == BookmarkIgnored && plugins.records == old(plugins.records)
    ensures "row_id" in post ==>
      match RowRef(post["row_id"])
      case None => outcome == BookmarkRaised && plugins.records == old(plugins.records)
      case Some((p, row)) =>
        var (bs, answer) := Toggle(CurrentBookmarks(old(plugins.records), p), row);
        && outcome == Bookmarked(answer)
        && plugins.records == if p < |old(plugins.records)| then old(plugins.records)[p := old(plugins.records)[p].(bookmarks := Some(bs))] else old(plugins.records)
  {
    if "row_id" !in post {
      return BookmarkIgnored;
    }
    var ref := RowRef(post["row_id"]);
    if ref.None? {
      return BookmarkRaised;
    }
    var (p, row) := ref.value;
    var bookmarks := CurrentBookmarks(plugins.records, p);
    var answer;
    if row in bookmarks {
      bookmarks := RemoveFirst(bookmarks, row);
      answer := "remove";
    } else {
      bookmarks := bookmarks + [row];
      answer := "add";
    }
    plugins.SetBookmarks(p, bookmarks);
    outcome := Bookmarked(answer);
  }

  // ---------------------------------------------------------------------
  // deleteobject (web/views.py:1324-1354)

  /** The rows whose text does not mention `fileId`, in order; `repr` is
      `str(row)`. */
  function Unmentioned(rows: seq<seq<Cell>>, fileId: string, repr: seq<Cell> -> string): (r: seq<seq<Cell>>)
    ensures |r| <= |rows|
    decreases |rows|
  {
    if rows == [] then []
    else
      var last := rows[|rows| - 1];
      Unmentioned(rows[..|rows| - 1], fileId, repr) + (if Contains(repr(last), fileId) then [] else [last])
  }

  /** web/views.py:1342-1347 */
  method KeepRows(rows: seq<seq<Cell>>, fileId: string, repr: seq<Cell> -> string) returns (kept: seq<seq<Cell>>)
    ensures kept == Unmentioned(rows, fileId, repr)
  {
    kept := [];
    for i := 0 to |rows|
      invariant kept == Unmentioned(rows[..i], fileId, repr)
    {
      assert rows[..i + 1][..i] == rows[..i];
      if !Contains(repr(rows[i]), fileId) {
        kept := kept + [rows[i]];
      }
    }
    assert rows[..|rows|] == rows;
  }

  /** A row is kept exactly when it does not mention the file id. */
  lemma {:induction false} UnmentionedExactly(rows: seq<seq<Cell>>, fileId: string, repr: seq<Cell> -> string)
    ensures forall row :: row in Unmentioned(rows, fileId, repr) <==> row in rows && !Contains(repr(row), fileId)
    decreases |rows|
  {
    if rows != [] {
      var init := rows[..|rows| - 1];
      UnmentionedExactly(init, fileId, repr);
      assert rows == init + [rows[|rows| - 1]];
    }
  }

  /** The filter keeps the order: filtering two blocks of rows is filtering
      each and laying them end to end. */
  lemma {:induction false} UnmentionedAppend(a: seq<seq<Cell>>, b: seq<seq<Cell>>, fileId: string, repr: seq<Cell> -> string)
    ensures Unmentioned(a + b, fileId, repr) == Unmentioned(a, fileId, repr) + Unmentioned(b, fileId, repr)
    decreases |b|
  {
    hide Contains;
    if b == [] {
      assert a + b == a;
    } else {
      var n := |b| - 1;
      UnmentionedAppend(a, b[..n], fileId, repr);
      assert (a + b)[..|a + b| - 1] == a + b[..n];
      assert (a + b)[|a + b| - 1] == b[n];
    }
  }

  datatype DeleteOutcome = DeleteIgnored | DeleteRaised | SessionDropped | DeleteOk

  /** The part of a deleteobject request that decides what happens. */
  datatype DeleteRequest = DropSessionReq | DropFileReq | NoDeleteReq | BadDeleteReq

  /** web/views.py:1325-1336: `drop_type` and `session_id` are bound only
      when the request carries them, and reading an unbound one raises; so
      does `ObjectId` of a session id that is not an id. */
  function DeleteKind(post: Post): DeleteRequest
  {
    if "droptype" !in post then BadDeleteReq
    else if post["droptype"] == "session" && "session_id" !in post then BadDeleteReq
    else if post["droptype"] == "session" && post["session_id"] != "" then
      (if ObjectIdOf(post["session_id"]).None? then BadDeleteReq else DropSessionReq)
    else if "file_id" in post && post["droptype"] == "dumpfiles" then DropFileReq
    else NoDeleteReq
  }

  /** deleteobject for a dumped file: drops the stored file and removes from
      the plugin's output every row whose text mentions the file id. Session
      deletion is answered without a change to the model's stores. */
  method DeleteObject(plugins: PluginCollection, store: FileStore, post: Post, repr: seq<Cell> -> string)
    returns (outcome: DeleteOutcome)
    modifies plugins, store
    ensures plugins.statusLog == old(plugins.statusLog) && store.files == old(store.files)
    ensures DeleteKind(post) != DropFileReq ==>
      && plugins.records == old(plugins.records) && store.dropped == old(store.dropped)
      && outcome == match DeleteKind(post)
                    case BadDeleteReq => DeleteRaised
                    case DropSessionReq => SessionDropped
                    case _ => DeleteIgnored
    ensures DeleteKind(post) == DropFileReq ==>
      var pid := if "plugin_id" in post then ObjectIdOf(post["plugin_id"]) else None;
      var fid := ObjectIdOf(post["file_id"]);
      if pid.None? || pid.value >= |old(plugins.records)| || old(plugins.records)[pid.value].output.None? || fid.None? then
        outcome == DeleteRaised && plugins.records == old(plugins.records) && store.dropped == old(store.dropped)
      else
        var t := old(plugins.records)[pid.value].output.value;
        && outcome == DeleteOk
        && store.dropped == old(store.dropped) + {fid.value}
        && plugins.records == old(plugins.records)[pid.value := old(plugins.records)[pid.value].(
             output := Some(t.(rows := Unmentioned(t.rows, post["file_id"], repr))))]
  {
    var kind := DeleteKind(post);
    if kind == BadDeleteReq {
      return DeleteRaised;
    } else if kind == DropSessionReq {
      return SessionDropped;
    } else if kind == NoDeleteReq {
      return DeleteIgnored;
    }
    if "plugin_id" !in post {
      return DeleteRaised;
    }
    var pid := ObjectIdOf(post["plugin_id"]);
    var fileId := post["file_id"];
    if pid.None? || pid.value >= |plugins.records| || plugins.records[pid.value].output.None? {
      return DeleteRaised;
    }
    var t := plugins.records[pid.value].output.value;
    var kept := KeepRows(t.rows, fileId, repr);
    var fid := ObjectIdOf(fileId);
    if fid.None? {
      return DeleteRaised;
    }
    store.Drop(fid.value);
    plugins.SetOutput(pid.value, t.(rows := kept));
    outcome := DeleteOk;
  }
}
