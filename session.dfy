/** Session set-up (web/views.py:81-200 and 314-368): `create_session` turns
    a path, or every image file under a directory, into a new session record
    and hands each image to `session_creation`, which fills the record in,
    settles the profile, creates one plugin record per usable plugin and
    starts the autorun jobs. The engine's plugin catalogue, the kdbgscan
    output, the directory walk, the MD5 of the image and the clock are
    parameters. */
module Session {
  import opened PyStr
  import opened Tables

  /** `request.POST` */
  type Post = map<string, string>

  // ---------------------------------------------------------------------
  // create_session: the images to open

  /** The extensions of web/views.py:337, in the order they are tried. */
  const EXTENSIONS: seq<string> := ["bin", "mem", "img", "001", "raw", "dmp", "vmem"]

  /** `os.path.join(root, name)` */
  function PathJoin(root: string, name: string): string
  {
    if StartsWith(name, "/") then name
    else if root == [] || EndsWith(root, "/") then root + name
    else root + "/" + name
  }

  /** `[p]` when `hit`, else nothing. */
  function Once(hit: bool, p: string): seq<string>
  {
    if hit then [p] else []
  }

  /** The path of file `name` under `root`, once for every extension in
      `exts` the lowered name ends with. */
  function Hits(root: string, name: string, exts: seq<string>): (r: seq<string>)
    ensures forall k :: 0 <= k < |r| ==> r[k] == PathJoin(root, name)
    decreases |exts|
  {
    if exts == [] then []
    else Hits(root, name, exts[..|exts| - 1]) + Once(EndsWith(Lower(name), exts[|exts| - 1]), PathJoin(root, name))
  }

  /** The listing the walk of web/views.py:333-343 builds; `walk` holds the
      (directory, file name) pairs `os.walk` yields, in order. */
  function ImagePaths(walk: seq<(string, string)>): seq<string>
    decreases |walk|
  {
    if walk == [] then []
    else
      var (root, name) := walk[|walk| - 1];
      ImagePaths(walk[..|walk| - 1]) + Hits(root, name, EXTENSIONS)
  }

  /** web/views.py:333-343 */
  method WalkImages(walk: seq<(string, string)>) returns (listing: seq<string>)
    ensures listing == ImagePaths(walk)
  {
    listing := [];
    for i := 0 to |walk|
      invariant listing == ImagePaths(walk[..i])
    {
      var (root, name) := walk[i];
      assert walk[..i + 1][..i] == walk[..i];
      listing := AddHits(listing, root, name, EXTENSIONS);
    }
    assert walk[..|walk|] == walk;
  }

  /** The inner loop of web/views.py:338-340 over the extensions `exts`. */
  method AddHits(listing: seq<string>, root: string, name: string, exts: seq<string>) returns (r: seq<string>)
    ensures r == listing + Hits(root, name, exts)
  {
    hide Lower, EndsWith, PathJoin, Hits;
    r := listing;
    assert exts[..0] == [];
    HitsNone(root, name);
    for j := 0 to |exts|
      invariant r == listing + Hits(root, name, exts[..j])
    {
      HitsNext(root, name, exts, j);
      if EndsWith(Lower(name), exts[j]) {
        r := r + [PathJoin(root, name)];
      }
    }
    assert exts[..|exts|] == exts;
  }

  lemma HitsNone(root: string, name: string)
    ensures Hits(root, name, []) == []
  {
  }

  /** One more extension tried. */
  lemma HitsNext(root: string, name: string, exts: seq<string>, j: nat)
    requires j < |exts|
    ensures Hits(root, name, exts[..j + 1])
         == Hits(root, name, exts[..j]) + Once(EndsWith(Lower(name), exts[j]), PathJoin(root, name))
  {
    assert exts[..j + 1][..j] == exts[..j];
  }

  /** Whether the lowered name `n` ends with `ext`, as a count. */
  function Hit(n: string, ext: string): nat
  {
    if EndsWith(n, ext) then 1 else 0
  }

  lemma HitsStep(root: string, name: string, exts: seq<string>, j: nat)
    requires j < |exts|
    ensures |Hits(root, name, exts[..j + 1])| == |Hits(root, name, exts[..j])| + Hit(Lower(name), exts[j])
  {
    assert exts[..j + 1][..j] == exts[..j];
  }

  /** The inner loop over seven extensions lists the path once per
      extension the name ends with. */
  lemma HitsOfSeven(root: string, name: string, e: seq<string>)
    requires |e| == 7
    ensures var n := Lower(name);
      |Hits(root, name, e)|
        == Hit(n, e[0]) + Hit(n, e[1]) + Hit(n, e[2]) + Hit(n, e[3]) + Hit(n, e[4]) + Hit(n, e[5]) + Hit(n, e[6])
  {
    hide Lower, Hit;
    assert e[..0] == [];
    HitsStep(root, name, e, 0);
    HitsStep(root, name, e, 1);
    HitsStep(root, name, e, 2);
    HitsStep(root, name, e, 3);
    HitsStep(root, name, e, 4);
    HitsStep(root, name, e, 5);
    HitsStep(root, name, e, 6);
    assert e[..7] == e;
  }

  /** The number of extensions the lowered name `n` ends with. */
  function HitCount(n: string): nat
  {
    ThreeLetterHits(n) + Hit(n, EXTENSIONS[6])
  }

  function ThreeLetterHits(n: string): nat
  {
    var e := EXTENSIONS;
    Hit(n, e[0]) + Hit(n, e[1]) + Hit(n, e[2]) + Hit(n, e[3]) + Hit(n, e[4]) + Hit(n, e[5])
  }

  lemma HitsLength(root: string, name: string)
    ensures |Hits(root, name, EXTENSIONS)| == HitCount(Lower(name))
  {
    hide Lower;
    HitsOfSeven(root, name, EXTENSIONS);
  }

  /** The six three-letter extensions start with different letters, so a
      name ends with at most one of them. */
  lemma AtMostOneThreeLetterHit(n: string)
    ensures ThreeLetterHits(n) <= 1
  {
    var e := EXTENSIONS;
    assert EndsWith(n, e[0]) ==> n[|n| - 3] == 'b';
    assert EndsWith(n, e[1]) ==> n[|n| - 3] == 'm';
    assert EndsWith(n, e[2]) ==> n[|n| - 3] == 'i';
    assert EndsWith(n, e[3]) ==> n[|n| - 3] == '0';
    assert EndsWith(n, e[4]) ==> n[|n| - 3] == 'r';
    assert EndsWith(n, e[5]) ==> n[|n| - 3] == 'd';
  }

  /** A sequence whose elements all equal `p` is `p` repeated. */
  lemma Uniform(h: seq<string>, p: string)
    requires forall k :: 0 <= k < |h| ==> h[k] == p
    ensures |h| == 0 ==> h == []
    ensures |h| == 1 ==> h == [p]
    ensures |h| == 2 ==> h == [p, p]
  {
  }

  lemma VmemCount(n: string)
    requires EndsWith(n, "vmem")
    ensures HitCount(n) == 2
  {
    var e := EXTENSIONS;
    assert n[|n| - 3..] == n[|n| - 4..][1..];
    assert Hit(n, e[1]) == 1 && Hit(n, e[6]) == 1;
    AtMostOneThreeLetterHit(n);
  }

  lemma OtherCount(n: string)
    requires !EndsWith(n, "vmem")
    requires exists k :: 0 <= k < |EXTENSIONS| && EndsWith(n, EXTENSIONS[k])
    ensures HitCount(n) == 1
  {
    var e := EXTENSIONS;
    var k :| 0 <= k < |e| && EndsWith(n, e[k]);
    assert k != 6;
    assert Hit(n, e[k]) == 1;
    assert Hit(n, e[6]) == 0;
    AtMostOneThreeLetterHit(n);
  }

  lemma NoneCount(n: string)
    requires forall k :: 0 <= k < |EXTENSIONS| ==> !EndsWith(n, EXTENSIONS[k])
    ensures HitCount(n) == 0
  {
    var e := EXTENSIONS;
    assert !EndsWith(n, e[0]) && !EndsWith(n, e[1]) && !EndsWith(n, e[2]) && !EndsWith(n, e[3]);
    assert !EndsWith(n, e[4]) && !EndsWith(n, e[5]) && !EndsWith(n, e[6]);
  }

  /** A file is listed twice when its name ends in 'vmem' (it also ends in
      'mem'), once when it ends in one of the other extensions, and not at
      all otherwise. */
  lemma ListedTimes(root: string, name: string)
    ensures var n := Lower(name);
      var p := PathJoin(root, name);
      && (EndsWith(n, "vmem") ==> Hits(root, name, EXTENSIONS) == [p, p])
      && (!EndsWith(n, "vmem") && (exists k :: 0 <= k < |EXTENSIONS| && EndsWith(n, EXTENSIONS[k])) ==>
            Hits(root, name, EXTENSIONS) == [p])
      && ((forall k :: 0 <= k < |EXTENSIONS| ==> !EndsWith(n, EXTENSIONS[k])) ==> Hits(root, name, EXTENSIONS) == [])
  {
    hide Lower, EndsWith;
    var n := Lower(name);
    var h := Hits(root, name, EXTENSIONS);
    HitsLength(root, name);
    Uniform(h, PathJoin(root, name));
    if EndsWith(n, "vmem") {
      VmemCount(n);
    } else if exists k :: 0 <= k < |EXTENSIONS| && EndsWith(n, EXTENSIONS[k]) {
      OtherCount(n);
    } else {
      NoneCount(n);
    }
  }

  /** `path.split('/')[-1]` */
  function BaseName(path: string): string
  {
    var parts := Split(path, "/");
    parts[|parts| - 1]
  }

  lemma {:induction false} LastPiece(s: string, acc: string)
    requires '/' !in acc
    ensures var parts := SplitFrom(s, "/", acc);
      '/' !in parts[|parts| - 1] && EndsWith(acc + s, parts[|parts| - 1])
    decreases |s|
  {
    hide SplitFrom;
    SplitFromStep(s, '/', acc);
    if s == [] {
      assert acc + s == acc;
    } else if s[0] == '/' {
      LastPiece(s[1..], []);
      var parts := SplitFrom(s, "/", acc);
      var rest := SplitFrom(s[1..], "/", []);
      assert parts[|parts| - 1] == rest[|rest| - 1];
      assert (acc + s)[|acc| + 1..] == s[1..];
    } else {
      LastPiece(s[1..], acc + [s[0]]);
      assert acc + [s[0]] + s[1..] == acc + s;
    }
  }

  /** The file name part of a path holds no '/' and ends the path. */
  lemma BaseNameIsFileName(path: string)
    ensures '/' !in BaseName(path) && EndsWith(path, BaseName(path))
  {
    LastPiece(path, []);
    assert [] + path == path;
  }

  /** web/views.py:355-358 */
  function SessionName(post: Post, image: string): string
  {
    if "sess_name" in post then post["sess_name"] + " (" + BaseName(image) + ")" else BaseName(image)
  }

  const NOT_SELECTED: string := "Not Selected"
  const PROCESSING: string := "Processing"

  /** The record web/views.py:348-358 writes for one image. */
  function NewSession(post: Post, image: string, now: int): (s: SessionRecord)
    requires "profile" in post
  {
    SessionRecord(SessionName(post, image), now, now, NOT_SELECTED, PROCESSING, post["profile"],
                  None, None, None, None, None)
  }

  /** What `create_session` does: the error page when no path was posted,
      an escaping KeyError when there are images but no 'profile', or the
      redirect after starting one `session_creation` job per image. */
  datatype CreateOutcome = NoPathSelected | CreateRaised | Redirected(jobs: seq<(string, nat)>)

  /** The images `create_session` opens. */
  function Images(post: Post, walk: seq<(string, string)>): seq<string>
    requires "sess_path" in post
  {
    if "process_dir" in post then ImagePaths(walk) else [post["sess_path"]]
  }

  /** web/views.py:345-364: one new record per image, each dispatched for
      set-up under the id the store gives it. */
  method AddSessions(sessions: SessionCollection, post: Post, listing: seq<string>, now: int)
    returns (jobs: seq<(string, nat)>)
    requires listing == [] || "profile" in post
    modifies sessions
    ensures var n := |old(sessions.sessions)|;
      && |jobs| == |listing|
      && (forall k :: 0 <= k < |listing| ==> jobs[k] == (listing[k], n + k))
      && |sessions.sessions| == n + |listing|
      && sessions.sessions[..n] == old(sessions.sessions)
      && (forall k :: 0 <= k < |listing| ==> sessions.sessions[n + k] == NewSession(post, listing[k], now))
    ensures sessions.statusLog == old(sessions.statusLog)
      + seq(|jobs|, k requires 0 <= k < |jobs| => (jobs[k].1, PROCESSING))
  {
    jobs := [];
    ghost var n := |sessions.sessions|;
    for i := 0 to |listing|
      invariant |jobs| == i && forall k :: 0 <= k < i ==> jobs[k] == (listing[k], n + k)
      invariant |sessions.sessions| == n + i && sessions.sessions[..n] == old(sessions.sessions)
      invariant forall k :: 0 <= k < i ==> sessions.sessions[n + k] == NewSession(post, listing[k], now)
      invariant sessions.statusLog == old(sessions.statusLog) + seq(i, k requires 0 <= k < i => (jobs[k].1, PROCESSING))
    {
      var id := sessions.Create(NewSession(post, listing[i], now));
      jobs := jobs + [(listing[i], id)];
    }
  }

  /** create_session(request); `walk` is what `os.walk(sess_path)` yields
      and `now` the clock. */
  method CreateSessions(sessions: SessionCollection, post: Post, walk: seq<(string, string)>, now: int)
    returns (outcome: CreateOutcome)
    modifies sessions
    ensures "sess_path" !in post ==> outcome == NoPathSelected && sessions.sessions == old(sessions.sessions)
    ensures "sess_path" in post && Images(post, walk) != [] && "profile" !in post ==>
      outcome == CreateRaised && sessions.sessions == old(sessions.sessions)
    ensures "sess_path" in post && (Images(post, walk) == [] || "profile" in post) ==>
      var images := Images(post, walk);
      var n := |old(sessions.sessions)|;
      && outcome.Redirected?
      && |outcome.jobs| == |images|
      && (forall k :: 0 <= k < |images| ==> outcome.jobs[k] == (images[k], n + k))
      && |sessions.sessions| == n + |images|
      && sessions.sessions[..n] == old(sessions.sessions)
      && (forall k :: 0 <= k < |images| ==> sessions.sessions[n + k] == NewSession(post, images[k], now))
    ensures outcome.Redirected? ==>
      sessions.statusLog == old(sessions.statusLog)
        + seq(|outcome.jobs|, k requires 0 <= k < |outcome.jobs| => (outcome.jobs[k].1, PROCESSING))
    ensures !outcome.Redirected? ==> sessions.statusLog == old(sessions.statusLog)
  {
    hide ImagePaths, NewSession;
    if "sess_path" !in post {
      return NoPathSelected;
    }
    var listing;
    if "process_dir" in post {
      listing := WalkImages(walk);
    } else {
      listing := [post["sess_path"]];
    }
    if listing != [] && "profile" !in post {
      return CreateRaised;
    }
    var jobs := AddSessions(sessions, post, listing, now);
    return Redirected(jobs);
  }

  // ---------------------------------------------------------------------
  // session_creation: the profile

  /** The profile the form asks for: None for 'AutoDetect' or no field. */
  function RequestedProfile(post: Post): Option<string>
  {
    if "profile" in post && post["profile"] != "AutoDetect" then Some(post["profile"]) else None
  }

  const SUGGESTION: string := "Profile suggestion"

  /** The suggestions of web/views.py:137-141 from the lines of kdbgscan's
      text: the second ':'-separated field, stripped, of every line that
      mentions a profile suggestion; None when such a line has no ':' (the
      IndexError escapes). */
  function Suggestions(lines: seq<string>): Option<seq<string>>
    decreases |lines|
  {
    if lines == [] then Some([])
    else
      match Suggestions(lines[..|lines| - 1])
      case None => None
      case Some(ps) =>
        var line := lines[|lines| - 1];
        if !Contains(line, SUGGESTION) then Some(ps)
        else
          var fields := Split(line, ":");
          if |fields| < 2 then None else Some(ps + [Strip(fields[1])])
  }

  /** web/views.py:139-141 over the lines of `text`. */
  method ParseSuggestions(text: string) returns (profiles: Option<seq<string>>)
    ensures profiles == Suggestions(Split(text, "\n"))
  {
    var lines := Split(text, "\n");
    var found: seq<string> := [];
    for i := 0 to |lines|
      invariant Suggestions(lines[..i]) == Some(found)
    {
      assert lines[..i + 1][..i] == lines[..i];
      if Contains(lines[i], SUGGESTION) {
        var fields := Split(lines[i], ":");
        if |fields| < 2 {
          StopsAtBadLine(lines, i + 1);
          return None;
        }
        found := found + [Strip(fields[1])];
      }
    }
    assert lines[..|lines|] == lines;
    profiles := Some(found);
  }

  /** Once a suggestion line raises, the lines after it are never reached. */
  lemma {:induction false} StopsAtBadLine(lines: seq<string>, i: nat)
    requires i <= |lines| && Suggestions(lines[..i]).None?
    ensures Suggestions(lines).None?
    decreases |lines| - i
  {
    if i < |lines| {
      assert lines[..i + 1][..i] == lines[..i];
      StopsAtBadLine(lines, i + 1);
    } else {
      assert lines[..i] == lines;
    }
  }

  /** A string that holds `sub` still does with more text after it. */
  lemma ContainsExtended(s: string, t: string, sub: string)
    requires Contains(s, sub)
    ensures Contains(s + t, sub)
  {
    var i := ContainsWitness(s, sub);
    assert (s + t)[i..i + |sub|] == s[i..i + |sub|];
    ContainsAt(s + t, sub, i);
  }

  /** The second ':'-field of `<head>:<value>` followed by nothing or by
      more ':' fields is `value`. */
  lemma SecondField(head: string, value: string, rest: string)
    requires ':' !in head && ':' !in value
    requires rest == [] || rest[0] == ':'
    ensures var fields := Split(head + ":" + value + rest, ":");
      |fields| >= 2 && fields[1] == value
  {
    hide SplitFrom;
    assert head + ":" + value + rest == head + [':'] + (value + rest);
    SplitFromPiece(head, ':', value + rest, []);
    if rest == [] {
      assert value + rest == value;
      SplitFromPiece(value, ':', [], []);
    } else {
      assert value + rest == value + [':'] + rest[1..];
      SplitFromPiece(value, ':', rest[1..], []);
    }
    assert [] + value == value;
  }

  /** A kdbgscan line `<head>:<value>` (possibly followed by more ':' fields)
      whose head mentions the suggestion suggests the stripped value. */
  lemma SuggestionIsSecondField(head: string, value: string, rest: string)
    requires Contains(head, SUGGESTION) && ':' !in head && ':' !in value
    requires rest == [] || rest[0] == ':'
    ensures Suggestions([head + ":" + value + rest]) == Some([Strip(value)])
  {
    hide Split, Strip, Contains;
    var line := head + ":" + value + rest;
    ContainsExtended(head, ":" + value + rest, SUGGESTION);
    assert line == head + (":" + value + rest);
    SecondField(head, value, rest);
    assert [line][..0] == [];
    assert Suggestions([]) == Some([]);
    assert [] + [Strip(value)] == [Strip(value)];
  }

  /** `kdbg_results['rows'][0][0]`: None when the lookup or the later
      `split` raises. */
  function KdbgText(kdbg: Option<Table>): Option<string>
  {
    if kdbg.Some? && kdbg.value.rows != [] && kdbg.value.rows[0] != [] && kdbg.value.rows[0][0].Text?
    then Some(kdbg.value.rows[0][0].s)
    else None
  }

  // ---------------------------------------------------------------------
  // session_creation: the autorun list

  /** `auto_list` after the loop of web/views.py:178-180: each item of
      `extra` not yet present is appended. */
  function Merged(base: seq<string>, extra: seq<string>): (r: seq<string>)
    decreases |extra|
  {
    if extra == [] then base
    else
      var m := Merged(base, extra[..|extra| - 1]);
      if extra[|extra| - 1] in m then m else m + [extra[|extra| - 1]]
  }

  /** The autorun list of web/views.py:166-180: the configured plugins when
      autorun is 'True', merged with the posted 'auto_run' list; None is
      Python's `False`. */
  function AutoList(autorun: string, configured: string, post: Post): Option<seq<string>>
  {
    var base := if autorun == "True" then Some(Split(configured, ",")) else None;
    if "auto_run" !in post then base
    else
      var runList := Split(post["auto_run"], ",");
      if base.None? then Some(runList) else Some(Merged(base.value, runList))
  }

  /** web/views.py:166-180 */
  method MergeAutorun(autorun: string, configured: string, post: Post) returns (auto: Option<seq<string>>)
    ensures auto == AutoList(autorun, configured, post)
  {
    auto := if autorun == "True" then Some(Split(configured, ",")) else None;
    if "auto_run" in post {
      var runList := Split(post["auto_run"], ",");
      if auto.None? {
        auto := Some(runList);
      } else {
        var list := auto.value;
        ghost var base := list;
        for i := 0 to |runList|
          invariant list == Merged(base, runList[..i])
        {
          assert runList[..i + 1][..i] == runList[..i];
          if runList[i] !in list {
            list := list + [runList[i]];
          }
        }
        assert runList[..|runList|] == runList;
        auto := Some(list);
      }
    }
  }

  /** The merged list starts with the configured list, holds exactly the
      items of both lists, and adds each new item once. */
  lemma {:induction false} MergedContents(base: seq<string>, extra: seq<string>)
    ensures var r := Merged(base, extra);
      && |base| <= |r| && r[..|base|] == base
      && (forall x :: x in r <==> x in base || x in extra)
      && (forall i, j :: |base| <= i < j < |r| ==> r[i] != r[j])
      && (forall i :: |base| <= i < |r| ==> r[i] !in base)
    decreases |extra|
  {
    if extra != [] {
      var init := extra[..|extra| - 1];
      var x := extra[|extra| - 1];
      MergedContents(base, init);
      var m := Merged(base, init);
      assert extra == init + [x];
      if x !in m {
        var r := m + [x];
        assert r[..|base|] == m[..|base|];
        forall i | |base| <= i < |r|
          ensures r[i] !in base
        {
          if i == |m| {
            assert x !in base;
          } else {
            assert r[i] == m[i];
          }
        }
      }
    }
  }

  // ---------------------------------------------------------------------
  // session_creation: the plugin records and the jobs

  /** One entry of `vol_int.list_plugins()`: (plugin name, help text). */
  type CatalogEntry = (string, string)

  /** Whether web/views.py:199-200 starts a job for plugin `name`: the
      autorun list is truthy (a `split` is never empty) and holds it. */
  predicate Dispatches(auto: Option<seq<string>>, name: string)
  {
    auto.Some? && auto.value != [] && name in auto.value
  }

  /** The records web/views.py:183-197 creates, in catalogue order. */
  function NewRecords(sessionId: nat, entries: seq<CatalogEntry>, drop: seq<string>): (r: seq<PluginRecord>)
    ensures |r| <= |entries|
    decreases |entries|
  {
    if entries == [] then []
    else
      var (name, help) := entries[|entries| - 1];
      NewRecords(sessionId, entries[..|entries| - 1], drop)
        + (if name in drop then [] else [FreshRecord(sessionId, name, help)])
  }

  /** The ids of the records a job is started for, given that the first new
      record gets id `base`. */
  function Jobs(base: nat, sessionId: nat, entries: seq<CatalogEntry>, drop: seq<string>, auto: Option<seq<string>>): seq<nat>
    decreases |entries|
  {
    if entries == [] then []
    else
      var init := entries[..|entries| - 1];
      var name := entries[|entries| - 1].0;
      Jobs(base, sessionId, init, drop, auto)
        + (if name !in drop && Dispatches(auto, name) then [base + |NewRecords(sessionId, init, drop)|] else [])
  }

  /** web/views.py:183-200 */
  method CreateRecords(plugins: PluginCollection, sessionId: nat, entries: seq<CatalogEntry>, drop: seq<string>,
                       auto: Option<seq<string>>)
    returns (jobs: seq<nat>)
    modifies plugins
    ensures plugins.records == old(plugins.records) + NewRecords(sessionId, entries, drop)
    ensures plugins.statusLog == old(plugins.statusLog)
    ensures jobs == Jobs(|old(plugins.records)|, sessionId, entries, drop, auto)
  {
    jobs := [];
    for i := 0 to |entries|
      invariant plugins.records == old(plugins.records) + NewRecords(sessionId, entries[..i], drop)
      invariant plugins.statusLog == old(plugins.statusLog)
      invariant jobs == Jobs(|old(plugins.records)|, sessionId, entries[..i], drop, auto)
    {
      assert entries[..i + 1][..i] == entries[..i];
      var (name, help) := entries[i];
      if name !in drop {
        var id := plugins.Create(FreshRecord(sessionId, name, help));
        if Dispatches(auto, name) {
          jobs := jobs + [id];
        }
      }
    }
    assert entries[..|entries|] == entries;
  }

  /** Every new record is a fresh record for the session, made from a
      catalogue entry outside the drop list. */
  lemma {:induction false} RecordsFromCatalog(sessionId: nat, entries: seq<CatalogEntry>, drop: seq<string>)
    ensures forall k :: 0 <= k < |NewRecords(sessionId, entries, drop)| ==>
      var rec := NewRecords(sessionId, entries, drop)[k];
      && rec.name !in drop && (rec.name, rec.help) in entries
      && rec.sessionId == sessionId && rec.created.None? && rec.output.None?
      && rec.status == Unset && rec.bookmarks.None?
    decreases |entries|
  {
    if entries != [] {
      var init := entries[..|entries| - 1];
      var last := entries[|entries| - 1];
      RecordsFromCatalog(sessionId, init, drop);
      assert entries == init + [last];
      var pre := NewRecords(sessionId, init, drop);
      var r := NewRecords(sessionId, entries, drop);
      assert r == pre + (if last.0 in drop then [] else [FreshRecord(sessionId, last.0, last.1)]);
      forall k | 0 <= k < |r|
        ensures && r[k].name !in drop && (r[k].name, r[k].help) in entries
                && r[k].sessionId == sessionId && r[k].created.None? && r[k].output.None?
                && r[k].status == Unset && r[k].bookmarks.None?
      {
        if k < |pre| {
          assert r[k] == pre[k];
          assert (pre[k].name, pre[k].help) in init;
        } else {
          assert (r[k].name, r[k].help) == last;
        }
      }
    }
  }

  /** Some record in `recs` is for plugin `name`. */
  predicate HasRecord(recs: seq<PluginRecord>, name: string)
  {
    exists k :: 0 <= k < |recs| && recs[k].name == name
  }

  /** Every catalogue entry outside the drop list gets a record. */
  lemma {:induction false} CatalogRecorded(sessionId: nat, entries: seq<CatalogEntry>, drop: seq<string>)
    ensures forall i :: 0 <= i < |entries| && entries[i].0 !in drop ==>
      HasRecord(NewRecords(sessionId, entries, drop), entries[i].0)
    decreases |entries|
  {
    if entries != [] {
      var init := entries[..|entries| - 1];
      var last := entries[|entries| - 1];
      CatalogRecorded(sessionId, init, drop);
      var pre := NewRecords(sessionId, init, drop);
      var r := NewRecords(sessionId, entries, drop);
      assert r == pre + (if last.0 in drop then [] else [FreshRecord(sessionId, last.0, last.1)]);
      forall i | 0 <= i < |entries| && entries[i].0 !in drop
        ensures HasRecord(r, entries[i].0)
      {
        if i < |init| {
          assert init[i] == entries[i];
          var k :| 0 <= k < |pre| && pre[k].name == init[i].0;
          assert r[k] == pre[k];
        } else {
          assert r[|pre|].name == entries[i].0;
        }
      }
    }
  }

  /** A job is started exactly for the new records whose plugin is on the
      autorun list, by their ids. */
  lemma {:induction false} JobsPicked(base: nat, sessionId: nat, entries: seq<CatalogEntry>, drop: seq<string>,
                                      auto: Option<seq<string>>)
    ensures var r := NewRecords(sessionId, entries, drop);
      forall j :: j in Jobs(base, sessionId, entries, drop, auto) <==>
        base <= j < base + |r| && Dispatches(auto, r[j - base].name)
    decreases |entries|
  {
    if entries != [] {
      var init := entries[..|entries| - 1];
      var (name, help) := entries[|entries| - 1];
      JobsPicked(base, sessionId, init, drop, auto);
      var pre := NewRecords(sessionId, init, drop);
      var r := NewRecords(sessionId, entries, drop);
      assert forall k :: 0 <= k < |pre| ==> r[k] == pre[k];
    }
  }

  // ---------------------------------------------------------------------
  // session_creation as a whole

  const CALCULATING: string := "Calculating MD5"
  const DETECTING: string := "Detecting Profile"
  const COMPLETE: string := "Complete"
  const NO_IMAGE: string := "Unable to find an image file at "
  const NO_PROFILE: string := "Unable to find a valid profile with kdbg scan"

  /** How `session_creation` ends: the main page with an error line, an
      escaping exception, or the end of the function. */
  datatype SetupOutcome = MainPage(errorLine: string) | SetupRaised | Done

  /** The session writes of a set-up, in order (each writes the whole
      record), and the profile the plugin records are made for when it gets
      that far. */
  datatype Setup = Setup(outcome: SetupOutcome, writes: seq<SessionRecord>, profile: Option<string>)

  /** web/views.py:152-163: the engine lists the plugins for the profile
      (`listed`, None when `list_plugins()` raises, which leaves the record
      as it stands), then the profile and empty image info are recorded with
      status 'Complete'. */
  function Settled(s: SessionRecord, writes: seq<SessionRecord>, profile: string,
                   listed: Option<seq<CatalogEntry>>): Setup
  {
    if listed.None? then Setup(SetupRaised, writes, None)
    else Setup(Done, writes + [s.(profile := profile, imageInfo := Some(map[]), status := COMPLETE)], Some(profile))
  }

  /** The record as it stands once the image is found (web/views.py:84-87,
      96-115): form description and plugin path, image path, checksum when
      asked for, and the requested profile. */
  function Staged(s: SessionRecord, post: Post, memImage: string, md5: string): SessionRecord
  {
    var s1 := s.(description := if "description" in post then Some(post["description"]) else s.description,
                 pluginPath := if "plugin_path" in post then Some(post["plugin_path"]) else s.pluginPath,
                 path := Some(memImage));
    var s2 := if "file_hash" in post then s1.(status := CALCULATING, fileHash := md5) else s1;
    var requested := RequestedProfile(post);
    if requested.Some? then s2.(profile := requested.value) else s2
  }

  /** The 'Calculating MD5' write of web/views.py:100-103, when the form
      asks for a checksum. */
  function Hashing(s: SessionRecord, post: Post, memImage: string): seq<SessionRecord>
  {
    if "file_hash" in post then
      [s.(description := if "description" in post then Some(post["description"]) else s.description,
          pluginPath := if "plugin_path" in post then Some(post["plugin_path"]) else s.pluginPath,
          path := Some(memImage), status := CALCULATING)]
    else []
  }

  /** What profile detection (web/views.py:123-145) settles on, or how it
      stops. */
  datatype Detection = Found(profile: string) | Stopped(outcome: SetupOutcome)

  function Detect(kdbg: Option<Table>): Detection
  {
    match KdbgText(kdbg)
    case None => Stopped(SetupRaised)
    case Some(text) =>
      match Suggestions(Split(text, "\n"))
      case None => Stopped(SetupRaised)
      case Some(ps) => if ps == [] then Stopped(MainPage(NO_PROFILE)) else Found(ps[0])
  }

  /** web/views.py:81-163 for session record `s`; `imageExists` is
      `os.path.exists(mem_image)`, `md5` the image's checksum and `kdbg`
      what kdbgscan returns, `catalog` what `list_plugins()` gives for a
      profile (None when it raises). */
  function SetupSpec(s: SessionRecord, post: Post, memImage: string, imageExists: bool, md5: string,
                     kdbg: Option<Table>, catalog: string -> Option<seq<CatalogEntry>>): Setup
  {
    if !imageExists then
      Setup(if "sess_path" in post then MainPage(NO_IMAGE + post["sess_path"]) else SetupRaised, [], None)
    else
      var s4 := Staged(s, post, memImage, md5);
      var w1 := Hashing(s, post, memImage);
      var requested := RequestedProfile(post);
      if requested.Some? && requested.value != [] then Settled(s4, w1, requested.value, catalog(requested.value))
      else
        var s5 := s4.(status := DETECTING);
        match Detect(kdbg)
        case Stopped(o) => Setup(o, w1 + [s5], None)
        case Found(p) => Settled(s5, w1 + [s5], p, catalog(p))
  }

  /** The session collection after writing `writes` to record `id`. */
  function AfterWrites(sessions: seq<SessionRecord>, id: nat, writes: seq<SessionRecord>): (r: seq<SessionRecord>)
    ensures writes == [] ==> r == sessions
  {
    if writes == [] || id >= |sessions| then sessions else sessions[id := writes[|writes| - 1]]
  }

  /** The status log entries of those writes. */
  function WriteLog(id: nat, writes: seq<SessionRecord>): (log: seq<(nat, string)>)
    ensures |log| == |writes| && forall k :: 0 <= k < |log| ==> log[k] == (id, writes[k].status)
  {
    seq(|writes|, k requires 0 <= k < |writes| => (id, writes[k].status))
  }

  /** One more session write to record `id` of the collection that was
      `before` the set-up. */
  method Write(sessions: SessionCollection, id: nat, r: SessionRecord, ghost before: seq<SessionRecord>,
               ghost log: seq<(nat, string)>, ghost writes: seq<SessionRecord>)
    requires id < |before| && sessions.sessions == AfterWrites(before, id, writes)
    requires sessions.statusLog == log + WriteLog(id, writes)
    modifies sessions
    ensures sessions.sessions == AfterWrites(before, id, writes + [r])
    ensures sessions.statusLog == log + WriteLog(id, writes + [r])
  {
    sessions.Update(id, r);
  }

  /** web/views.py:81-115 once the image is found: the record is staged,
      with the 'Calculating MD5' write when a checksum is asked for. */
  method Stage(sessions: SessionCollection, id: nat, post: Post, memImage: string, md5: string)
    returns (s: SessionRecord)
    requires id < |sessions.sessions|
    modifies sessions
    ensures s == Staged(old(sessions.sessions[id]), post, memImage, md5)
    ensures sessions.sessions == AfterWrites(old(sessions.sessions), id, Hashing(old(sessions.sessions[id]), post, memImage))
    ensures sessions.statusLog == old(sessions.statusLog) + WriteLog(id, Hashing(old(sessions.sessions[id]), post, memImage))
  {
    s := sessions.sessions[id];
    if "description" in post {
      s := s.(description := Some(post["description"]));
    }
    if "plugin_path" in post {
      s := s.(pluginPath := Some(post["plugin_path"]));
    }
    s := s.(path := Some(memImage));
    if "file_hash" in post {
      s := s.(status := CALCULATING);
      Write(sessions, id, s, old(sessions.sessions), old(sessions.statusLog), []);
      s := s.(fileHash := md5);
    }
    var profile := RequestedProfile(post);
    if profile.Some? {
      s := s.(profile := profile.value);
    }
  }

  /** web/views.py:128-143: kdbgscan's text is split into lines and the
      first suggestion taken. */
  method DetectProfile(kdbg: Option<Table>) returns (d: Detection)
    ensures d == Detect(kdbg)
  {
    var text := KdbgText(kdbg);
    if text.None? {
      return Stopped(SetupRaised);
    }
    var profiles := ParseSuggestions(text.value);
    if profiles.None? {
      return Stopped(SetupRaised);
    }
    if profiles.value == [] {
      return Stopped(MainPage(NO_PROFILE));
    }
    return Found(profiles.value[0]);
  }

  /** session_creation(request, mem_image, session_id). `catalog` gives
      `list_plugins()` for a profile (None when it raises), `drop` is `plugin_filters['drop']`,
      `autorun` and `configured` the configuration's autorun flag and plugin
      list. The result lists the plugin record ids a job is started for. */
  method SessionCreation(sessions: SessionCollection, plugins: PluginCollection, post: Post, memImage: string,
                         sessionId: nat, imageExists: bool, md5: string, kdbg: Option<Table>,
                         catalog: string -> Option<seq<CatalogEntry>>, drop: seq<string>, autorun: string,
                         configured: string)
    returns (outcome: SetupOutcome, jobs: seq<nat>)
    requires sessionId < |sessions.sessions|
    modifies sessions, plugins
    ensures var r := SetupSpec(old(sessions.sessions[sessionId]), post, memImage, imageExists, md5, kdbg, catalog);
      && outcome == r.outcome
      && sessions.sessions == AfterWrites(old(sessions.sessions), sessionId, r.writes)
      && sessions.statusLog == old(sessions.statusLog) + WriteLog(sessionId, r.writes)
      && plugins.statusLog == old(plugins.statusLog)
      && (r.profile.None? ==> plugins.records == old(plugins.records) && jobs == [])
      && (r.profile.Some? ==>
            && catalog(r.profile.value).Some?
            && var entries := catalog(r.profile.value).value;
            && plugins.records == old(plugins.records) + NewRecords(sessionId, entries, drop)
            && jobs == Jobs(|old(plugins.records)|, sessionId, entries, drop, AutoList(autorun, configured, post)))
  {
    hide Staged, Hashing, Detect, NewRecords, Jobs, AutoList, AfterWrites, WriteLog;
    jobs := [];
    if !imageExists {
      if "sess_path" !in post {
        return SetupRaised, jobs;
      }
      return MainPage(NO_IMAGE + post["sess_path"]), jobs;
    }
    ghost var before := sessions.sessions;
    ghost var log := sessions.statusLog;
    ghost var writes := Hashing(before[sessionId], post, memImage);
    var s := Stage(sessions, sessionId, post, memImage, md5);
    var profile := RequestedProfile(post);
    if profile.None? || profile.value == [] {
      s := s.(status := DETECTING);
      Write(sessions, sessionId, s, before, log, writes);
      writes := writes + [s];
      var d := DetectProfile(kdbg);
      if d.Stopped? {
        return d.outcome, jobs;
      }
      profile := Some(d.profile);
    }
    var listed := catalog(profile.value);
    if listed.None? {
      return SetupRaised, jobs;
    }
    s := s.(profile := profile.value, imageInfo := Some(map[]), status := COMPLETE);
    Write(sessions, sessionId, s, before, log, writes);
    writes := writes + [s];
    var auto := MergeAutorun(autorun, configured, post);
    jobs := CreateRecords(plugins, sessionId, listed.value, drop, auto);
    outcome := Done;
  }

  /** When kdbgscan suggests no profile, the session is left at status
      'Detecting Profile' and no plugin record is made. */
  lemma NoSuggestionLeavesDetecting(s: SessionRecord, post: Post, memImage: string, md5: string, kdbg: Option<Table>,
                                    catalog: string -> Option<seq<CatalogEntry>>)
    requires RequestedProfile(post).None? || RequestedProfile(post).value == []
    requires KdbgText(kdbg).Some? && Suggestions(Split(KdbgText(kdbg).value, "\n")) == Some([])
    ensures var r := SetupSpec(s, post, memImage, true, md5, kdbg, catalog);
      && r.outcome == MainPage(NO_PROFILE) && r.profile.None?
      && r.writes != [] && r.writes[|r.writes| - 1].status == DETECTING
  {
  }

  /** When `list_plugins()` raises for the settled profile, the set-up
      raises with no 'Complete' write and no plugin record. */
  lemma ListingFailureLeavesIncomplete(s: SessionRecord, post: Post, memImage: string, md5: string,
                                       kdbg: Option<Table>, catalog: string -> Option<seq<CatalogEntry>>, p: string)
    requires var requested := RequestedProfile(post);
      if requested.Some? && requested.value != [] then p == requested.value else Detect(kdbg) == Found(p)
    requires catalog(p).None?
    ensures var r := SetupSpec(s, post, memImage, true, md5, kdbg, catalog);
      && r.outcome == SetupRaised && r.profile.None?
      && forall k :: 0 <= k < |r.writes| ==> r.writes[k].status != COMPLETE
  {
    var r := SetupSpec(s, post, memImage, true, md5, kdbg, catalog);
    assert |CALCULATING| == 15 && |DETECTING| == 17 && |COMPLETE| == 8;
    var w1 := Hashing(s, post, memImage);
    assert w1 != [] ==> |w1| == 1 && w1[0].status == CALCULATING;
    forall k | 0 <= k < |r.writes|
      ensures r.writes[k].status != COMPLETE
    {
      assert r.writes[k].status in {CALCULATING, DETECTING};
    }
  }

  /** A set-up that reaches the plugin records ends with status 'Complete',
      the settled profile and empty image info written, after 'Detecting
      Profile' exactly when the form named no profile. */
  lemma DoneEndsComplete(s: SessionRecord, post: Post, memImage: string, imageExists: bool, md5: string,
                         kdbg: Option<Table>, catalog: string -> Option<seq<CatalogEntry>>)
    ensures var r := SetupSpec(s, post, memImage, imageExists, md5, kdbg, catalog);
      r.outcome == Done ==>
        && r.profile.Some? && r.writes != []
        && var last := r.writes[|r.writes| - 1];
        && last.status == COMPLETE && last.profile == r.profile.value && last.imageInfo == Some(map[])
        && last.path == Some(memImage)
        && (RequestedProfile(post).Some? && RequestedProfile(post).value != [] <==>
              forall k :: 0 <= k < |r.writes| ==> r.writes[k].status != DETECTING)
        && ("file_hash" in post <==> r.writes[0].status == CALCULATING)
  {
    var r := SetupSpec(s, post, memImage, imageExists, md5, kdbg, catalog);
    if r.outcome == Done {
      assert |CALCULATING| == 15 && |DETECTING| == 17 && |COMPLETE| == 8;
      var w1 := Hashing(s, post, memImage);
      assert "file_hash" in post <==> w1 != [];
      assert w1 != [] ==> |w1| == 1 && w1[0].status == CALCULATING;
      var requested := RequestedProfile(post);
      if requested.Some? && requested.value != [] {
        assert r.writes == w1 + [r.writes[|r.writes| - 1]];
      } else {
        var s5 := Staged(s, post, memImage, md5).(status := DETECTING);
        assert Detect(kdbg).Found?;
        assert r.writes == w1 + [s5] + [r.writes[|r.writes| - 1]];
        assert r.writes[|w1|].status == DETECTING;
      }
    }
  }
}
