/** `run_plugin` (web/views.py:371-680): the invocation ladder, the dump
    directory post-processing, the normalisation of the result table, the
    imageinfo parsing and the final writes, over the plugin and session
    collections, the file store and the scratch directories on disk. */
module RunPlugin {
  import opened PyStr
  import opened Common
  import opened Tables
  import opened Ladder
  import opened DumpDir
  import opened Normalise

  /** Which of the two final writes raises, with the exception's text. */
  datatype Fault = NoFault | PluginWriteFails(msg: string) | SessionWriteFails(msg: string)

  /** What `run_plugin` returns, or that an exception escaped it. */
  datatype Outcome = Message(text: string) | Escaped

  /** What becomes of the scratch directory of a dump-directory call. */
  datatype DirFate = NoDir | Kept | Removed

  const NO_OUTPUT: string := "Warning: No output from Plugin "
  const STORE_FAILED: string := "Error: Unable to Store Output for "
  const DASH: string := " - "

  function NoOutput(name: string): string
  {
    NO_OUTPUT + name
  }

  function StoreFailed(name: string, msg: string): string
  {
    STORE_FAILED + name + DASH + msg
  }

  /** The text imageinfo's output carries: `results['rows'][0][1]`, which
      raises unless it exists and is a string. */
  predicate HasInfoText(t: Table)
  {
    t.rows != [] && |t.rows[0]| > 1 && t.rows[0][1].Text?
  }

  /** The part of a run after the ladder produced a table: the statuses it
      writes, what it returns, the output it stores, the files it stores, the
      scratch directory's fate and the session update (`None` when none is
      written; `Some(info)` when 'modifed' is written, with the image info if
      any). */
  datatype Tail = Tail(
    statuses: seq<Status>,
    outcome: Outcome,
    output: Option<Table>,
    stored: seq<StoredFile>,
    dir: DirFate,
    touch: Option<Option<map<string, string>>>)

  /** web/views.py:607-661: the normalised table and the image info, or
      None when an exception escapes. */
  function Shaped(rawName: string, pluginId: nat, t: Table): Option<(Table, map<string, string>)>
  {
    var name := Lower(rawName);
    match NormalTable(rawName, name, pluginId, t)
    case None => None
    case Some(t2) =>
      if name != "imageinfo" then Some((t2, map[]))
      else if !HasInfoText(t2) then None
      else Some((t2, ImageInfoOf(Split(t2.rows[0][1].s, "\n"))))
  }

  /** web/views.py:663-680: the final writes for table `t` and image info
      `info`; `image_info` is written only when it is not empty. */
  function FinalWrites(rawName: string, t: Table, info: map<string, string>, fault: Fault): (r: Tail)
    ensures r.stored == [] && r.dir == NoDir
  {
    var name := Lower(rawName);
    match fault
    case NoFault => Tail([Completed], Message(rawName), Some(t), [], NoDir, Some(if info != map[] then Some(info) else None))
    case PluginWriteFails(m) => Tail([Error], Message(StoreFailed(name, m)), None, [], NoDir, None)
    case SessionWriteFails(m) => Tail([Completed, Error], Message(StoreFailed(name, m)), Some(t), [], NoDir, None)
  }

  /** web/views.py:460-680 for the table `t` the ladder left. */
  function AfterLadder(rawName: string, pluginId: nat, prior: Option<Table>, t: Table, dumpDir: bool,
                       l: Listing, offset: Option<string>, sess: nat, hash: Hasher, id0: nat, fault: Fault): (r: Tail)
    ensures r.dir == NoDir <==> !dumpDir
    ensures r.statuses == [] <==> r.outcome == Escaped
    ensures r.statuses == [] ==> r.output.None? && r.touch.None?
  {
    if !dumpDir then AfterDump(rawName, pluginId, t, [], NoDir, fault)
    else
      var kind := KindOf(rawName);
      var e := DumpExtract(kind, t, l, offset, sess, hash, id0);
      if e.raised then Tail([], Escaped, None, e.stored, Kept, None)
      else AfterDump(rawName, pluginId, DumpTable(kind, prior, t, e), e.stored, Removed, fault)
  }

  /** web/views.py:607-680 for the table `t1` the dump-directory step left,
      the files it stored and what became of the scratch directory. */
  function AfterDump(rawName: string, pluginId: nat, t1: Table, stored: seq<StoredFile>, dir: DirFate,
                     fault: Fault): (r: Tail)
    ensures r.dir == dir && r.stored == stored
    ensures r.statuses == [] <==> r.outcome == Escaped
    ensures r.statuses == [] ==> r.output.None? && r.touch.None?
  {
    match Shaped(rawName, pluginId, t1)
    case None => Tail([], Escaped, None, stored, dir, None)
    case Some((t2, info)) => FinalWrites(rawName, t2, info, fault).(stored := stored, dir := dir)
  }

  /** The run once the plugin record and the session are found and
      'processing' is written: the ladder, then the warning when it left no
      result, or the rest of the run on the table it left. */
  function Proceeded(rawName: string, pluginId: nat, prior: Option<Table>, sessionId: nat, engine: Engine,
                     l: Listing, offset: Option<string>, hash: Hasher, id0: nat, fault: Fault): (r: Tail)
    ensures r.statuses == [] ==> r.output.None? && r.touch.None?
  {
    var run := RunLadder(engine);
    var failed := Failed(run);
    if run.vars.results.None? then
      Tail(failed + [Completed], Message(NoOutput(Lower(rawName))), None, [],
           if run.dumpDir then Kept else NoDir, None)
    else
      var tail := AfterLadder(rawName, pluginId, prior, run.vars.results.value, run.dumpDir,
                              l, offset, sessionId, hash, id0, fault);
      tail.(statuses := failed + tail.statuses)
  }

  /** The status the ladder itself writes: 'error' when the dump-directory
      call raised. */
  function Failed(run: LadderRun): seq<Status>
  {
    if run.dumpFailed then [Error] else []
  }

  /** The session the run names exists and has an image path: the engine
      is made from `session['session_path']` (web/views.py:402), a key only
      a set-up that found the image writes. */
  predicate Imaged(sessions: seq<SessionRecord>, sessionId: nat)
  {
    sessionId < |sessions| && sessions[sessionId].path.Some?
  }

  /** The whole run, from the stored plugin and session records: `[]`
      statuses and `Escaped` when the plugin record is missing; 'processing'
      then `Escaped` when the session is missing or has no image path. */
  function RunSpec(records: seq<PluginRecord>, sessions: seq<SessionRecord>, sessionId: nat, pluginId: nat, engine: Engine,
                   l: Listing, offset: Option<string>, hash: Hasher, id0: nat, fault: Fault): (r: Tail)
  {
    if pluginId >= |records| then Tail([], Escaped, None, [], NoDir, None)
    else if !Imaged(sessions, sessionId) then Tail([Processing], Escaped, None, [], NoDir, None)
    else
      var tail := Proceeded(records[pluginId].name, pluginId, records[pluginId].output, sessionId, engine,
                            l, offset, hash, id0, fault);
      tail.(statuses := [Processing] + tail.statuses)
  }

  /** A plugin that leaves no result (web/views.py:449-454) ends 'completed'
      with the warning, after 'error' when the dump-directory call raised;
      nothing is stored and the scratch directory, if any, is never removed. */
  lemma RunWithoutResult(records: seq<PluginRecord>, sessions: seq<SessionRecord>, sessionId: nat, pluginId: nat, engine: Engine,
                         l: Listing, offset: Option<string>, hash: Hasher, id0: nat, fault: Fault)
    requires pluginId < |records| && Imaged(sessions, sessionId)
    requires RunLadder(engine).vars.results.None?
    ensures var r := RunSpec(records, sessions, sessionId, pluginId, engine, l, offset, hash, id0, fault);
      && r.statuses == [Processing] + (if RunLadder(engine).dumpFailed then [Error] else []) + [Completed]
      && r.outcome == Message(NO_OUTPUT + Lower(records[pluginId].name))
      && r.output.None? && r.stored == [] && r.touch.None?
      && (r.dir == Kept <==> RunLadder(engine).dumpDir) && r.dir != Removed
  {
  }

  /** A run whose table survives every step and whose writes succeed
      (web/views.py:663-672) writes 'processing' then 'completed', stores the
      table, touches the session and returns the plugin's name as stored. */
  lemma RunStoresResult(records: seq<PluginRecord>, sessions: seq<SessionRecord>, sessionId: nat, pluginId: nat, engine: Engine,
                        l: Listing, offset: Option<string>, hash: Hasher, id0: nat, t2: Table, info: map<string, string>)
    requires pluginId < |records| && Imaged(sessions, sessionId)
    requires var run := RunLadder(engine);
      && run.vars.results.Some? && !run.dumpDir
      && Shaped(records[pluginId].name, pluginId, run.vars.results.value) == Some((t2, info))
    ensures var r := RunSpec(records, sessions, sessionId, pluginId, engine, l, offset, hash, id0, NoFault);
      && r.statuses == [Processing, Completed]
      && r.outcome == Message(records[pluginId].name)
      && r.output == Some(t2) && r.stored == [] && r.dir == NoDir
      && r.touch == Some(if info == map[] then None else Some(info))
  {
  }

  /** When the plugin write fails (web/views.py:674-680) the record ends
      'error' with no output stored and the session is not touched; when only
      the session write fails the output is stored and then 'error' written. */
  lemma RunStoreFails(records: seq<PluginRecord>, sessions: seq<SessionRecord>, sessionId: nat, pluginId: nat, engine: Engine,
                      l: Listing, offset: Option<string>, hash: Hasher, id0: nat, fault: Fault)
    requires pluginId < |records| && Imaged(sessions, sessionId) && !fault.NoFault?
    requires RunLadder(engine).vars.results.Some?
    ensures var r := RunSpec(records, sessions, sessionId, pluginId, engine, l, offset, hash, id0, fault);
      r.outcome.Message? ==>
        && r.outcome == Message(STORE_FAILED + Lower(records[pluginId].name) + DASH + fault.msg)
        && r.statuses[|r.statuses| - 1] == Error
        && r.touch.None?
        && (fault.PluginWriteFails? ==> r.output.None?)
  {
    var run := RunLadder(engine);
    var tail := AfterLadder(records[pluginId].name, pluginId, records[pluginId].output, run.vars.results.value,
                            run.dumpDir, l, offset, sessionId, hash, id0, fault);
    var name := records[pluginId].name;
    var kind := KindOf(name);
    var t := run.vars.results.value;
    var e := if run.dumpDir then DumpExtract(kind, t, l, offset, sessionId, hash, id0) else Extracted([], [], false);
    if !e.raised {
      var t1 := if run.dumpDir then DumpTable(kind, records[pluginId].output, t, e) else t;
      match Shaped(name, pluginId, t1)
      case None =>
      case Some((t2, info)) =>
        var st := FinalWrites(name, t2, info, fault);
        assert tail == st.(stored := e.stored, dir := if run.dumpDir then Removed else NoDir);
        assert st.statuses[|st.statuses| - 1] == Error;
    }
  }

  /** An exception that escapes `run_plugin` leaves the record at the last
      status written before it: 'processing', or 'error' from the
      dump-directory call; no output and no session update are written. */
  lemma EscapeLeavesProcessing(records: seq<PluginRecord>, sessions: seq<SessionRecord>, sessionId: nat, pluginId: nat,
                               engine: Engine, l: Listing, offset: Option<string>, hash: Hasher, id0: nat, fault: Fault)
    requires pluginId < |records|
    ensures var r := RunSpec(records, sessions, sessionId, pluginId, engine, l, offset, hash, id0, fault);
      r.outcome == Escaped ==>
        && r.statuses == [Processing] + (if Imaged(sessions, sessionId) then Failed(RunLadder(engine)) else [])
        && r.output.None? && r.touch.None?
  {
  }

  /** The status writes of a run, all to record `id`, as the log shows them. */
  function Tagged(id: nat, statuses: seq<Status>): (r: seq<(nat, Status)>)
    ensures |r| == |statuses| && forall k :: 0 <= k < |r| ==> r[k] == (id, statuses[k])
  {
    seq(|statuses|, k requires 0 <= k < |statuses| => (id, statuses[k]))
  }

  /** The plugin record after the run's writes: its last status, and the
      output and time when the output was stored. */
  function Applied(records: seq<PluginRecord>, id: nat, r: Tail, now: int): seq<PluginRecord>
  {
    if id >= |records| || r.statuses == [] then records
    else
      var rec := records[id].(status := r.statuses[|r.statuses| - 1]);
      records[id := if r.output.Some? then rec.(created := Some(now), output := r.output) else rec]
  }

  /** The session after the run's update. */
  function Touched(sessions: seq<SessionRecord>, id: nat, r: Tail, now: int): (t: seq<SessionRecord>)
    ensures r.touch.None? ==> t == sessions
  {
    if r.touch.None? || id >= |sessions| then sessions
    else
      var info := r.touch.value;
      sessions[id := sessions[id].(modifed := Some(now), imageInfo := if info.Some? then info else sessions[id].imageInfo)]
  }

  /** The normalisation and imageinfo steps; they change nothing stored. */
  method Shape(rawName: string, pluginId: nat, t: Table) returns (r: Option<(Table, map<string, string>)>)
    ensures r == Shaped(rawName, pluginId, t)
  {
    var name := Lower(rawName);
    if t.columns == [] {
      return None;
    }
    var columns := NormalColumns(rawName, t.columns).value;
    var rows := NumberRows(rawName, name, pluginId, t.rows);
    var results := Table(columns, rows);
    var info: map<string, string> := map[];
    if name == "imageinfo" {
      if !HasInfoText(results) {
        return None;
      }
      info := ParseImageInfo(results.rows[0][1].s);
    }
    return Some((results, info));
  }

  /** The final writes of web/views.py:663-680. */
  method Store(plugins: PluginCollection, sessions: SessionCollection, rawName: string, pluginId: nat, sessionId: nat,
               t: Table, info: map<string, string>, now: int, fault: Fault)
    returns (outcome: Outcome)
    modifies plugins, sessions
    ensures var r := FinalWrites(rawName, t, info, fault);
      && outcome == r.outcome
      && plugins.statusLog == old(plugins.statusLog) + Tagged(pluginId, r.statuses)
      && plugins.records == Applied(old(plugins.records), pluginId, r, now)
      && sessions.sessions == Touched(old(sessions.sessions), sessionId, r, now)
      && sessions.statusLog == old(sessions.statusLog)
  {
    var name := Lower(rawName);
    match fault {
      case NoFault =>
        plugins.StoreOutput(pluginId, t, now);
        sessions.Touch(sessionId, now, if info != map[] then Some(info) else None);
        outcome := Message(rawName);
      case PluginWriteFails(m) =>
        plugins.SetStatus(pluginId, Error);
        outcome := Message(StoreFailed(name, m));
      case SessionWriteFails(m) =>
        plugins.StoreOutput(pluginId, t, now);
        plugins.SetStatus(pluginId, Error);
        outcome := Message(StoreFailed(name, m));
    }
  }

  /** web/views.py:460-680, after the ladder left table `t`; `d` is the
      scratch directory when there is one. */
  method Finish(plugins: PluginCollection, sessions: SessionCollection, store: FileStore, disk: Disk,
                rawName: string, pluginId: nat, sessionId: nat, prior: Option<Table>, t: Table, d: Option<nat>,
                l: Listing, offset: Option<string>, hash: Hasher, now: int, fault: Fault)
    returns (outcome: Outcome, ghost r: Tail)
    requires disk.Valid()
    modifies plugins, sessions, store, disk
    ensures disk.Valid()
    ensures r == AfterLadder(rawName, pluginId, prior, t, d.Some?, l, offset, sessionId, hash, |old(store.files)|, fault)
    ensures && outcome == r.outcome
      && plugins.statusLog == old(plugins.statusLog) + Tagged(pluginId, r.statuses)
      && plugins.records == Applied(old(plugins.records), pluginId, r, now)
      && sessions.sessions == Touched(old(sessions.sessions), sessionId, r, now)
      && sessions.statusLog == old(sessions.statusLog)
      && store.files == old(store.files) + r.stored && store.dropped == old(store.dropped)
      && disk.dirs == (if r.dir == Removed then old(disk.dirs) - {d.value} else old(disk.dirs))
  {
    // The table steps are matched by their callees' contracts, not unfolded.
    hide DumpExtract, DumpTable, NormalTable, ImageInfoOf, Tagged;
    r := AfterLadder(rawName, pluginId, prior, t, d.Some?, l, offset, sessionId, hash, |store.files|, fault);
    var results := t;
    if d.Some? {
      var raised;
      results, raised := ProcessDumpDir(store, rawName, prior, t, l, offset, sessionId, hash);
      if raised {
        return Escaped, r;
      }
      disk.RmTree(d.value);
    }
    var shaped := Shape(rawName, pluginId, results);
    if shaped.None? {
      return Escaped, r;
    }
    outcome := Store(plugins, sessions, rawName, pluginId, sessionId, shaped.value.0, shaped.value.1, now, fault);
  }

  /** `status` written to record `id`, if it exists. */
  function WithStatus(records: seq<PluginRecord>, id: nat, status: Status): seq<PluginRecord>
  {
    if id < |records| then records[id := records[id].(status := status)] else records
  }

  lemma TaggedAppend(id: nat, a: seq<Status>, b: seq<Status>)
    ensures Tagged(id, a) + Tagged(id, b) == Tagged(id, a + b)
  {
  }

  /** Status writes followed by the rest of a run amount to the whole run. */
  lemma AppliedAfterStatus(records: seq<PluginRecord>, id: nat, s: Status, r: Tail, now: int)
    requires r.statuses == [] ==> r.output.None?
    ensures Applied(WithStatus(records, id, s), id, r, now) == Applied(records, id, r.(statuses := [s] + r.statuses), now)
  {
    if id < |records| && r.statuses != [] {
      var full := [s] + r.statuses;
      assert full[|full| - 1] == r.statuses[|r.statuses| - 1];
    }
  }

  /** The ladder's own status write followed by the rest of a run amount
      to the whole run. */
  lemma AppliedAfterFailure(records: seq<PluginRecord>, id: nat, failed: seq<Status>, r: Tail, now: int)
    requires failed == [] || failed == [Error]
    requires r.statuses == [] ==> r.output.None?
    ensures Applied(if failed == [] then records else WithStatus(records, id, Error), id, r, now)
         == Applied(records, id, r.(statuses := failed + r.statuses), now)
  {
    if failed != [] {
      AppliedAfterStatus(records, id, Error, r, now);
    } else {
      assert r.(statuses := failed + r.statuses) == r;
    }
  }

  /** The ladder of web/views.py:405-447, with its one status write (when
      the dump-directory call raises) and the scratch directory it makes. */
  method Invoke(plugins: PluginCollection, disk: Disk, pluginId: nat, engine: Engine, l: Listing)
    returns (results: Option<Table>, d: Option<nat>, ghost run: LadderRun)
    requires disk.Valid()
    modifies plugins, disk
    ensures disk.Valid()
    ensures run == RunLadder(engine)
    ensures && results == run.vars.results
      && (d.Some? <==> run.dumpDir)
      && plugins.statusLog == old(plugins.statusLog) + Tagged(pluginId, Failed(run))
      && plugins.records == (if Failed(run) == [] then old(plugins.records) else WithStatus(old(plugins.records), pluginId, Error))
      && (d.Some? ==> d.value !in old(disk.dirs) && disk.dirs == old(disk.dirs)[d.value := l.contents])
      && (d.None? ==> disk.dirs == old(disk.dirs))
  {
    run := RunLadder(engine);
    d := None;
    var style := Json;
    var vars := Step(engine(style, false), Vars(None, None), false);
    if WantsText(vars.error) {
      style := PlainText;
      vars := Step(engine(style, false), vars, true);
    }
    if WantsDumpDir(vars.error) {
      var dir := disk.MkdTemp();
      d := Some(dir);
      disk.Fill(dir, l.contents);
      var reply := engine(style, true);
      vars := Step(reply, vars, false);
      if reply.Raised? {
        plugins.SetStatus(pluginId, Error);
      }
    }
    results := vars.results;
  }

  /** The rest of a run when the ladder leaves no result. */
  lemma ProceededNoResult(rawName: string, pluginId: nat, prior: Option<Table>, sessionId: nat, engine: Engine,
                          l: Listing, offset: Option<string>, hash: Hasher, id0: nat, fault: Fault)
    requires RunLadder(engine).vars.results.None?
    ensures var run := RunLadder(engine);
      Proceeded(rawName, pluginId, prior, sessionId, engine, l, offset, hash, id0, fault)
        == Tail(Failed(run) + [Completed], Message(NoOutput(Lower(rawName))), None, [],
                if run.dumpDir then Kept else NoDir, None)
  {
  }

  /** The rest of a run when the ladder leaves a result. */
  lemma ProceededWithResult(rawName: string, pluginId: nat, prior: Option<Table>, sessionId: nat, engine: Engine,
                            l: Listing, offset: Option<string>, hash: Hasher, id0: nat, fault: Fault)
    requires RunLadder(engine).vars.results.Some?
    ensures var run := RunLadder(engine);
      var tail := AfterLadder(rawName, pluginId, prior, run.vars.results.value, run.dumpDir,
                              l, offset, sessionId, hash, id0, fault);
      Proceeded(rawName, pluginId, prior, sessionId, engine, l, offset, hash, id0, fault)
        == tail.(statuses := Failed(run) + tail.statuses)
  {
  }

  /** web/views.py:405-680 once the record and the session are found and
      'processing' is written. */
  method Proceed(plugins: PluginCollection, sessions: SessionCollection, store: FileStore, disk: Disk,
                 rawName: string, pluginId: nat, prior: Option<Table>, sessionId: nat, engine: Engine,
                 l: Listing, offset: Option<string>, hash: Hasher, now: int, fault: Fault)
    returns (outcome: Outcome, d: Option<nat>, ghost r: Tail)
    requires disk.Valid()
    modifies plugins, sessions, store, disk
    ensures disk.Valid()
    ensures r == Proceeded(rawName, pluginId, prior, sessionId, engine, l, offset, hash, |old(store.files)|, fault)
    ensures && outcome == r.outcome
      && plugins.statusLog == old(plugins.statusLog) + Tagged(pluginId, r.statuses)
      && plugins.records == Applied(old(plugins.records), pluginId, r, now)
      && sessions.sessions == Touched(old(sessions.sessions), sessionId, r, now)
      && sessions.statusLog == old(sessions.statusLog)
      && store.files == old(store.files) + r.stored && store.dropped == old(store.dropped)
      && (d.None? <==> r.dir == NoDir)
      && (d.Some? ==> d.value !in old(disk.dirs))
      && disk.dirs == (if r.dir == Kept then old(disk.dirs)[d.value := l.contents] else old(disk.dirs))
  {
    // Only the case lemma and the callees' contracts are needed here.
    hide Proceeded, AfterLadder, RunLadder, Lower, NoOutput, Tagged;
    ghost var id0 := |store.files|;
    var results;
    ghost var run;
    results, d, run := Invoke(plugins, disk, pluginId, engine, l);
    if results.None? {
      ProceededNoResult(rawName, pluginId, prior, sessionId, engine, l, offset, hash, id0, fault);
      r := Tail(Failed(run) + [Completed], Message(NoOutput(Lower(rawName))), None, [],
                if run.dumpDir then Kept else NoDir, None);
      plugins.SetStatus(pluginId, Completed);
      TaggedAppend(pluginId, Failed(run), [Completed]);
      return Message(NoOutput(Lower(rawName))), d, r;
    }
    ProceededWithResult(rawName, pluginId, prior, sessionId, engine, l, offset, hash, id0, fault);
    outcome, r := Conclude(plugins, sessions, store, disk, rawName, pluginId, sessionId, prior, results.value, d,
                           l, offset, hash, now, fault, Failed(run), old(plugins.records), old(plugins.statusLog),
                           old(disk.dirs));
  }

  /** Finish, after the ladder wrote the statuses `failed` to a record that
      stood at `records0`, `log0` and `dirs0` before it. */
  method Conclude(plugins: PluginCollection, sessions: SessionCollection, store: FileStore, disk: Disk,
                  rawName: string, pluginId: nat, sessionId: nat, prior: Option<Table>, t: Table, d: Option<nat>,
                  l: Listing, offset: Option<string>, hash: Hasher, now: int, fault: Fault,
                  ghost failed: seq<Status>, ghost records0: seq<PluginRecord>, ghost log0: seq<(nat, Status)>,
                  ghost dirs0: map<nat, map<string, Bytes>>)
    returns (outcome: Outcome, ghost r: Tail)
    requires disk.Valid()
    requires failed == [] || failed == [Error]
    requires plugins.statusLog == log0 + Tagged(pluginId, failed)
    requires plugins.records == (if failed == [] then records0 else WithStatus(records0, pluginId, Error))
    requires d.Some? ==> d.value !in dirs0 && disk.dirs == dirs0[d.value := l.contents]
    requires d.None? ==> disk.dirs == dirs0
    modifies plugins, sessions, store, disk
    ensures disk.Valid()
    ensures var tail := AfterLadder(rawName, pluginId, prior, t, d.Some?, l, offset, sessionId, hash,
                                    |old(store.files)|, fault);
      r == tail.(statuses := failed + tail.statuses)
    ensures && outcome == r.outcome
      && plugins.statusLog == log0 + Tagged(pluginId, r.statuses)
      && plugins.records == Applied(records0, pluginId, r, now)
      && sessions.sessions == Touched(old(sessions.sessions), sessionId, r, now)
      && sessions.statusLog == old(sessions.statusLog)
      && store.files == old(store.files) + r.stored && store.dropped == old(store.dropped)
      && (d.None? <==> r.dir == NoDir)
      && disk.dirs == (if r.dir == Kept then dirs0[d.value := l.contents] else dirs0)
  {
    hide AfterLadder, Tagged;
    ghost var tail;
    outcome, tail := Finish(plugins, sessions, store, disk, rawName, pluginId, sessionId, prior, t, d,
                            l, offset, hash, now, fault);
    r := tail.(statuses := failed + tail.statuses);
    TaggedAppend(pluginId, failed, tail.statuses);
    AppliedAfterFailure(records0, pluginId, failed, tail, now);
    if tail.dir == Removed {
      DropFresh(dirs0, d.value, l.contents);
    }
  }

  /** Removing a directory just made gives back the directories before it. */
  lemma DropFresh<V>(m: map<nat, V>, k: nat, v: V)
    requires k !in m
    ensures m[k := v] - {k} == m
  {
  }

  /** The three ways a run goes, by what the lookups find: no plugin
      record, no session or no image path, or a run that goes ahead. */
  lemma RunSpecCases(records: seq<PluginRecord>, sessions: seq<SessionRecord>, sessionId: nat, pluginId: nat, engine: Engine,
                     l: Listing, offset: Option<string>, hash: Hasher, id0: nat, fault: Fault)
    ensures pluginId >= |records| ==>
      RunSpec(records, sessions, sessionId, pluginId, engine, l, offset, hash, id0, fault)
        == Tail([], Escaped, None, [], NoDir, None)
    ensures pluginId < |records| && !Imaged(sessions, sessionId) ==>
      RunSpec(records, sessions, sessionId, pluginId, engine, l, offset, hash, id0, fault)
        == Tail([Processing], Escaped, None, [], NoDir, None)
    ensures pluginId < |records| && Imaged(sessions, sessionId) ==>
      var tail := Proceeded(records[pluginId].name, pluginId, records[pluginId].output, sessionId, engine,
                            l, offset, hash, id0, fault);
      RunSpec(records, sessions, sessionId, pluginId, engine, l, offset, hash, id0, fault)
        == tail.(statuses := [Processing] + tail.statuses)
  {
  }

  /** run_plugin(session_id, plugin_id, pid, plugin_options). The engine
      stands for the session's profile and image, the pid and the options;
      `l` is what the dump-directory call leaves in the scratch directory,
      `offset` is `plugin_options['PHYSOFFSET']` (None when absent), `now`
      the clock and `fault` the outcome of the two final writes. `d` is the
      scratch directory made, if any. */
  method Run(plugins: PluginCollection, sessions: SessionCollection, store: FileStore, disk: Disk,
             sessionId: nat, pluginId: nat, engine: Engine, l: Listing, offset: Option<string>,
             hash: Hasher, now: int, fault: Fault)
    returns (outcome: Outcome, d: Option<nat>)
    requires disk.Valid()
    modifies plugins, sessions, store, disk
    ensures disk.Valid()
    ensures var r := RunSpec(old(plugins.records), old(sessions.sessions), sessionId, pluginId, engine,
                             l, offset, hash, |old(store.files)|, fault);
      && outcome == r.outcome
      && plugins.statusLog == old(plugins.statusLog) + Tagged(pluginId, r.statuses)
      && plugins.records == Applied(old(plugins.records), pluginId, r, now)
      && sessions.sessions == Touched(old(sessions.sessions), sessionId, r, now)
      && sessions.statusLog == old(sessions.statusLog)
      && store.files == old(store.files) + r.stored && store.dropped == old(store.dropped)
      && (d.None? <==> r.dir == NoDir)
      && (d.Some? ==> d.value !in old(disk.dirs))
      && disk.dirs == (if r.dir == Kept then old(disk.dirs)[d.value := l.contents] else old(disk.dirs))
  {
    // Only the case lemma and the callees' contracts are needed here.
    hide RunSpec, Proceeded, Tagged;
    RunSpecCases(plugins.records, sessions.sessions, sessionId, pluginId, engine,
                 l, offset, hash, |store.files|, fault);
    d := None;
    if pluginId >= |plugins.records| {
      return Escaped, d;
    }
    var rawName := plugins.records[pluginId].name;
    var prior := plugins.records[pluginId].output;
    plugins.SetStatus(pluginId, Processing);
    if sessionId >= |sessions.sessions| || sessions.sessions[sessionId].path.None? {
      return Escaped, d;
    }
    ghost var tail;
    outcome, d, tail := Proceed(plugins, sessions, store, disk, rawName, pluginId, prior, sessionId, engine,
                                l, offset, hash, now, fault);
    TaggedAppend(pluginId, [Processing], tail.statuses);
    AppliedAfterStatus(old(plugins.records), pluginId, Processing, tail, now);
  }
}
