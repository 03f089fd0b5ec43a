/** The records `run_plugin` and the AJAX requests read and write: result tables, plugin run
    records, sessions and stored artifacts, and the three collections of the
    record store (plugin records, sessions, and the file store) as objects
    whose methods are the single-record updates the views perform. */
module Tables {
  import opened PyStr
  import opened Common

  datatype Option<+T> = None | Some(value: T)

  /** A cell of a result row: the engine and the post-processor put strings
      and integers into rows. */
  datatype Cell = Text(s: string) | Num(n: int)

  /** `str(cell)` */
  function CellText(c: Cell): string
  {
    match c
    case Text(s) => s
    case Num(n) => IntText(n)
  }

  /** A plugin's output: `{'columns': [...], 'rows': [[...], ...]}`. */
  datatype Table = Table(columns: seq<string>, rows: seq<seq<Cell>>)

  /** The `status` field of a plugin record; `Unset` is Python's None. */
  datatype Status = Unset | Processing | Completed | Error

  datatype PluginRecord = PluginRecord(
    sessionId: nat,
    name: string,
    help: string,
    created: Option<int>,
    output: Option<Table>,
    status: Status,
    bookmarks: Option<seq<int>>)

  /** A new record as session creation and plugin polling write it:
      no output, no status, no `bookmarks` key. */
  function FreshRecord(sessionId: nat, name: string, help: string): (r: PluginRecord)
    ensures r.output.None? && r.status == Unset && r.bookmarks.None?
    ensures r.sessionId == sessionId && r.name == name && r.help == help
  {
    PluginRecord(sessionId, name, help, None, None, Unset, None)
  }

  /** A file stored in GridFS by `db.create_file(data, sess_id, sha256, filename)`. */
  datatype StoredFile = StoredFile(data: Bytes, sessionId: nat, sha256: string, filename: string)

  /** A session document. `create_session` writes the name, both times, the
      placeholder hash, the status and the requested profile;
      `session_creation` adds the description, plugin path, image path, hash,
      profile and image info. `run_plugin` writes its timestamp under the key
      'modifed' (so spelled), which is a field of its own: 'modified' keeps
      the creation time. */
  datatype SessionRecord = SessionRecord(
    name: string,
    created: int,
    modified: int,
    fileHash: string,
    status: string,
    profile: string,
    description: Option<string>,
    pluginPath: Option<string>,
    path: Option<string>,
    imageInfo: Option<map<string, string>>,
    modifed: Option<int>)

  /** The "File Details" link a row gets for a stored file. */
  function FileLink(fileId: nat): string
  {
    LINK_OPEN + Decimal(fileId) + LINK_CLOSE
  }

  const LINK_OPEN: string := "<a class=\"text-success\" href=\"#\" onclick=\"ajaxHandler('filedetails', {'file_id':'"
  const LINK_CLOSE: string := "'}, false ); return false\">File Details</a>"

  /** The plugin collection. Every status write is also recorded in
      `statusLog`, in order, so that the sequence of statuses a run writes can
      be stated. */
  class PluginCollection {
    var records: seq<PluginRecord>
    ghost var statusLog: seq<(nat, Status)>

    constructor ()
      ensures records == [] && statusLog == []
    {
      records := [];
      statusLog := [];
    }

    /** db.create_plugin(record) */
    method Create(r: PluginRecord) returns (id: nat)
      modifies this
      ensures id == |old(records)|
      ensures records == old(records) + [r] && statusLog == old(statusLog)
    {
      id := |records|;
      records := records + [r];
    }

    /** db.update_plugin(id, {'status': s}); an unknown id matches nothing. */
    method SetStatus(id: nat, s: Status)
      modifies this
      ensures records == if id < |old(records)| then old(records)[id := old(records)[id].(status := s)] else old(records)
      ensures statusLog == old(statusLog) + [(id, s)]
    {
      if id < |records| {
        records := records[id := records[id].(status := s)];
      }
      statusLog := statusLog + [(id, s)];
    }

    /** db.update_plugin(id, {'created': now, 'plugin_output': t, 'status': 'completed'}) */
    method StoreOutput(id: nat, t: Table, now: int)
      modifies this
      ensures records == if id < |old(records)| then old(records)[id := old(records)[id].(created := Some(now), output := Some(t), status := Completed)] else old(records)
      ensures statusLog == old(statusLog) + [(id, Completed)]
    {
      if id < |records| {
        records := records[id := records[id].(created := Some(now), output := Some(t), status := Completed)];
      }
      statusLog := statusLog + [(id, Completed)];
    }

    /** db.update_plugin(id, {'created': None, 'plugin_output': None, 'status': None}) */
    method Reset(id: nat)
      modifies this
      ensures records == if id < |old(records)| then old(records)[id := old(records)[id].(created := None, output := None, status := Unset)] else old(records)
      ensures statusLog == old(statusLog) + [(id, Unset)]
    {
      if id < |records| {
        records := records[id := records[id].(created := None, output := None, status := Unset)];
      }
      statusLog := statusLog + [(id, Unset)];
    }

    /** db.update_plugin(id, {'bookmarks': bs}) */
    method SetBookmarks(id: nat, bs: seq<int>)
      modifies this
      ensures records == if id < |old(records)| then old(records)[id := old(records)[id].(bookmarks := Some(bs))] else old(records)
      ensures statusLog == old(statusLog)
    {
      if id < |records| {
        records := records[id := records[id].(bookmarks := Some(bs))];
      }
    }

    /** db.update_plugin(id, details) where `details` is the record read
        before with its output rows replaced. */
    method SetOutput(id: nat, t: Table)
      modifies this
      ensures records == if id < |old(records)| then old(records)[id := old(records)[id].(output := Some(t))] else old(records)
      ensures statusLog == old(statusLog)
    {
      if id < |records| {
        records := records[id := records[id].(output := Some(t))];
      }
    }
  }

  /** GridFS: stored files by id, and the ids dropped since. */
  class FileStore {
    var files: seq<StoredFile>
    var dropped: set<nat>

    constructor ()
      ensures files == [] && dropped == {}
    {
      files := [];
      dropped := {};
    }

    /** db.create_file(data, sess_id, sha256, filename): the id of the new file. */
    method Create(data: Bytes, sessionId: nat, sha256: string, filename: string) returns (id: nat)
      modifies this
      ensures id == |old(files)|
      ensures files == old(files) + [StoredFile(data, sessionId, sha256, filename)]
      ensures dropped == old(dropped)
    {
      id := |files|;
      files := files + [StoredFile(data, sessionId, sha256, filename)];
    }

    /** db.drop_file(id) */
    method Drop(id: nat)
      modifies this
      ensures files == old(files) && dropped == old(dropped) + {id}
    {
      dropped := dropped + {id};
    }
  }

  /** The session collection; `statusLog` records every status written. */
  class SessionCollection {
    var sessions: seq<SessionRecord>
    ghost var statusLog: seq<(nat, string)>

    constructor ()
      ensures sessions == [] && statusLog == []
    {
      sessions := [];
      statusLog := [];
    }

    /** db.create_session(record) */
    method Create(r: SessionRecord) returns (id: nat)
      modifies this
      ensures id == |old(sessions)|
      ensures sessions == old(sessions) + [r] && statusLog == old(statusLog) + [(id, r.status)]
    {
      id := |sessions|;
      sessions := sessions + [r];
      statusLog := statusLog + [(id, r.status)];
    }

    /** db.update_session(id, record) with the whole record written back. */
    method Update(id: nat, r: SessionRecord)
      modifies this
      ensures sessions == if id < |old(sessions)| then old(sessions)[id := r] else old(sessions)
      ensures statusLog == old(statusLog) + [(id, r.status)]
    {
      if id < |sessions| {
        sessions := sessions[id := r];
      }
      statusLog := statusLog + [(id, r.status)];
    }

    /** db.update_session(id, {'modifed': now}), with 'image_info' added
        when `info` is given; 'modified' is left as it was. */
    method Touch(id: nat, now: int, info: Option<map<string, string>>)
      modifies this
      ensures sessions == if id < |old(sessions)| then old(sessions)[id := old(sessions)[id].(
                            modifed := Some(now), imageInfo := if info.Some? then info else old(sessions)[id].imageInfo)]
                          else old(sessions)
      ensures statusLog == old(statusLog)
    {
      if id < |sessions| {
        var r := sessions[id];
        sessions := sessions[id := r.(modifed := Some(now), imageInfo := if info.Some? then info else r.imageInfo)];
      }
    }
  }
}
