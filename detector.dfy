/**
  The configuration directory as an abstract file system, and the change
  detector (`_is_modified`): an attribute update whose payload names a file
  is skipped when the payload's timestamp is not newer than that file's
  modification time.
 */
module ChangeDetector {
  import opened Json

  /**
    A file of the configuration directory: its parsed content (`None` for an
    empty or unparsable file, e.g. one truncated by an open for writing that
    was never completed) and its modification time in whole milliseconds.
   */
  datatype FileEntry = FileEntry(data: Option<Json>, mtimeMs: int)

  /** Paths are relative to the gateway's configuration directory. */
  type FileSystem = map<string, FileEntry>

  /** `_modifiable_static_attrs`: attributes whose file is fixed. */
  function StaticPath(attr: string): Option<string> {
    if attr == "logs_configuration" then Some("logs.json") else None
  }

  /**
    `config.get('configuration') or static.get(attr)`, with the AttributeError
    of a payload that is not a dictionary turned into "no path".
   */
  function FilePathOf(attr: string, payload: Json): Option<Json> {
    match payload
    case JObj(m) =>
      var c := MapGet(m, "configuration", JNull);
      if Truthy(c) then Some(c)
      else (match StaticPath(attr)
            case Some(p) => Some(JStr(p))
            case None => None)
    case _ => None
  }

  /** `config.get('ts', 0)` as an operand of `<=` against an integer. */
  function Timestamp(m: map<string, Json>): Result<int> {
    match MapGet(m, "ts", JInt(0))
    case JInt(i) => Ok(i)
    case JBool(b) => Ok(if b then 1 else 0)
    case _ => Err(TypeError)
  }

  /**
    `_is_modified`. The payload timestamp is read before the file's
    modification time, but the comparison (which raises for a
    non-numeric timestamp) only happens once the modification time was
    read, and a missing file (OSError) is caught and reports "modified".
   */
  function IsModified(attr: string, payload: Json, fs: FileSystem): (r: Result<bool>)
    ensures !payload.JObj? ==> r == Ok(true)
    ensures (payload.JObj? && !Truthy(MapGet(payload.fields, "configuration", JNull)) && attr != "logs_configuration")
              ==> r == Ok(true)
    ensures r == Ok(false) <==>
              (exists p :: FilePathOf(attr, payload) == Some(JStr(p)) && p in fs
                 && Timestamp(payload.fields).Ok? && Timestamp(payload.fields).value <= fs[p].mtimeMs)
    ensures (exists p :: FilePathOf(attr, payload) == Some(JStr(p)) && p !in fs) ==> r == Ok(true)
    ensures var path := FilePathOf(attr, payload);
            r.Err? <==> payload.JObj? && path.Some?
                        && (!path.value.JStr? || (path.value.s in fs && Timestamp(payload.fields).Err?))
    ensures r.Err? ==> r.exc == TypeError
  {
    match FilePathOf(attr, payload)
    case None => Ok(true)
    case Some(p) =>
      if !p.JStr? then Err(TypeError)
      else if p.s !in fs then Ok(true)
      else
        var ts :- Timestamp(payload.fields);
        Ok(!(ts <= fs[p.s].mtimeMs))
  }

  /**
    Re-submitting a payload does not make it look modified once the file it
    names was written at or after the payload's timestamp.
   */
  lemma UnmodifiedAfterWrite(attr: string, payload: Json, fs: FileSystem, p: string, e: FileEntry)
    requires FilePathOf(attr, payload) == Some(JStr(p))
    requires Timestamp(payload.fields).Ok? && Timestamp(payload.fields).value <= e.mtimeMs
    ensures IsModified(attr, payload, fs[p := e]) == Ok(false)
  {
  }
}
