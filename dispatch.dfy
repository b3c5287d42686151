/**
  The ordered handler table of the dispatcher and the decision it takes for
  one attribute of a request: tombstones are skipped, unmodified payloads are
  skipped, and otherwise the first pattern in table order that fully matches
  the key selects the handler.
 */
module Dispatch {
  import opened Json
  import opened ChangeDetector

  datatype HandlerKind =
    | GeneralConfiguration
    | StorageConfiguration
    | GrpcConfiguration
    | LogsConfiguration
    | ActiveConnectors
    | RemoteLoggingLevel
    | ConnectorConfiguration

  /**
    A handler-table pattern under `fullmatch`. The six domain patterns contain
    no regular-expression metacharacters, so they match exactly their own
    text. The catch-all `(?=\D*\d?).*` has a look-ahead that always succeeds,
    and `.` does not match a line feed, so it matches every key without one.
   */
  datatype Pattern = Literal(text: string) | AnyLine

  predicate FullMatch(p: Pattern, key: string) {
    match p
    case Literal(t) => key == t
    case AnyLine => '\n' !in key
  }

  /** `self._handlers`, in insertion order. */
  const HandlerTable: seq<(Pattern, HandlerKind)> := [
    (Literal("general_configuration"), GeneralConfiguration),
    (Literal("storage_configuration"), StorageConfiguration),
    (Literal("grpc_configuration"), GrpcConfiguration),
    (Literal("logs_configuration"), LogsConfiguration),
    (Literal("active_connectors"), ActiveConnectors),
    (Literal("RemoteLoggingLevel"), RemoteLoggingLevel),
    (AnyLine, ConnectorConfiguration)
  ]

  /** The handler of the first entry of `table` whose pattern fully matches `key`. */
  function FirstMatch(table: seq<(Pattern, HandlerKind)>, key: string): Option<HandlerKind> {
    if table == [] then None
    else if FullMatch(table[0].0, key) then Some(table[0].1)
    else FirstMatch(table[1..], key)
  }

  function Route(key: string): Option<HandlerKind> {
    FirstMatch(HandlerTable, key)
  }

  /** The attribute names that have a domain handler of their own. */
  const NamedKeys: map<string, HandlerKind> := map[
    "general_configuration" := GeneralConfiguration,
    "storage_configuration" := StorageConfiguration,
    "grpc_configuration" := GrpcConfiguration,
    "logs_configuration" := LogsConfiguration,
    "active_connectors" := ActiveConnectors,
    "RemoteLoggingLevel" := RemoteLoggingLevel
  ]

  /**
    Dispatch priority: a named key always reaches its own domain handler and
    never the connector handler; every other key without a line feed reaches
    the connector handler; a key with a line feed matches nothing.
   */
  lemma {:induction false} RouteSpec(key: string)
    ensures key in NamedKeys ==> Route(key) == Some(NamedKeys[key])
    ensures key !in NamedKeys && '\n' !in key ==> Route(key) == Some(ConnectorConfiguration)
    ensures key !in NamedKeys && '\n' in key ==> Route(key) == None
    ensures Route(key) == Some(ConnectorConfiguration) <==> key !in NamedKeys && '\n' !in key
  {
    var t := HandlerTable;
    forall i | 0 <= i < |t| ensures FirstMatch(t[i..], key) ==
        if FullMatch(t[i].0, key) then Some(t[i].1) else FirstMatch(t[i + 1..], key)
    {
      assert t[i..][0] == t[i] && t[i..][1..] == t[i + 1..];
    }
    assert FirstMatch(t[7..], key) == None;
    assert t[0..] == t;
    var m := [FirstMatch(t[0..], key), FirstMatch(t[1..], key), FirstMatch(t[2..], key),
              FirstMatch(t[3..], key), FirstMatch(t[4..], key), FirstMatch(t[5..], key),
              FirstMatch(t[6..], key)];
  }

  /** The handler-table scan of `process_config_request`: first match wins. */
  method MatchHandler(key: string) returns (h: Option<HandlerKind>)
    ensures h == Route(key)
  {
    var i := 0;
    h := None;
    while i < |HandlerTable|
      invariant 0 <= i <= |HandlerTable|
      invariant Route(key) == FirstMatch(HandlerTable[i..], key)
    {
      if FullMatch(HandlerTable[i].0, key) {
        h := Some(HandlerTable[i].1);
        return;
      }
      assert HandlerTable[i..][1..] == HandlerTable[i + 1..];
      i := i + 1;
    }
  }

  /** Keys carrying the deletion marker are tombstones and are never processed. */
  predicate IsTombstone(key: string) { IsSubstring("deleted", key) }

  /**
    What the dispatcher does with one attribute against the current files:
    `Ok(None)` skips it, `Ok(Some(h))` calls handler `h`, `Err` is the
    exception the change detector raised.
   */
  function Decide(key: string, payload: Json, fs: FileSystem): (r: Result<Option<HandlerKind>>)
    ensures IsTombstone(key) ==> r == Ok(None)
    ensures r.Ok? && r.value.Some? ==>
              !IsTombstone(key) && IsModified(key, payload, fs) == Ok(true) && Route(key) == r.value
    ensures !IsTombstone(key) && IsModified(key, payload, fs) == Ok(false) ==> r == Ok(None)
    ensures !IsTombstone(key) && IsModified(key, payload, fs) == Ok(true) ==> r == Ok(Route(key))
    ensures !IsTombstone(key) && IsModified(key, payload, fs).Err? ==> r == Err(IsModified(key, payload, fs).exc)
    ensures r.Err? ==> r.exc == TypeError
  {
    if IsTombstone(key) then Ok(None)
    else
      var modified :- IsModified(key, payload, fs);
      if !modified then Ok(None) else Ok(Route(key))
  }

  /**
    A modified, non-tombstone `active_connectors` (or any other named) update
    is handed to its own handler, never to the connector handler.
   */
  lemma NamedKeyNeverReachesConnectorHandler(key: string, payload: Json, fs: FileSystem)
    requires key in NamedKeys
    ensures Decide(key, payload, fs) != Ok(Some(ConnectorConfiguration))
    ensures !IsTombstone(key) && IsModified(key, payload, fs) == Ok(true) ==>
              Decide(key, payload, fs) == Ok(Some(NamedKeys[key]))
  {
    RouteSpec(key);
  }
}
