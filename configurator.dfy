/**
  The remote configurator: the state it reconciles (the general
  configuration `_config`, the gateway's available connectors, the
  configuration directory and the acknowledgements published to the
  server), its handlers and the dispatcher that runs them over a request.
 */
module Configurator {
  import opened Json
  import opened Naming
  import opened Projection
  import opened ChangeDetector
  import opened Dispatch
  import opened GeneralConfig
  import opened ConnectorRules

  /** One `send_attributes({key: value})` publication. */
  datatype Ack = Ack(key: Json, value: Json)

  /** Calls into the gateway whose order matters, kept as a log. */
  datatype GatewayCall =
    | InitGrpcService(conf: Json)
    | CloseConnector(name: Json)
    | LoadConnectors(conf: Json)
    | ConnectWithConnectors

  /** The gateway's `_event_storage`. */
  datatype StorageBackend = InitialStorage | StorageOf(kind: string, conf: Json)

  /**
    The collaborators, as oracles fixed for one request: whether each
    gateway call succeeds, which storage types exist, and the clock.
   */
  datatype Env = Env(
    nowMs: nat,
    connectionOk: bool,
    statisticsInitOk: bool,
    deviceFilteringOk: bool,
    remoteShellOk: bool,
    storageTypes: set<string>,
    storageInitOk: bool,
    grpcInitOk: bool,
    loadOk: bool,
    logsOk: bool,
    closeOk: Json -> bool)

  /** How `process_config_request` ends. */
  datatype Outcome =
    | Rejected            // another request was in process
    | Completed           // every attribute was looked at
    | Aborted(caught: Exc) // a KeyError or AttributeError ended the batch
    | Raised(exc: Exc)     // any other exception left the dispatcher

  /** A handler call the dispatcher made, with the files it saw. */
  datatype HandlerCall = HandlerCall(key: string, payload: Json, files: FileSystem, handler: HandlerKind)

  /** The handler call the dispatcher makes for one attribute against the files `fs`, if any. */
  function Selected(key: string, payload: Json, fs: FileSystem): Option<HandlerCall> {
    match Decide(key, payload, fs)
    case Ok(Some(h)) => Some(HandlerCall(key, payload, fs, h))
    case _ => None
  }

  /**
    The handler calls for the attributes of `request`, in order, each
    decided against the files its turn saw (`turns[i]` for attribute `i`).
   */
  function Dispatched(request: seq<(string, Json)>, turns: seq<FileSystem>): seq<HandlerCall>
    requires |turns| == |request|
  {
    if request == [] then []
    else
      var n := |request| - 1;
      Dispatched(request[..n], turns[..n])
      + (match Selected(request[n].0, request[n].1, turns[n]) case Some(c) => [c] case None => [])
  }

  /**
    Every dispatched call is for an attribute of the request, with the
    handler the decision selects, and there are no more calls than
    attributes.
   */
  lemma {:induction false} DispatchedSpec(request: seq<(string, Json)>, turns: seq<FileSystem>)
    requires |turns| == |request|
    ensures |Dispatched(request, turns)| <= |request|
    ensures forall d :: d in Dispatched(request, turns) ==>
              (d.key, d.payload) in request && Decide(d.key, d.payload, d.files) == Ok(Some(d.handler))
  {
    if request != [] {
      var n := |request| - 1;
      DispatchedSpec(request[..n], turns[..n]);
      assert forall x :: x in request[..n] ==> x in request;
    }
  }

  /**
    `turns[i]` are the files attribute `i` of `request` was decided against:
    `dispatched` holds exactly the calls the decisions select, in order, and
    an attribute that selects no handler leaves the files to the next one.
   */
  predicate Trace(request: seq<(string, Json)>, turns: seq<FileSystem>, dispatched: seq<HandlerCall>) {
    |turns| <= |request|
    && dispatched == Dispatched(request[..|turns|], turns)
    && forall j :: 0 <= j < |turns| - 1 && Selected(request[j].0, request[j].1, turns[j]).None? ==> turns[j + 1] == turns[j]
  }

  /** The change detector raised for none of the first `n` attributes. */
  predicate DecidedUpTo(request: seq<(string, Json)>, turns: seq<FileSystem>, n: nat)
    requires n <= |turns| <= |request|
  {
    forall j :: 0 <= j < n ==> Decide(request[j].0, request[j].1, turns[j]).Ok?
  }

  /** One more attribute decided against `f`: the trace grows by its turn and by the call it selects. */
  lemma TraceSnoc(request: seq<(string, Json)>, turns: seq<FileSystem>, dispatched: seq<HandlerCall>, f: FileSystem)
    requires Trace(request, turns, dispatched) && |turns| < |request|
    requires turns != [] && Selected(request[|turns| - 1].0, request[|turns| - 1].1, turns[|turns| - 1]).None? ==>
               f == turns[|turns| - 1]
    ensures var call := Selected(request[|turns|].0, request[|turns|].1, f);
            Trace(request, turns + [f], dispatched + (if call.Some? then [call.value] else []))
    ensures DecidedUpTo(request, turns, |turns|) && Decide(request[|turns|].0, request[|turns|].1, f).Ok? ==>
              DecidedUpTo(request, turns + [f], |turns| + 1)
    ensures DecidedUpTo(request, turns, |turns|) ==> DecidedUpTo(request, turns + [f], |turns|)
  {
    var n := |turns|;
    var t := turns + [f];
    assert request[..n + 1][..n] == request[..n];
    assert t[..n] == turns;
    assert request[..n + 1][n] == request[n];
  }

  const GeneralFile: string := "tb_gateway.json"
  const LogsFile: string := "logs.json"

  /** The connector-close calls for `names`, in order. */
  function CloseCalls(names: seq<Json>): (r: seq<GatewayCall>)
    ensures |r| == |names|
  {
    if names == [] then [] else CloseCalls(names[..|names| - 1]) + [CloseConnector(names[|names| - 1])]
  }

  /** Call `i` of the close log is the close of connector `i`. */
  lemma {:induction false} CloseCallsSpec(names: seq<Json>)
    ensures forall i :: 0 <= i < |names| ==> CloseCalls(names)[i] == CloseConnector(names[i])
  {
    if names != [] {
      var n := |names| - 1;
      CloseCallsSpec(names[..n]);
      assert forall i :: 0 <= i < n ==> names[..n][i] == names[i];
    }
  }

  /** A log ending with the close calls for `names`, extended by one more close. */
  lemma CloseCallsSnoc(log: seq<GatewayCall>, names: seq<Json>, x: Json)
    ensures log + CloseCalls(names + [x]) == (log + CloseCalls(names)) + [CloseConnector(x)]
  {
    assert (names + [x])[..|names|] == names;
  }

  /** The connectors `close()` is called on: in order, up to and including the first that fails. */
  function CloseAttempts(names: seq<Json>, closeOk: Json -> bool): seq<Json> {
    if names == [] then []
    else if !closeOk(names[0]) then [names[0]]
    else [names[0]] + CloseAttempts(names[1..], closeOk)
  }

  predicate AllClose(names: seq<Json>, closeOk: Json -> bool) {
    forall i :: 0 <= i < |names| ==> closeOk(names[i])
  }

  /** When every close succeeds all are attempted; otherwise the attempts stop at the first failure. */
  lemma {:induction false} CloseAttemptsSpec(names: seq<Json>, closeOk: Json -> bool, i: nat)
    requires i <= |names| && forall k :: 0 <= k < i ==> closeOk(names[k])
    ensures i == |names| ==> CloseAttempts(names, closeOk) == names
    ensures i < |names| && !closeOk(names[i]) ==> CloseAttempts(names, closeOk) == names[..i + 1]
  {
    if names != [] && i > 0 {
      assert forall k :: 0 <= k < i - 1 ==> names[1..][k] == names[k + 1];
      CloseAttemptsSpec(names[1..], closeOk, i - 1);
      if i < |names| {
        assert names[..i + 1] == [names[0]] + names[1..][..i];
      }
    } else if names != [] {
      assert names[..1] == [names[0]];
    }
  }

  /**
    The calls of `load_connectors(local)` then `connect_with_connectors()`:
    none when the local format raised, only the load when it may fail and did.
   */
  function ReloadCalls(local: Result<Json>, mayFail: bool, loadOk: bool): seq<GatewayCall> {
    if local.Err? then []
    else if mayFail && !loadOk then [LoadConnectors(local.value)]
    else [LoadConnectors(local.value), ConnectWithConnectors]
  }

  /**
    The calls of the GRPC handler's `try` block: the new service is started,
    the available connectors closed up to the first failing close, the
    connectors reloaded; each step only once the previous one succeeded.
   */
  function SwitchCalls(payload: Json, available: seq<Json>, grpcInitOk: bool, closeOk: Json -> bool,
                       local: Result<Json>, loadOk: bool): seq<GatewayCall> {
    [InitGrpcService(payload)]
    + (if !grpcInitOk then []
       else CloseCalls(CloseAttempts(available, closeOk))
            + (if AllClose(available, closeOk) then ReloadCalls(local, true, loadOk) else []))
  }

  /** The calls of the GRPC handler's `except` block, which are assumed to succeed. */
  function RestoreCalls(current: Json, available: seq<Json>, local: Result<Json>): seq<GatewayCall> {
    [InitGrpcService(current)] + CloseCalls(available) + ReloadCalls(local, false, true)
  }

  /** The switch's calls appended to a log, in the order the `try` block makes them. */
  lemma SwitchCallsAppend(log: seq<GatewayCall>, payload: Json, available: seq<Json>, grpcInitOk: bool,
                          closeOk: Json -> bool, local: Result<Json>, loadOk: bool)
    ensures var sw := log + SwitchCalls(payload, available, grpcInitOk, closeOk, local, loadOk);
            var closes := CloseCalls(CloseAttempts(available, closeOk));
            && (!grpcInitOk ==> sw == log + [InitGrpcService(payload)])
            && (grpcInitOk && !AllClose(available, closeOk) ==> sw == log + [InitGrpcService(payload)] + closes)
            && (grpcInitOk && AllClose(available, closeOk) ==>
                  sw == log + [InitGrpcService(payload)] + closes + ReloadCalls(local, true, loadOk))
  {
    var init := [InitGrpcService(payload)];
    var closes := CloseCalls(CloseAttempts(available, closeOk));
    if grpcInitOk && AllClose(available, closeOk) {
      var tail := ReloadCalls(local, true, loadOk);
      assert SwitchCalls(payload, available, grpcInitOk, closeOk, local, loadOk) == init + (closes + tail);
      assert log + init + closes + tail == log + (init + (closes + tail));
    } else if grpcInitOk {
      assert SwitchCalls(payload, available, grpcInitOk, closeOk, local, loadOk) == init + closes;
    }
  }

  /** A switch in which every call succeeded: the service start, every close, the load and the connect. */
  lemma SwitchSucceededCalls(log: seq<GatewayCall>, payload: Json, available: seq<Json>, closeOk: Json -> bool,
                             local: Result<Json>, loadOk: bool)
    requires AllClose(available, closeOk) && local.Ok?
    ensures log + SwitchCalls(payload, available, true, closeOk, local, loadOk)
         == log + [InitGrpcService(payload)] + CloseCalls(available) + ReloadCalls(local, true, loadOk)
  {
    CloseAttemptsSpec(available, closeOk, |available|);
    SwitchCallsAppend(log, payload, available, true, closeOk, local, loadOk);
  }

  /** The restore's calls appended to a log, in the order the `except` block makes them. */
  lemma RestoreCallsAppend(log: seq<GatewayCall>, current: Json, available: seq<Json>, local: Result<Json>)
    ensures log + RestoreCalls(current, available, local)
         == log + [InitGrpcService(current)] + CloseCalls(available) + ReloadCalls(local, false, true)
  {
  }

  /**
    The calls of restarting connector `name`: its close (only when it is
    available), then, if the close succeeded, the reload.
   */
  function RestartCalls(name: Json, available: seq<Json>, closeOk: Json -> bool, local: Result<Json>,
                        loadOk: bool): seq<GatewayCall> {
    if name !in available then []
    else [CloseConnector(name)] + (if closeOk(name) then ReloadCalls(local, true, loadOk) else [])
  }

  /** The restart's calls appended to a log, in the order the handler makes them. */
  lemma RestartCallsAppend(log: seq<GatewayCall>, name: Json, available: seq<Json>, closeOk: Json -> bool,
                           local: Result<Json>, loadOk: bool)
    ensures var rs := log + RestartCalls(name, available, closeOk, local, loadOk);
            && (name !in available ==> rs == log)
            && (name in available && !closeOk(name) ==> rs == log + [CloseConnector(name)])
            && (name in available && closeOk(name) ==>
                  rs == log + [CloseConnector(name)] + ReloadCalls(local, true, loadOk))
  {
    if name in available && closeOk(name) {
      var tail := ReloadCalls(local, true, loadOk);
      assert log + [CloseConnector(name)] + tail == log + ([CloseConnector(name)] + tail);
    }
  }

  /** `seq` of the entries or `[]`: what `self._config.get('connectors', [])` yields. */
  function ListOf(c: Option<seq<Entry>>): seq<Entry> {
    match c
    case Some(cs) => cs
    case None => []
  }

  /** The connector list after the `connectors_configuration` property has run. */
  function Stripped(c: Option<seq<Entry>>): (r: Option<seq<Entry>>)
    ensures r.Some? <==> c.Some?
    ensures ListOf(r) == StripAll(ListOf(c))
  {
    match c
    case Some(cs) => Some(StripAll(cs))
    case None => None
  }

  lemma StrippedIdempotent(c: Option<seq<Entry>>)
    ensures Stripped(Stripped(c)) == Stripped(c)
  {
    if c.Some? {
      StripAllProperties(c.value);
    }
  }

  /** `_get_general_config_in_local_format`: the four sections written to `tb_gateway.json`. */
  function LocalFormatOf(general: map<string, Json>, storage: map<string, Json>, grpc: Option<map<string, Json>>,
                         cs: seq<Entry>): Result<Json>
  {
    var entries :- LocalConnectors(cs);
    Ok(JObj(map["thingsboard" := JObj(general), "storage" := JObj(storage),
                "grpc" := JObj(grpc.GetOr(map[])), "connectors" := JArr(entries)]))
  }

  /**
    The local format succeeds exactly when every entry has `type`, `name`
    and `configuration`, and raises KeyError otherwise.
   */
  lemma LocalFormatSpec(general: map<string, Json>, storage: map<string, Json>, grpc: Option<map<string, Json>>,
                        cs: seq<Entry>)
    ensures LocalFormatOf(general, storage, grpc, cs).Ok? <==> forall i :: 0 <= i < |cs| ==> Summarisable(cs[i])
    ensures LocalFormatOf(general, storage, grpc, cs).Err? ==> LocalFormatOf(general, storage, grpc, cs).exc == KeyError
  {
    LocalConnectorsSpec(cs);
  }

  /**
    The local format carries the general, storage and GRPC sections
    unchanged (`{}` for a missing GRPC section) and the connectors in
    their file format, and nothing else.
   */
  lemma LocalFormatSections(general: map<string, Json>, storage: map<string, Json>, grpc: Option<map<string, Json>>,
                            cs: seq<Entry>)
    requires LocalFormatOf(general, storage, grpc, cs).Ok?
    ensures var r := LocalFormatOf(general, storage, grpc, cs).value;
            r.JObj? && r.fields.Keys == {"thingsboard", "storage", "grpc", "connectors"}
            && r.fields["thingsboard"] == JObj(general)
            && r.fields["storage"] == JObj(storage)
            && r.fields["grpc"] == JObj(grpc.GetOr(map[]))
            && LocalConnectors(cs).Ok?
            && r.fields["connectors"] == JArr(LocalConnectors(cs).value)
  {
  }

  class RemoteConfigurator {
    /** `_config['thingsboard']`, shared with the gateway's own configuration. */
    var general: map<string, Json>
    /** `_config['storage']`. */
    var storage: map<string, Json>
    /** `_config['grpc']`; `None` when the key is absent. */
    var grpc: Option<map<string, Json>>
    /** `_config['connectors']`; `None` when the key is absent. */
    var connectors: Option<seq<Entry>>
    var logsConfiguration: Json
    var activeConnectors: Json
    var inProcess: bool
    /** The configuration directory. */
    var files: FileSystem
    /** The names of the gateway's `available_connectors`, in iteration order. */
    var available: seq<Json>
    var eventStorage: StorageBackend
    /** Everything published to the server, oldest first. */
    var sent: seq<Ack>
    var calls: seq<GatewayCall>

    /** Connector names are unique, and so are the available connectors (dictionary keys). */
    ghost predicate Valid()
      reads this`connectors, this`available
    {
      NamesUnique(ListOf(connectors)) && Distinct(available)
    }

    function ConnectorList(): seq<Entry>
      reads this`connectors
    {
      ListOf(connectors)
    }

    /** `_get_general_config_in_local_format` over the (already stripped) state. */
    function LocalFormat(): Result<Json>
      reads this`general, this`storage, this`grpc, this`connectors
    {
      LocalFormatOf(general, storage, grpc, ConnectorList())
    }

    /** The whole `_config` as one value, as the constructor backs it up. */
    function ConfigValue(): (r: Json)
      reads this`general, this`storage, this`grpc, this`connectors
      ensures r.JObj? && "thingsboard" in r.fields && r.fields["thingsboard"] == JObj(general)
      ensures ("grpc" in r.fields <==> grpc.Some?) && ("connectors" in r.fields <==> connectors.Some?)
    {
      var base := map["thingsboard" := JObj(general), "storage" := JObj(storage)];
      var withGrpc := match grpc case Some(g) => base["grpc" := JObj(g)] case None => base;
      JObj(match connectors
           case Some(cs) => withGrpc["connectors" := JArr(seq(|cs|, i requires 0 <= i < |cs| => JObj(cs[i])))]
           case None => withGrpc)
    }

    /**
      `__init__`: the logs configuration is read from `logs.json` (`{}` on
      any error), no request is in process, and the whole configuration is
      backed up as `tb_gateway.json`.
     */
    constructor (general: map<string, Json>, storage: map<string, Json>, grpc: Option<map<string, Json>>,
                 connectors: Option<seq<Entry>>, files: FileSystem, available: seq<Json>, nowMs: nat)
      requires NamesUnique(ListOf(connectors)) && Distinct(available)
      ensures Valid() && !inProcess
      ensures this.general == general && this.storage == storage && this.grpc == grpc
      ensures this.connectors == connectors && this.available == available
      ensures logsConfiguration == (match ReadJson(JStr(LogsFile), files)
                                    case Ok(j) => j
                                    case Err(_) => EmptyObject)
      ensures activeConnectors == EmptyList && eventStorage == InitialStorage
      ensures sent == [] && calls == []
      ensures this.files == files[BackupPath(GeneralFile, nowMs / 1000) := FileEntry(Some(ConfigValue()), nowMs)]
    {
      this.general := general;
      this.storage := storage;
      this.grpc := grpc;
      this.connectors := connectors;
      this.available := available;
      this.files := files;
      logsConfiguration := match ReadJson(JStr(LogsFile), files)
                           case Ok(j) => j
                           case Err(_) => EmptyObject;
      inProcess := false;
      activeConnectors := EmptyList;
      eventStorage := InitialStorage;
      sent := [];
      calls := [];
      new;
      Backup(ConfigValue(), GeneralFile, nowMs);
    }

    /** `create_configuration_file_backup`: the data is written under its backup name. */
    method Backup(data: Json, fileName: string, nowMs: nat)
      modifies this`files
      ensures files == old(files)[BackupPath(fileName, nowMs / 1000) := FileEntry(Some(data), nowMs)]
    {
      files := files[BackupPath(fileName, nowMs / 1000) := FileEntry(Some(data), nowMs)];
    }

    /** `send_attributes({key: value})`. */
    method Send(key: Json, value: Json)
      modifies this`sent
      ensures sent == old(sent) + [Ack(key, value)]
    {
      sent := sent + [Ack(key, value)];
    }

    /**
      The `connectors_configuration` property: strips the transient fields
      from every entry in place.
     */
    method StripConnectors()
      requires Valid()
      modifies this`connectors
      ensures Valid()
      ensures connectors == Stripped(old(connectors))
    {
      StripPreservesUnique(ConnectorList());
      if connectors.None? {
        return;
      }
      var i := 0;
      while i < |connectors.value|
        invariant connectors.Some? && |connectors.value| == |old(connectors).value|
        invariant 0 <= i <= |connectors.value|
        invariant forall k :: 0 <= k < i ==> connectors.value[k] == StripEntry(old(connectors).value[k])
        invariant forall k :: i <= k < |connectors.value| ==> connectors.value[k] == old(connectors).value[k]
      {
        var entry := connectors.value[i];
        entry := entry - {"config_updated"};
        entry := entry - {"config_file_path"};
        connectors := Some(connectors.value[i := entry]);
        i := i + 1;
      }
      assert connectors.value == StripAll(old(connectors).value);
    }

    /**
      Writes the local format to `tb_gateway.json`. The file is opened for
      writing (and so truncated) before the local format is computed, which
      raises KeyError for an entry missing `type`, `name` or `configuration`.
     */
    method WriteGeneralFile(nowMs: nat) returns (exc: Option<Exc>)
      requires Valid()
      modifies this`connectors, this`files
      ensures Valid()
      ensures connectors == Stripped(old(connectors))
      ensures exc == (if LocalFormat().Ok? then None else Some(KeyError))
      ensures files == old(files)[GeneralFile := FileEntry(if LocalFormat().Ok? then Some(LocalFormat().value) else None, nowMs)]
    {
      files := files[GeneralFile := FileEntry(None, nowMs)];
      StripConnectors();
      var local := LocalFormat();
      if local.Err? {
        return Some(KeyError);
      }
      files := files[GeneralFile := FileEntry(Some(local.value), nowMs)];
      exc := None;
    }

    /**
      `for connector_name in available_connectors: ...close()`; with
      `mayFail` the first failing close raises and ends the loop, without it
      (the revert path) every close succeeds.
     */
    method CloseAll(closeOk: Json -> bool, mayFail: bool) returns (ok: bool)
      modifies this`calls
      ensures ok == (!mayFail || AllClose(available, closeOk))
      ensures calls == old(calls) + CloseCalls(if mayFail then CloseAttempts(available, closeOk) else available)
    {
      var i := 0;
      while i < |available|
        invariant 0 <= i <= |available|
        invariant mayFail ==> forall k :: 0 <= k < i ==> closeOk(available[k])
        invariant calls == old(calls) + CloseCalls(available[..i])
      {
        PrefixSnoc(available, i);
        CloseCallsSnoc(old(calls), available[..i], available[i]);
        calls := calls + [CloseConnector(available[i])];
        if mayFail && !closeOk(available[i]) {
          CloseAttemptsSpec(available, closeOk, i);
          return false;
        }
        i := i + 1;
      }
      assert available[..i] == available;
      if mayFail {
        CloseAttemptsSpec(available, closeOk, i);
      }
      ok := true;
    }

    /**
      `load_connectors(self._get_general_config_in_local_format())` then
      `connect_with_connectors()`; with `mayFail` the load may raise
      (`loadOk`), without it (the revert path) it succeeds.
     */
    method Reload(loadOk: bool, mayFail: bool) returns (ok: bool)
      requires Valid()
      modifies this`connectors, this`calls
      ensures Valid()
      ensures connectors == Stripped(old(connectors))
      ensures ok == (LocalFormat().Ok? && (!mayFail || loadOk))
      ensures calls == old(calls) + ReloadCalls(LocalFormat(), mayFail, loadOk)
    {
      StripConnectors();
      var local := LocalFormat();
      if local.Err? {
        return false;
      }
      calls := calls + [LoadConnectors(local.value)];
      if mayFail && !loadOk {
        return false;
      }
      calls := calls + [ConnectWithConnectors];
      ok := true;
    }

    /** `_handle_remote_logging_level_update`: the level is only acknowledged. */
    method HandleRemoteLoggingLevel(payload: Json)
      modifies this`sent
      ensures sent == old(sent) + [Ack(JStr("RemoteLoggingLevel"), payload)]
    {
      Send(JStr("RemoteLoggingLevel"), payload);
    }

    /**
      `_handle_logs_configuration_update`: when the logging machinery
      accepts the configuration (which needs a dictionary), it is persisted
      to `logs.json` and then acknowledged; otherwise nothing changes.
     */
    method HandleLogs(payload: Json, env: Env)
      modifies this`files, this`sent
      ensures payload.JObj? && env.logsOk ==>
                files == old(files)[LogsFile := FileEntry(Some(payload), env.nowMs)]
                && sent == old(sent) + [Ack(JStr("logs_configuration"), payload)]
      ensures !(payload.JObj? && env.logsOk) ==> files == old(files) && sent == old(sent)
    {
      if !payload.JObj? || !env.logsOk {
        return;
      }
      files := files[LogsFile := FileEntry(Some(payload), env.nowMs)];
      Send(JStr("logs_configuration"), payload);
    }

    /**
      `_handle_storage_configuration_update`, swap and verify: when the
      payload's `type` names a known storage class whose constructor
      succeeds, the gateway switches to the new backend, the payload is
      merged into the stored storage configuration, the file is rewritten
      and the merged configuration acknowledged. Otherwise the old backend
      is kept and nothing else changes. Only the file rewrite can raise.
     */
    method HandleStorage(payload: Json, env: Env) returns (exc: Option<Exc>)
      requires Valid()
      modifies this`eventStorage, this`storage, this`connectors, this`files, this`sent
      ensures Valid()
      ensures var t := Index(payload, "type");
              if t.Ok? && t.value.JStr? && t.value.s in env.storageTypes && env.storageInitOk then
                eventStorage == StorageOf(t.value.s, payload)
                && storage == old(storage) + payload.fields
                && connectors == Stripped(old(connectors))
                && files == old(files)[GeneralFile := FileEntry(if LocalFormat().Ok? then Some(LocalFormat().value) else None, env.nowMs)]
                && exc == (if LocalFormat().Ok? then None else Some(KeyError))
                && sent == old(sent) + (if exc.None? then [Ack(JStr("storage_configuration"), JObj(storage))] else [])
              else
                eventStorage == old(eventStorage) && storage == old(storage) && connectors == old(connectors)
                && files == old(files) && sent == old(sent) && exc.None?
    {
      var previous := eventStorage;
      var t := Index(payload, "type");
      if t.Err? || !t.value.JStr? || t.value.s !in env.storageTypes || !env.storageInitOk {
        eventStorage := previous;
        return None;
      }
      eventStorage := StorageOf(t.value.s, payload);
      storage := storage + payload.fields;
      exc := WriteGeneralFile(env.nowMs);
      if exc.Some? {
        return;
      }
      Send(JStr("storage_configuration"), JObj(storage));
    }

    /**
      `_handle_grpc_configuration_update`. Nothing happens unless the
      payload differs from the current GRPC configuration. The new service
      is started, every available connector closed and the connectors
      reloaded; if any of that raises, the old service is started again and
      the connectors are closed and reloaded again (assumed to succeed).
      On success the payload is merged into `_config['grpc']` (dropped
      when there is none), the file rewritten and the configuration
      acknowledged.
     */
    method HandleGrpc(payload: Json, env: Env) returns (exc: Option<Exc>)
      requires Valid()
      modifies this`calls, this`grpc, this`connectors, this`files, this`sent
      ensures Valid()
      ensures payload == JObj(old(grpc).GetOr(map[])) ==>
                calls == old(calls) && grpc == old(grpc) && connectors == old(connectors)
                && files == old(files) && sent == old(sent) && exc.None?
      ensures payload != JObj(old(grpc).GetOr(map[])) ==> connectors == Stripped(old(connectors))
      ensures var current := JObj(old(grpc).GetOr(map[]));
              var local := LocalFormatOf(general, storage, old(grpc), ConnectorList());
              var switched := env.grpcInitOk && AllClose(available, env.closeOk) && local.Ok? && env.loadOk;
              payload != current && !switched ==>
                grpc == old(grpc) && files == old(files) && sent == old(sent)
                && exc == (if local.Ok? then None else Some(KeyError))
                && calls == old(calls) + SwitchCalls(payload, available, env.grpcInitOk, env.closeOk, local, env.loadOk)
                                       + RestoreCalls(current, available, local)
      ensures var current := JObj(old(grpc).GetOr(map[]));
              var local := LocalFormatOf(general, storage, old(grpc), ConnectorList());
              var switched := env.grpcInitOk && AllClose(available, env.closeOk) && local.Ok? && env.loadOk;
              var merged := Update(current, payload);
              payload != current && switched ==>
                calls == old(calls) + [InitGrpcService(payload)] + CloseCalls(available)
                                    + [LoadConnectors(local.value), ConnectWithConnectors]
                && (merged.Err? ==> exc == Some(merged.exc) && grpc == old(grpc) && files == old(files) && sent == old(sent))
                && (merged.Ok? ==>
                      grpc == (if old(grpc).Some? then Some(merged.value.fields) else None)
                      && files == old(files)[GeneralFile := FileEntry(if LocalFormat().Ok? then Some(LocalFormat().value) else None, env.nowMs)]
                      && exc == (if LocalFormat().Ok? then None else Some(KeyError))
                      && sent == old(sent) + (if exc.None? then [Ack(JStr("grpc_configuration"), JObj(grpc.GetOr(map[])))] else []))
      ensures grpc != old(grpc) ==> old(grpc).Some? && payload.JObj? && grpc == Some(old(grpc).value + payload.fields)
    {
      var current := JObj(grpc.GetOr(map[]));
      if payload == current {
        return None;
      }
      ghost var c0 := calls;
      var ok := SwitchGrpc(payload, env);
      StrippedIdempotent(old(connectors));
      if !ok {
        exc := RevertGrpc(payload, current, env, c0);
      } else {
        exc := AdoptGrpc(payload, env, c0);
      }
    }

    /**
      The `except` branch of the GRPC handler, after `SwitchGrpc` failed:
      the old service is started again and the connectors reloaded, and
      the whole call log since the handler began is the failed switch
      followed by the restore.
     */
    method RevertGrpc(payload: Json, current: Json, env: Env, ghost c0: seq<GatewayCall>) returns (exc: Option<Exc>)
      requires Valid()
      requires current == JObj(grpc.GetOr(map[]))
      requires var local := LocalFormat();
               !(env.grpcInitOk && AllClose(available, env.closeOk) && local.Ok? && env.loadOk)
      requires calls == c0 + SwitchCalls(payload, available, env.grpcInitOk, env.closeOk, LocalFormat(), env.loadOk)
      requires env.grpcInitOk && AllClose(available, env.closeOk) ==> connectors == Stripped(connectors)
      modifies this`calls, this`connectors
      ensures Valid()
      ensures connectors == Stripped(old(connectors))
      ensures exc == (if LocalFormat().Ok? then None else Some(KeyError))
      ensures calls == c0 + SwitchCalls(payload, available, env.grpcInitOk, env.closeOk, LocalFormat(), env.loadOk)
                           + RestoreCalls(current, available, LocalFormat())
    {
      ghost var c1 := calls;
      ghost var before := LocalFormat();
      exc := RestoreGrpc(current, env);
      ghost var local := LocalFormat();
      assert calls == c1 + RestoreCalls(current, available, local);
      assert SwitchCalls(payload, available, env.grpcInitOk, env.closeOk, before, env.loadOk)
          == SwitchCalls(payload, available, env.grpcInitOk, env.closeOk, local, env.loadOk);
    }

    /**
      The `else` branch of the GRPC handler, after `SwitchGrpc` succeeded:
      the switch closed every available connector and reloaded once, and
      `CommitGrpc` merges, rewrites and acknowledges.
     */
    method AdoptGrpc(payload: Json, env: Env, ghost c0: seq<GatewayCall>) returns (exc: Option<Exc>)
      requires Valid()
      requires env.grpcInitOk && AllClose(available, env.closeOk) && LocalFormat().Ok? && env.loadOk
      requires calls == c0 + SwitchCalls(payload, available, env.grpcInitOk, env.closeOk, LocalFormat(), env.loadOk)
      requires connectors == Stripped(connectors)
      modifies this`grpc, this`connectors, this`files, this`sent
      ensures Valid()
      ensures connectors == old(connectors)
      ensures calls == c0 + [InitGrpcService(payload)] + CloseCalls(available)
                          + [LoadConnectors(old(LocalFormat()).value), ConnectWithConnectors]
      ensures var merged := Update(JObj(old(grpc).GetOr(map[])), payload);
              (merged.Err? ==> exc == Some(merged.exc) && grpc == old(grpc) && files == old(files) && sent == old(sent))
              && (merged.Ok? ==>
                    grpc == (if old(grpc).Some? then Some(merged.value.fields) else None)
                    && files == old(files)[GeneralFile := FileEntry(if LocalFormat().Ok? then Some(LocalFormat().value) else None, env.nowMs)]
                    && exc == (if LocalFormat().Ok? then None else Some(KeyError))
                    && sent == old(sent) + (if exc.None? then [Ack(JStr("grpc_configuration"), JObj(grpc.GetOr(map[])))] else []))
      ensures grpc != old(grpc) ==> old(grpc).Some? && payload.JObj? && grpc == Some(old(grpc).value + payload.fields)
    {
      SwitchSucceededCalls(c0, payload, available, env.closeOk, LocalFormat(), env.loadOk);
      exc := CommitGrpc(payload, env.nowMs);
      StrippedIdempotent(old(connectors));
    }

    /**
      The `else` block of the GRPC handler: the `grpc_configuration` setter
      (`self._config.get('grpc', {}).update(config)`, whose result is lost
      when there is no `grpc` key), the file rewrite and the acknowledgement.
     */
    method CommitGrpc(payload: Json, nowMs: nat) returns (exc: Option<Exc>)
      requires Valid()
      modifies this`grpc, this`connectors, this`files, this`sent
      ensures Valid()
      ensures var merged := Update(JObj(old(grpc).GetOr(map[])), payload);
              if merged.Err? then
                exc == Some(merged.exc) && grpc == old(grpc) && connectors == old(connectors)
                && files == old(files) && sent == old(sent)
              else
                grpc == (if old(grpc).Some? then Some(merged.value.fields) else None)
                && connectors == Stripped(old(connectors))
                && files == old(files)[GeneralFile := FileEntry(if LocalFormat().Ok? then Some(LocalFormat().value) else None, nowMs)]
                && exc == (if LocalFormat().Ok? then None else Some(KeyError))
                && sent == old(sent) + (if exc.None? then [Ack(JStr("grpc_configuration"), JObj(grpc.GetOr(map[])))] else [])
    {
      var merged := Update(JObj(grpc.GetOr(map[])), payload);
      if merged.Err? {
        return Some(merged.exc);
      }
      if grpc.Some? {
        grpc := Some(merged.value.fields);
      }
      exc := WriteGeneralFile(nowMs);
      if exc.Some? {
        return;
      }
      Send(JStr("grpc_configuration"), JObj(grpc.GetOr(map[])));
    }

    /**
      The `try` block of the GRPC handler: start the service with the new
      configuration, close every available connector, reload. It fails at
      the first call that raises.
     */
    method SwitchGrpc(payload: Json, env: Env) returns (ok: bool)
      requires Valid()
      modifies this`calls, this`connectors
      ensures Valid()
      ensures connectors == (if env.grpcInitOk && AllClose(available, env.closeOk) then Stripped(old(connectors)) else old(connectors))
      ensures ok == (env.grpcInitOk && AllClose(available, env.closeOk) && LocalFormat().Ok? && env.loadOk)
      ensures calls == old(calls) + SwitchCalls(payload, available, env.grpcInitOk, env.closeOk, LocalFormat(), env.loadOk)
    {
      ghost var c0 := calls;
      calls := calls + [InitGrpcService(payload)];
      ok := env.grpcInitOk;
      if !ok {
        SwitchCallsAppend(c0, payload, available, env.grpcInitOk, env.closeOk, LocalFormat(), env.loadOk);
        return;
      }
      ok := CloseAll(env.closeOk, true);
      if !ok {
        SwitchCallsAppend(c0, payload, available, env.grpcInitOk, env.closeOk, LocalFormat(), env.loadOk);
        return;
      }
      ok := Reload(env.loadOk, true);
      SwitchCallsAppend(c0, payload, available, env.grpcInitOk, env.closeOk, LocalFormat(), env.loadOk);
    }

    /**
      The `except` block of the GRPC handler: start the service with the
      current configuration again, close every available connector and
      reload; these calls are assumed to succeed, but the local format
      itself can still raise KeyError, which leaves the handler.
     */
    method RestoreGrpc(current: Json, env: Env) returns (exc: Option<Exc>)
      requires Valid()
      modifies this`calls, this`connectors
      ensures Valid()
      ensures connectors == Stripped(old(connectors))
      ensures exc == (if LocalFormat().Ok? then None else Some(KeyError))
      ensures calls == old(calls) + RestoreCalls(current, available, LocalFormat())
    {
      ghost var c0 := calls;
      calls := calls + [InitGrpcService(current)];
      var _ := CloseAll(env.closeOk, false);
      var reloaded := Reload(true, false);
      RestoreCallsAppend(c0, current, available, LocalFormat());
      exc := if reloaded then None else Some(KeyError);
    }

    /**
      The scan of `_handle_active_connectors_update`: every available
      connector not in the received set is closed; those whose close
      succeeded are collected for deletion. The `in` test is outside the
      `try`, so a received value that does not support it raises.
     */
    method CollectPrunable(received: Json, closeOk: Json -> bool) returns (forDeletion: seq<Json>, exc: Option<Exc>)
      modifies this`calls
      ensures var d := PruneCandidates(available, received, closeOk);
              (d.Ok? ==> exc.None? && forDeletion == d.value
                         && calls == old(calls) + CloseCalls(Absent(available, received)))
              && (d.Err? ==> exc == Some(d.exc))
      ensures exc.Some? ==> exc == Some(TypeError)
    {
      var names := available;
      ghost var log := calls;
      forDeletion := [];
      var i := 0;
      while i < |names|
        invariant 0 <= i <= |names|
        invariant PruneCandidates(names[..i], received, closeOk) == Ok(forDeletion)
        invariant calls == log + CloseCalls(Absent(names[..i], received))
      {
        var name := names[i];
        PruneSnoc(names, received, closeOk, i);
        var member := Contains(received, name);
        if member.Err? {
          PrunePrefixErr(names, received, closeOk, i + 1);
          PruneCandidatesSpec(names, received, closeOk);
          return forDeletion, Some(member.exc);
        }
        ghost var prev := forDeletion;
        if !member.value {
          CloseCallsSnoc(log, Absent(names[..i], received), name);
          calls := calls + [CloseConnector(name)];
          if closeOk(name) {
            forDeletion := forDeletion + [name];
          }
        }
        assert PruneCandidates(names[..i + 1], received, closeOk)
            == Ok(if !member.value && closeOk(name) then prev + [name] else prev);
        i := i + 1;
      }
      assert names[..i] == names;
      exc := None;
    }

    /** `for name in for_deletion: available_connectors.pop(name)`. */
    method RemoveAvailable(forDeletion: seq<Json>)
      requires Distinct(available)
      modifies this`available
      ensures Distinct(available)
      ensures available == Without(old(available), ToSet(forDeletion))
    {
      var j := 0;
      WithoutNone(available, forDeletion[..0]);
      while j < |forDeletion|
        invariant 0 <= j <= |forDeletion|
        invariant available == Without(old(available), ToSet(forDeletion[..j]))
      {
        WithoutSnoc(old(available), forDeletion, j);
        available := Without(available, {forDeletion[j]});
        j := j + 1;
      }
      assert forDeletion[..j] == forDeletion;
      WithoutDistinct(old(available), ToSet(forDeletion));
    }

    /**
      `_delete_connectors_from_config`: the connector list becomes the
      entries, in order, whose name is in the received set.
     */
    method DeleteConnectorsFromConfig(received: Json) returns (exc: Option<Exc>)
      requires Valid()
      modifies this`connectors
      ensures Valid()
      ensures var f := FilterByNames(StripAll(ListOf(old(connectors))), received);
              (f.Ok? ==> exc.None? && connectors == Some(f.value))
              && (f.Err? ==> exc == Some(f.exc) && connectors == Stripped(old(connectors)))
    {
      StripConnectors();
      var f := FilterByNames(ConnectorList(), received);
      FilterByNamesSpec(ConnectorList(), received);
      if f.Err? {
        return Some(f.exc);
      }
      connectors := Some(f.value);
      exc := None;
    }

    /**
      `_handle_active_connectors_update`: only connectors whose close
      succeeded leave the available connectors; if any did, the connector
      list is pruned to the received set, the file rewritten and the
      received set recorded; the received set is acknowledged unless an
      exception left the handler first.
     */
    method HandleActiveConnectors(received: Json, env: Env) returns (exc: Option<Exc>)
      requires Valid()
      modifies this`calls, this`available, this`connectors, this`files, this`activeConnectors, this`sent
      ensures Valid()
      ensures var d := PruneCandidates(old(available), received, env.closeOk);
              d.Err? ==>
                exc == Some(TypeError) && available == old(available) && connectors == old(connectors)
                && files == old(files) && activeConnectors == old(activeConnectors) && sent == old(sent)
      ensures var d := PruneCandidates(old(available), received, env.closeOk);
              d.Ok? ==>
                calls == old(calls) + CloseCalls(Absent(old(available), received))
                && available == Without(old(available), ToSet(d.value))
      ensures var d := PruneCandidates(old(available), received, env.closeOk);
              d.Ok? && d.value == [] ==>
                exc.None? && connectors == old(connectors) && files == old(files)
                && activeConnectors == old(activeConnectors)
                && sent == old(sent) + [Ack(JStr("active_connectors"), received)]
      ensures var d := PruneCandidates(old(available), received, env.closeOk);
              var f := FilterByNames(StripAll(ListOf(old(connectors))), received);
              d.Ok? && d.value != [] && f.Err? ==>
                exc == Some(f.exc) && connectors == Stripped(old(connectors)) && files == old(files)
                && activeConnectors == old(activeConnectors) && sent == old(sent)
      ensures var d := PruneCandidates(old(available), received, env.closeOk);
              var f := FilterByNames(StripAll(ListOf(old(connectors))), received);
              d.Ok? && d.value != [] && f.Ok? ==>
                connectors == Some(f.value)
                && files == old(files)[GeneralFile := FileEntry(if LocalFormat().Ok? then Some(LocalFormat().value) else None, env.nowMs)]
                && exc == (if LocalFormat().Ok? then None else Some(KeyError))
                && activeConnectors == (if exc.None? then received else old(activeConnectors))
                && sent == old(sent) + (if exc.None? then [Ack(JStr("active_connectors"), received)] else [])
    {
      ghost var d := PruneCandidates(available, received, env.closeOk);
      var forDeletion, scanExc := CollectPrunable(received, env.closeOk);
      if scanExc.Some? {
        return scanExc;
      }
      assert d.Ok? && forDeletion == d.value;
      var hasChanged := forDeletion != [];
      if hasChanged {
        exc := ApplyPrune(received, forDeletion, env.nowMs);
      } else {
        WithoutNone(available, forDeletion);
        Send(JStr("active_connectors"), received);
        exc := None;
      }
    }

    /**
      The `if has_changed` block: the collected connectors leave the
      available connectors, the connector list is pruned and the file
      rewritten; the received set is acknowledged unless that raised.
     */
    method ApplyPrune(received: Json, forDeletion: seq<Json>, nowMs: nat) returns (exc: Option<Exc>)
      requires Valid()
      modifies this`available, this`connectors, this`files, this`activeConnectors, this`sent
      ensures Valid()
      ensures available == Without(old(available), ToSet(forDeletion))
      ensures var f := FilterByNames(StripAll(ListOf(old(connectors))), received);
              f.Err? ==>
                exc == Some(f.exc) && connectors == Stripped(old(connectors)) && files == old(files)
                && activeConnectors == old(activeConnectors) && sent == old(sent)
      ensures var f := FilterByNames(StripAll(ListOf(old(connectors))), received);
              f.Ok? ==>
                connectors == Some(f.value)
                && files == old(files)[GeneralFile := FileEntry(if LocalFormat().Ok? then Some(LocalFormat().value) else None, nowMs)]
                && exc == (if LocalFormat().Ok? then None else Some(KeyError))
                && activeConnectors == (if exc.None? then received else old(activeConnectors))
                && sent == old(sent) + (if exc.None? then [Ack(JStr("active_connectors"), received)] else [])
    {
      RemoveAvailable(forDeletion);
      exc := PruneConfig(received, nowMs);
      if exc.Some? {
        return;
      }
      Send(JStr("active_connectors"), received);
    }

    /** The `if has_changed` block after the pops: prune, rewrite the file, record the received set. */
    method PruneConfig(received: Json, nowMs: nat) returns (exc: Option<Exc>)
      requires Valid()
      modifies this`connectors, this`files, this`activeConnectors
      ensures Valid()
      ensures var f := FilterByNames(StripAll(ListOf(old(connectors))), received);
              f.Err? ==>
                exc == Some(f.exc) && connectors == Stripped(old(connectors)) && files == old(files)
                && activeConnectors == old(activeConnectors)
      ensures var f := FilterByNames(StripAll(ListOf(old(connectors))), received);
              f.Ok? ==>
                connectors == Some(f.value)
                && files == old(files)[GeneralFile := FileEntry(if LocalFormat().Ok? then Some(LocalFormat().value) else None, nowMs)]
                && exc == (if LocalFormat().Ok? then None else Some(KeyError))
                && activeConnectors == (if exc.None? then received else old(activeConnectors))
    {
      ghost var stripped := StripAll(ConnectorList());
      StripAllProperties(ConnectorList());
      StripPreservesUnique(ConnectorList());
      FilterByNamesSpec(stripped, received);
      exc := DeleteConnectorsFromConfig(received);
      if exc.Some? {
        return;
      }
      ghost var pruned := connectors;
      SubsequenceUnique(pruned.value, stripped);
      assert forall e :: e in stripped ==> e.Keys !! TransientFields;
      StripAllFixed(pruned.value);
      assert Stripped(pruned) == pruned;
      exc := WriteGeneralFile(nowMs);
      assert connectors == pruned;
      if exc.Some? {
        return;
      }
      activeConnectors := received;
    }

    /**
      `_handle_connector_configuration_update`: the connector is looked up
      by name; a new one is added, an existing one updated. Every exception
      is swallowed. Names stay unique, and the list grows only by the
      summary of a connector whose name no entry carried.
     */
    method HandleConnector(payload: Json, env: Env)
      requires Valid()
      modifies this`calls, this`available, this`connectors, this`files, this`sent
      ensures Valid()
      ensures |ConnectorList()| <= |old(ConnectorList())| + 1
      ensures |ConnectorList()| == |old(ConnectorList())| + 1 ==>
                old(connectors).Some? && payload.JObj? && "configuration" in payload.fields
                && FindByName(StripAll(old(ConnectorList())), payload) == Ok([])
                && NewSummary(payload, payload.fields["configuration"]).Ok?
                && ConnectorList() == StripAll(old(ConnectorList())) + [NewSummary(payload, payload.fields["configuration"]).value]
    {
      var fileName := Index(payload, "configuration");
      if fileName.Err? {
        return;
      }
      StripConnectors();
      StripAllProperties(ListOf(old(connectors)));
      assert IsStripped(ConnectorList());
      var found := FindByName(ConnectorList(), payload);
      FindByNameSpec(ConnectorList(), payload);
      if found.Err? {
        return;
      }
      if found.value == [] {
        AddConnector(payload, fileName.value, env);
      } else {
        var k := FirstNamed(ConnectorList(), payload.fields["name"]).value;
        var _ := UpdateConnector(payload, fileName.value, k, env);
      }
    }

    /**
      The new-connector branch: the summary entry is built, the connector
      file is opened for writing, the payload's `configurationJson` stamped,
      the whole stamped payload backed up and the configuration written;
      then the summary is appended (lost when there is no `connectors` key),
      `tb_gateway.json` rewritten, the connectors reloaded and the stamped
      payload acknowledged. The first exception ends the branch silently.
     */
    method AddConnector(payload: Json, fileName: Json, env: Env)
      requires Valid() && IsStripped(ConnectorList())
      requires payload.JObj?
      requires forall i :: 0 <= i < |ConnectorList()| && HasName(ConnectorList()[i]) && "name" in payload.fields ==>
                 ConnectorList()[i]["name"] != payload.fields["name"]
      modifies this`calls, this`connectors, this`files, this`sent
      ensures Valid() && IsStripped(ConnectorList())
      ensures !(fileName.JStr? && NewSummary(payload, fileName).Ok?) ==>
                calls == old(calls) && connectors == old(connectors) && files == old(files) && sent == old(sent)
      ensures fileName.JStr? && NewSummary(payload, fileName).Ok? && StampConfiguration(payload).Err? ==>
                files == old(files)[fileName.s := FileEntry(None, env.nowMs)]
                && calls == old(calls) && connectors == old(connectors) && sent == old(sent)
      ensures var summary := NewSummary(payload, fileName);
              var stamped := StampConfiguration(payload);
              fileName.JStr? && summary.Ok? && stamped.Ok? ==>
                var written := old(files)[fileName.s := FileEntry(None, env.nowMs)]
                                         [BackupPath(fileName.s, env.nowMs / 1000) := FileEntry(Some(stamped.value), env.nowMs)]
                                         [fileName.s := FileEntry(Some(stamped.value.fields["configurationJson"]), env.nowMs)];
                connectors == (if old(connectors).Some? then Some(old(connectors).value + [summary.value]) else None)
                && files == written[GeneralFile := FileEntry(if LocalFormat().Ok? then Some(LocalFormat().value) else None, env.nowMs)]
                && calls == old(calls) + ReloadCalls(LocalFormat(), true, env.loadOk)
                && sent == old(sent) + (if LocalFormat().Ok? && env.loadOk then [Ack(payload.fields["name"], stamped.value)] else [])
    {
      var summary := NewSummary(payload, fileName);
      if summary.Err? || !fileName.JStr? {
        return;
      }
      var name := payload.fields["name"];
      assert summary.value.Keys !! TransientFields && HasName(summary.value) && summary.value["name"] == name;
      var stamped := WriteConnectorFile(payload, fileName.s, true, env.nowMs);
      if stamped.Err? {
        return;
      }
      RegisterConnector(summary.value, name, stamped.value, env);
    }

    /**
      `with open(<file>, 'w')`: the connector file is truncated, the
      payload's `configurationJson` stamped, optionally the whole stamped
      payload backed up, and the stamped configuration written. A payload
      that cannot be stamped leaves the file truncated.
     */
    method WriteConnectorFile(payload: Json, fileName: string, backup: bool, nowMs: nat) returns (stamped: Result<Json>)
      modifies this`files
      ensures stamped == StampConfiguration(payload)
      ensures stamped.Err? ==> files == old(files)[fileName := FileEntry(None, nowMs)]
      ensures stamped.Ok? ==>
                var backedUp := if backup then old(files)[fileName := FileEntry(None, nowMs)]
                                                 [BackupPath(fileName, nowMs / 1000) := FileEntry(Some(stamped.value), nowMs)]
                                else old(files);
                files == backedUp[fileName := FileEntry(Some(stamped.value.fields["configurationJson"]), nowMs)]
    {
      files := files[fileName := FileEntry(None, nowMs)];
      stamped := StampConfiguration(payload);
      if stamped.Err? {
        return;
      }
      if backup {
        Backup(stamped.value, fileName, nowMs);
      }
      files := files[fileName := FileEntry(Some(stamped.value.fields["configurationJson"]), nowMs)];
    }

    /**
      The rest of the new-connector branch: append the summary (lost when
      there is no `connectors` key), rewrite `tb_gateway.json`, reload, and
      acknowledge the stamped payload.
     */
    method RegisterConnector(summary: Entry, name: Json, stamped: Json, env: Env)
      requires Valid() && IsStripped(ConnectorList())
      requires summary.Keys !! TransientFields && HasName(summary) && summary["name"] == name
      requires forall i :: 0 <= i < |ConnectorList()| && HasName(ConnectorList()[i]) ==> ConnectorList()[i]["name"] != name
      modifies this`calls, this`connectors, this`files, this`sent
      ensures Valid() && IsStripped(ConnectorList())
      ensures connectors == (if old(connectors).Some? then Some(old(connectors).value + [summary]) else None)
      ensures files == old(files)[GeneralFile := FileEntry(if LocalFormat().Ok? then Some(LocalFormat().value) else None, env.nowMs)]
      ensures calls == old(calls) + ReloadCalls(LocalFormat(), true, env.loadOk)
      ensures sent == old(sent) + (if LocalFormat().Ok? && env.loadOk then [Ack(name, stamped)] else [])
    {
      if connectors.Some? {
        AppendFreshPreservesUnique(connectors.value, summary);
        connectors := Some(connectors.value + [summary]);
      }
      assert IsStripped(ConnectorList());
      StripAllFixed(ConnectorList());
      var exc := WriteGeneralFile(env.nowMs);
      if exc.Some? {
        return;
      }
      var ok := Reload(env.loadOk, true);
      if !ok {
        return;
      }
      Send(name, stamped);
    }

    /**
      The existing-connector branch. A backup of the stored file is taken
      when it exists and its content differs from the incoming
      `configurationJson`; the entry is updated with a new summary when the
      summary differs. `changed` is whether either held (and neither check
      raised). Unchanged, only the acknowledgement is sent.
     */
    method UpdateConnector(payload: Json, fileName: Json, k: nat, env: Env) returns (changed: bool)
      requires Valid() && IsStripped(ConnectorList())
      requires payload.JObj? && "name" in payload.fields
      requires k < |ConnectorList()| && HasName(ConnectorList()[k]) && ConnectorList()[k]["name"] == payload.fields["name"]
      modifies this`calls, this`available, this`connectors, this`files, this`sent
      ensures Valid() && IsStripped(ConnectorList())
      ensures |ConnectorList()| == |old(ConnectorList())|
      ensures var content := if fileName.JStr? then ContentDiff(fileName.s, payload, old(files)) else Err(TypeError);
              var summary := SummaryDiffers(old(ConnectorList())[k], payload);
              changed == (content.Ok? && summary.Ok? && (content.value.Some? || summary.value))
      ensures var content := if fileName.JStr? then ContentDiff(fileName.s, payload, old(files)) else Err(TypeError);
              var stamped := StampConfiguration(payload);
              var compared := if content.Ok? && content.value.Some?
                              then old(files)[BackupPath(fileName.s, env.nowMs / 1000) := FileEntry(Some(content.value.value), env.nowMs)]
                              else old(files);
              files == (if changed && fileName.JStr?
                        then compared[fileName.s := FileEntry(if stamped.Ok? then Some(stamped.value.fields["configurationJson"]) else None, env.nowMs)]
                        else compared)
      ensures !changed ==> calls == old(calls) && available == old(available) && connectors == old(connectors)
      ensures var content := if fileName.JStr? then ContentDiff(fileName.s, payload, old(files)) else Err(TypeError);
              var summary := SummaryDiffers(old(ConnectorList())[k], payload);
              !changed ==> sent == old(sent) + (if content.Ok? && summary.Ok? then [Ack(payload.fields["name"], payload)] else [])
      ensures var summary := SummaryDiffers(old(ConnectorList())[k], payload);
              changed && summary.Ok? && summary.value ==>
                NewSummary(payload, fileName).Ok?
                && ConnectorList() == old(ConnectorList())[k := old(ConnectorList())[k] + NewSummary(payload, fileName).value]
      ensures var summary := SummaryDiffers(old(ConnectorList())[k], payload);
              changed && summary.Ok? && !summary.value ==> connectors == old(connectors)
      ensures var name := payload.fields["name"];
              changed && StampConfiguration(payload).Ok? ==>
                available == (if name in old(available) && env.closeOk(name) then Without(old(available), {name})
                              else old(available))
                && calls == old(calls) + RestartCalls(name, old(available), env.closeOk, LocalFormat(), env.loadOk)
                && sent == old(sent) + (if name in old(available) && env.closeOk(name) && LocalFormat().Ok? && env.loadOk
                                        then [Ack(name, StampConfiguration(payload).value)] else [])
      ensures changed && StampConfiguration(payload).Err? ==>
                calls == old(calls) && available == old(available) && sent == old(sent)
    {
      var raised;
      changed, raised := CompareConnector(payload, fileName, k, env.nowMs);
      if changed {
        BackupPathDistinct(fileName.s, env.nowMs / 1000, fileName.s);
        RewriteConnector(payload, fileName.s, env);
      } else if !raised {
        Send(payload.fields["name"], payload);
      }
    }

    /**
      The comparisons of the existing-connector path: the stored file
      against the incoming `configurationJson` (a differing file is backed
      up first), then the summary, which is merged into the entry when it
      differs. `raised` is set when either comparison raised.
     */
    method CompareConnector(payload: Json, fileName: Json, k: nat, nowMs: nat) returns (changed: bool, raised: bool)
      requires Valid() && IsStripped(ConnectorList())
      requires payload.JObj? && "name" in payload.fields
      requires k < |ConnectorList()| && HasName(ConnectorList()[k]) && ConnectorList()[k]["name"] == payload.fields["name"]
      modifies this`connectors, this`files
      ensures Valid() && IsStripped(ConnectorList())
      ensures var content := if fileName.JStr? then ContentDiff(fileName.s, payload, old(files)) else Err(TypeError);
              var summary := SummaryDiffers(old(ConnectorList())[k], payload);
              raised == !(content.Ok? && summary.Ok?)
              && changed == (!raised && (content.value.Some? || summary.value))
              && files == (if content.Ok? && content.value.Some?
                           then old(files)[BackupPath(fileName.s, nowMs / 1000) := FileEntry(Some(content.value.value), nowMs)]
                           else old(files))
              && (if !raised && summary.value
                  then NewSummary(payload, fileName).Ok?
                       && connectors == Some(old(ConnectorList())[k := old(ConnectorList())[k] + NewSummary(payload, fileName).value])
                  else connectors == old(connectors))
      ensures changed ==> fileName.JStr?
    {
      if !fileName.JStr? {
        return false, true;
      }
      var content := ContentDiff(fileName.s, payload, files);
      if content.Err? {
        return false, true;
      }
      if content.value.Some? {
        Backup(content.value.value, fileName.s, nowMs);
      }
      var differs := SummaryDiffers(ConnectorList()[k], payload);
      if differs.Err? {
        return false, true;
      }
      if differs.value {
        MergeSummary(k, NewSummary(payload, fileName).value);
      }
      changed, raised := content.value.Some? || differs.value, false;
    }

    /** `found_connector.update(connector_configuration)`: entry `k` merged in place with the new summary. */
    method MergeSummary(k: nat, summary: Entry)
      requires Valid() && IsStripped(ConnectorList())
      requires k < |ConnectorList()| && HasName(ConnectorList()[k])
      requires summary.Keys !! TransientFields && HasName(summary) && summary["name"] == ConnectorList()[k]["name"]
      modifies this`connectors
      ensures Valid() && IsStripped(ConnectorList())
      ensures connectors == Some(old(ConnectorList())[k := old(ConnectorList())[k] + summary])
    {
      var merged := connectors.value[k] + summary;
      ReplaceSameNamePreservesUnique(connectors.value, k, merged);
      connectors := Some(connectors.value[k := merged]);
      assert IsStripped(ConnectorList()) by {
        forall e | e in ConnectorList() ensures e.Keys !! TransientFields {
          if e != merged {
            assert e in old(ConnectorList());
          }
        }
      }
    }

    /**
      The `if changed` block: the connector file is opened for writing,
      the stamped `configurationJson` written, the connector closed and
      dropped from the available connectors, the connectors reloaded and
      the stamped payload acknowledged. `tb_gateway.json` is not rewritten.
     */
    method RewriteConnector(payload: Json, fileName: string, env: Env)
      requires Valid() && IsStripped(ConnectorList())
      requires payload.JObj? && "name" in payload.fields
      modifies this`calls, this`available, this`connectors, this`files, this`sent
      ensures Valid() && IsStripped(ConnectorList()) && connectors == old(connectors)
      ensures var stamped := StampConfiguration(payload);
              files == old(files)[fileName := FileEntry(if stamped.Ok? then Some(stamped.value.fields["configurationJson"]) else None, env.nowMs)]
      ensures var name := payload.fields["name"];
              StampConfiguration(payload).Ok? ==>
                available == (if name in old(available) && env.closeOk(name) then Without(old(available), {name})
                              else old(available))
      ensures StampConfiguration(payload).Err? ==> calls == old(calls) && available == old(available) && sent == old(sent)
      ensures var name := payload.fields["name"];
              StampConfiguration(payload).Ok? ==>
                calls == old(calls) + RestartCalls(name, old(available), env.closeOk, LocalFormat(), env.loadOk)
                && sent == old(sent) + (if name in old(available) && env.closeOk(name) && LocalFormat().Ok? && env.loadOk
                                        then [Ack(name, StampConfiguration(payload).value)] else [])
    {
      var name := payload.fields["name"];
      var stamped := WriteConnectorFile(payload, fileName, false, env.nowMs);
      if stamped.Err? {
        return;
      }
      RestartConnector(name, stamped.value, env);
    }

    /**
      `available_connectors[name].close()`, the pop, the reload and the
      acknowledgement of `ack`; a connector that is not available raises
      KeyError at the lookup, which ends the handler.
     */
    method RestartConnector(name: Json, ack: Json, env: Env)
      requires Valid() && IsStripped(ConnectorList())
      modifies this`calls, this`available, this`connectors, this`sent
      ensures Valid() && IsStripped(ConnectorList()) && connectors == old(connectors)
      ensures available == (if name in old(available) && env.closeOk(name) then Without(old(available), {name})
                            else old(available))
      ensures calls == old(calls) + RestartCalls(name, old(available), env.closeOk, LocalFormat(), env.loadOk)
      ensures sent == old(sent) + (if name in old(available) && env.closeOk(name) && LocalFormat().Ok? && env.loadOk
                                   then [Ack(name, ack)] else [])
    {
      ghost var c0 := calls;
      ghost var names := available;
      if name !in available {
        RestartCallsAppend(c0, name, names, env.closeOk, LocalFormat(), env.loadOk);
        return;
      }
      calls := calls + [CloseConnector(name)];
      if !env.closeOk(name) {
        RestartCallsAppend(c0, name, names, env.closeOk, LocalFormat(), env.loadOk);
        return;
      }
      WithoutDistinct(available, {name});
      available := Without(available, {name});
      StripAllFixed(ConnectorList());
      var ok := Reload(env.loadOk, true);
      RestartCallsAppend(c0, name, names, env.closeOk, LocalFormat(), env.loadOk);
      if !ok {
        return;
      }
      Send(name, ack);
    }

    /**
      Step 2 of the general handler. The incoming statistics (default
      `DEFAULT_STATISTICS`) are compared with the current ones; when they
      changed they are applied, which may write the commands file and
      record its name in the statistics (seen through the payload too), and
      on success they become the current statistics; on failure the current
      statistics are merged into the incoming ones. `shared` says the
      payload's statistics are the current statistics object itself (after
      a connection revert), so what is done to one is done to the other.
     */
    method StatisticsStep(cfg: map<string, Json>, shared: bool, env: Env) returns (r: Result<map<string, Json>>)
      modifies this`general, this`files
      ensures var s := StatisticsOutcome(cfg, old(general), old(files), shared, env.statisticsInitOk, env.nowMs);
              r == s.r && general == s.g && files == s.fs
    {
      var incoming := MapGet(cfg, "statistics", DefaultStatistics);
      var current := MapGet(general, "statistics", DefaultStatistics);
      var changed := StatisticsChanged(incoming, current, files);
      if changed.Err? {
        return Err(changed.exc);
      }
      if !changed.value {
        return Ok(cfg);
      }
      r := ApplyStatisticsStep(cfg, shared, env);
    }

    /**
      The `if changed` block of step 2: the statistics are applied; on
      success (or when shared) they become the current statistics, and on
      failure the current statistics are merged into the payload's.
     */
    method ApplyStatisticsStep(cfg: map<string, Json>, shared: bool, env: Env) returns (r: Result<map<string, Json>>)
      requires StatisticsChanged(MapGet(cfg, "statistics", DefaultStatistics),
                                 MapGet(general, "statistics", DefaultStatistics), files) == Ok(true)
      modifies this`general, this`files
      ensures var s := StatisticsOutcome(cfg, old(general), old(files), shared, env.statisticsInitOk, env.nowMs);
              r == s.r && general == s.g && files == s.fs
    {
      var incoming := MapGet(cfg, "statistics", DefaultStatistics);
      var a := ApplyStatistics(incoming, general, files, env.statisticsInitOk, env.nowMs);
      files := a.fs;
      var seen := if "statistics" in cfg then cfg["statistics" := a.stats] else cfg;
      if a.ok || shared {
        general := general["statistics" := a.stats];
      }
      if a.ok {
        return Ok(seen);
      }
      r := RevertSubObject(seen, general, "statistics");
    }

    /**
      Steps 1 and 2 of the general handler: the connection step, which on a
      failed reconnection merges the whole current configuration over the
      payload, then the statistics step.
     */
    method EarlySteps(payload: Json, env: Env) returns (r: Result<map<string, Json>>)
      modifies this`general, this`files
      ensures var c := ConnectionStep(payload, old(general), env.connectionOk);
              c.Err? ==> r == Err(c.exc) && general == old(general) && files == old(files)
      ensures var c := ConnectionStep(payload, old(general), env.connectionOk);
              c.Ok? ==>
                var s := StatisticsOutcome(c.value, old(general), old(files), StatisticsShared(payload, old(general), env.connectionOk),
                                           env.statisticsInitOk, env.nowMs);
                r == s.r && general == s.g && files == s.fs
    {
      var connection := ConnectionStep(payload, general, env.connectionOk);
      if connection.Err? {
        return Err(connection.exc);
      }
      var reverted := ConnectionChanged(payload, general).value && !env.connectionOk;
      r := StatisticsStep(connection.value, reverted && "statistics" in general, env);
    }

    /**
      Steps 1 to 4 of the general handler on the incoming payload: the
      payload as it stands once every failed step reverted its part. Only
      the current statistics (and the commands file) can change meanwhile.
     */
    method RevertSteps(payload: Json, env: Env) returns (r: Result<map<string, Json>>)
      modifies this`general, this`files
      ensures var s := GeneralSteps(payload, old(general), old(files), env.connectionOk, env.statisticsInitOk,
                                    env.deviceFilteringOk, env.remoteShellOk, env.nowMs);
              r == s.r && general == s.g && files == s.fs
    {
      var early := EarlySteps(payload, env);
      if early.Err? {
        return early;
      }
      r := PolicySteps(early.value, general, env.deviceFilteringOk, env.remoteShellOk);
    }

    /**
      `_handle_general_configuration_update`: the reverting steps, then the
      payload is merged into the current configuration (once by
      `_apply_other_params_config`, once by the setter), the merged
      configuration acknowledged, the statistics commands dropped by
      `_cleanup` and `tb_gateway.json` rewritten. `merged` is the
      acknowledged configuration.
     */
    method HandleGeneral(payload: Json, env: Env) returns (merged: map<string, Json>, exc: Option<Exc>)
      requires Valid()
      modifies this`general, this`connectors, this`files, this`sent
      ensures Valid()
      ensures var s := GeneralSteps(payload, old(general), old(files), env.connectionOk, env.statisticsInitOk,
                                    env.deviceFilteringOk, env.remoteShellOk, env.nowMs);
              s.r.Err? ==>
                exc == Some(s.r.exc) && general == s.g && files == s.fs && sent == old(sent) && connectors == old(connectors)
      ensures var s := GeneralSteps(payload, old(general), old(files), env.connectionOk, env.statisticsInitOk,
                                    env.deviceFilteringOk, env.remoteShellOk, env.nowMs);
              s.r.Ok? ==>
                merged == s.g + s.r.value && sent == old(sent) + [Ack(JStr("general_configuration"), JObj(merged))]
      ensures var s := GeneralSteps(payload, old(general), old(files), env.connectionOk, env.statisticsInitOk,
                                    env.deviceFilteringOk, env.remoteShellOk, env.nowMs);
              s.r.Ok? && CleanupStatistics(merged).Err? ==>
                exc == Some(CleanupStatistics(merged).exc) && general == merged && files == s.fs && connectors == old(connectors)
      ensures var s := GeneralSteps(payload, old(general), old(files), env.connectionOk, env.statisticsInitOk,
                                    env.deviceFilteringOk, env.remoteShellOk, env.nowMs);
              s.r.Ok? && CleanupStatistics(merged).Ok? ==>
                general == CleanupStatistics(merged).value && connectors == Stripped(old(connectors))
                && files == s.fs[GeneralFile := FileEntry(if LocalFormat().Ok? then Some(LocalFormat().value) else None, env.nowMs)]
                && exc == (if LocalFormat().Ok? then None else Some(KeyError))
    {
      merged := general;
      var steps := RevertSteps(payload, env);
      if steps.Err? {
        return merged, Some(steps.exc);
      }
      merged, exc := SaveGeneral(steps.value, env.nowMs);
    }

    /**
      Step 5 and the save: the payload is merged into the current
      configuration twice (by `_apply_other_params_config`, then by the
      setter), the result acknowledged, `_cleanup` drops the statistics
      commands and `tb_gateway.json` is rewritten.
     */
    method SaveGeneral(cfg: map<string, Json>, nowMs: nat) returns (merged: map<string, Json>, exc: Option<Exc>)
      requires Valid()
      modifies this`general, this`connectors, this`files, this`sent
      ensures Valid()
      ensures merged == old(general) + cfg
      ensures sent == old(sent) + [Ack(JStr("general_configuration"), JObj(merged))]
      ensures CleanupStatistics(merged).Err? ==>
                exc == Some(CleanupStatistics(merged).exc) && general == merged && files == old(files)
                && connectors == old(connectors)
      ensures CleanupStatistics(merged).Ok? ==>
                general == CleanupStatistics(merged).value && connectors == Stripped(old(connectors))
                && files == old(files)[GeneralFile := FileEntry(if LocalFormat().Ok? then Some(LocalFormat().value) else None, nowMs)]
                && exc == (if LocalFormat().Ok? then None else Some(KeyError))
    {
      general := general + cfg;
      general := general + cfg;
      merged := general;
      Send(JStr("general_configuration"), JObj(general));
      var cleaned := CleanupStatistics(general);
      if cleaned.Err? {
        return merged, Some(cleaned.exc);
      }
      general := cleaned.value;
      exc := WriteGeneralFile(nowMs);
    }

    /**
      Calls the handler `h` selected for `payload`; `exc` is the exception it
      let escape. The remote-logging-level, logs and connector handlers never
      raise (the connector handler catches every exception itself).
     */
    method RunHandler(h: HandlerKind, payload: Json, env: Env) returns (exc: Option<Exc>)
      requires Valid()
      modifies this`general, this`storage, this`grpc, this`connectors, this`activeConnectors,
               this`files, this`available, this`eventStorage, this`sent, this`calls
      ensures Valid()
      ensures h in {RemoteLoggingLevel, LogsConfiguration, ConnectorConfiguration} ==> exc.None?
      ensures h == RemoteLoggingLevel ==> sent == old(sent) + [Ack(JStr("RemoteLoggingLevel"), payload)]
    {
      match h
      case GeneralConfiguration =>
        var _, e := HandleGeneral(payload, env);
        exc := e;
      case StorageConfiguration =>
        exc := HandleStorage(payload, env);
      case GrpcConfiguration =>
        exc := HandleGrpc(payload, env);
      case LogsConfiguration =>
        HandleLogs(payload, env);
        exc := None;
      case ActiveConnectors =>
        exc := HandleActiveConnectors(payload, env);
      case RemoteLoggingLevel =>
        HandleRemoteLoggingLevel(payload);
        exc := None;
      case ConnectorConfiguration =>
        HandleConnector(payload, env);
        exc := None;
    }

    /**
      One attribute of a request: skipped when it is a tombstone, when the
      change detector reports it unmodified or when no pattern matches its
      name; otherwise handed to its handler. `call` is the handler call made,
      with the files the decision saw; `exc` is the exception that ends the
      batch, raised by the change detector or by the handler.
     */
    method Visit(key: string, payload: Json, env: Env) returns (call: Option<HandlerCall>, exc: Option<Exc>)
      requires Valid()
      modifies this`general, this`storage, this`grpc, this`connectors, this`activeConnectors,
               this`files, this`available, this`eventStorage, this`sent, this`calls
      ensures Valid()
      ensures call == Selected(key, payload, old(files))
      ensures call.None? ==>
                general == old(general) && storage == old(storage) && grpc == old(grpc) && connectors == old(connectors)
                && activeConnectors == old(activeConnectors) && eventStorage == old(eventStorage)
                && files == old(files) && available == old(available) && sent == old(sent) && calls == old(calls)
                && exc == (if Decide(key, payload, old(files)).Err? then Some(Decide(key, payload, old(files)).exc) else None)
    {
      if IsTombstone(key) {
        return None, None;
      }
      var modified := IsModified(key, payload, files);
      if modified.Err? {
        return None, Some(modified.exc);
      }
      if !modified.value {
        return None, None;
      }
      var h := MatchHandler(key);
      if h.None? {
        return None, None;
      }
      call := Some(HandlerCall(key, payload, files, h.value));
      exc := RunHandler(h.value, payload, env);
    }

    /**
      `process_config_request`: refused while another request is in
      process; otherwise the attributes are visited in order. A KeyError or
      AttributeError ends the batch and is swallowed, any other exception
      ends it and escapes; either way the in-process flag is cleared.
      `dispatched` lists the handler calls made, in order.
     */
    method ProcessConfigRequest(request: seq<(string, Json)>, env: Env)
      returns (outcome: Outcome, dispatched: seq<HandlerCall>, ghost turns: seq<FileSystem>)
      requires Valid()
      modifies this
      ensures Valid()
      ensures old(inProcess) ==> unchanged(this) && outcome == Rejected && dispatched == [] && turns == []
      ensures !old(inProcess) ==> !inProcess && outcome != Rejected
      ensures outcome.Aborted? ==> outcome.caught in {KeyError, AttributeError}
      ensures outcome.Raised? ==> outcome.exc !in {KeyError, AttributeError}
      ensures Trace(request, turns, dispatched)
      ensures outcome == Completed ==> |turns| == |request|
      ensures outcome.Aborted? || outcome.Raised? ==> turns != []
      ensures DecidedUpTo(request, turns, if outcome == Completed || turns == [] then |turns| else |turns| - 1)
      ensures turns != [] ==> turns[0] == old(files)
      ensures logsConfiguration == old(logsConfiguration)
      ensures dispatched == [] ==>
                unchanged(this`general, this`storage, this`grpc, this`connectors, this`activeConnectors,
                          this`eventStorage, this`files, this`available, this`sent, this`calls)
      ensures outcome.Raised? && dispatched == [] ==> outcome.exc == TypeError
    {
      if inProcess {
        return Rejected, [], [];
      }
      inProcess := true;
      outcome, dispatched, turns := VisitAll(request, env);
      inProcess := false;
    }

    /**
      The `try` block of `process_config_request`: the attributes are
      visited in order until one raises.
     */
    method VisitAll(request: seq<(string, Json)>, env: Env)
      returns (outcome: Outcome, dispatched: seq<HandlerCall>, ghost turns: seq<FileSystem>)
      requires Valid()
      modifies this`general, this`storage, this`grpc, this`connectors, this`activeConnectors,
               this`files, this`available, this`eventStorage, this`sent, this`calls
      ensures Valid()
      ensures outcome != Rejected
      ensures outcome.Aborted? ==> outcome.caught in {KeyError, AttributeError}
      ensures outcome.Raised? ==> outcome.exc !in {KeyError, AttributeError}
      ensures Trace(request, turns, dispatched)
      ensures outcome == Completed ==> |turns| == |request|
      ensures outcome.Aborted? || outcome.Raised? ==> turns != []
      ensures DecidedUpTo(request, turns, if outcome == Completed || turns == [] then |turns| else |turns| - 1)
      ensures turns != [] ==> turns[0] == old(files)
      ensures dispatched == [] ==>
                unchanged(this`general, this`storage, this`grpc, this`connectors, this`activeConnectors,
                          this`eventStorage, this`files, this`available, this`sent, this`calls)
      ensures outcome.Raised? && dispatched == [] ==> outcome.exc == TypeError
    {
      dispatched, turns := [], [];
      outcome := Completed;
      var i := 0;
      while i < |request|
        invariant 0 <= i <= |request| && |turns| == i && outcome == Completed
        invariant Valid() && Trace(request, turns, dispatched) && DecidedUpTo(request, turns, i)
        invariant turns != [] ==> turns[0] == old(files)
        invariant i > 0 && Selected(request[i - 1].0, request[i - 1].1, turns[i - 1]).None? ==> files == turns[i - 1]
        invariant dispatched == [] ==>
                    unchanged(this`general, this`storage, this`grpc, this`connectors, this`activeConnectors,
                              this`eventStorage, this`files, this`available, this`sent, this`calls)
      {
        ghost var f := files;
        TraceSnoc(request, turns, dispatched, f);
        var call, exc := Visit(request[i].0, request[i].1, env);
        turns := turns + [f];
        if call.Some? {
          dispatched := dispatched + [call.value];
        }
        i := i + 1;
        if exc.Some? {
          outcome := if exc.value in {KeyError, AttributeError} then Aborted(exc.value) else Raised(exc.value);
          return;
        }
      }
    }
  }
}
