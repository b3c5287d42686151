/**
  The decision rules of the general-configuration handler
  (`_handle_general_configuration_update`): which sub-changes a payload
  triggers, what applying the statistics change does, and how a failed
  sub-change is reverted into the incoming payload. `g` is the current
  general configuration (`_config['thingsboard']`).
 */
module GeneralConfig {
  import opened Json
  import opened ChangeDetector

  /** `RemoteConfigurator.DEFAULT_STATISTICS`. */
  const DefaultStatistics: Json := JObj(map["enable" := JBool(true), "statsSendPeriodInSeconds" := JInt(3600)])

  const EmptyObject: Json := JObj(map[])
  const EmptyList: Json := JArr([])

  /** The fields whose change requires a reconnection. */
  const ConnectionFields: set<string> := {"host", "port", "security", "qos"}

  predicate HasConnectionFields(m: map<string, Json>) { ConnectionFields <= m.Keys }

  /**
    Connection change check: host, port, security, provisioning (default
    `{}`) and QoS compared in that order, each pair looked up as it is
    compared, so the first missing field raises KeyError.
   */
  function ConnectionChanged(cfg: Json, g: map<string, Json>): (r: Result<bool>)
    ensures r.Ok? ==> cfg.JObj?
    ensures !cfg.JObj? ==> r == Err(TypeError)
    ensures cfg.JObj? && HasConnectionFields(cfg.fields) && HasConnectionFields(g) ==>
              r == Ok(cfg.fields["host"] != g["host"] || cfg.fields["port"] != g["port"]
                      || cfg.fields["security"] != g["security"]
                      || MapGet(cfg.fields, "provisioning", EmptyObject) != MapGet(g, "provisioning", EmptyObject)
                      || cfg.fields["qos"] != g["qos"])
    ensures r.Err? ==> r.exc in {KeyError, TypeError}
  {
    var gj := JObj(g);
    var h1 :- Index(cfg, "host");
    var h2 :- Index(gj, "host");
    if h1 != h2 then Ok(true) else
    var p1 :- Index(cfg, "port");
    var p2 :- Index(gj, "port");
    if p1 != p2 then Ok(true) else
    var s1 :- Index(cfg, "security");
    var s2 :- Index(gj, "security");
    if s1 != s2 then Ok(true) else
    var v1 := MapGet(cfg.fields, "provisioning", EmptyObject);
    if v1 != MapGet(g, "provisioning", EmptyObject) then Ok(true) else
    var q1 :- Index(cfg, "qos");
    var q2 :- Index(gj, "qos");
    Ok(q1 != q2)
  }

  /** `json.load` of a file of the configuration directory. */
  function ReadJson(path: Json, fs: FileSystem): (r: Result<Json>)
    ensures r.Ok? <==> path.JStr? && path.s in fs && fs[path.s].data.Some?
    ensures r.Ok? ==> r.value == fs[path.s].data.value
  {
    if !path.JStr? then Err(TypeError)
    else if path.s !in fs then Err(OSError)
    else match fs[path.s].data
      case None => Err(ValueError)
      case Some(j) => Ok(j)
  }

  /** The statistics commands kept in their own file, `[]` when none is configured. */
  function StoredCommands(gstats: Json, fs: FileSystem): Result<Json> {
    var path :- Get(gstats, "configuration", JNull);
    if Truthy(path) then ReadJson(path, fs) else Ok(EmptyList)
  }

  predicate HasStatisticsFields(j: Json) {
    j.JObj? && "enable" in j.fields && "statsSendPeriodInSeconds" in j.fields
  }

  /**
    `_check_statistics_configuration_changes`: true exactly when `enable`
    or `statsSendPeriodInSeconds` differ, or else when the incoming
    `commands` (default `[]`) differ from the stored commands.
   */
  function StatisticsChanged(stats: Json, gstats: Json, fs: FileSystem): (r: Result<bool>)
    ensures HasStatisticsFields(stats) && HasStatisticsFields(gstats) ==>
              var periodic := stats.fields["enable"] != gstats.fields["enable"]
                              || stats.fields["statsSendPeriodInSeconds"] != gstats.fields["statsSendPeriodInSeconds"];
              var stored := StoredCommands(gstats, fs);
              (r == Ok(true) <==>
                 periodic || (stored.Ok? && MapGet(stats.fields, "commands", EmptyList) != stored.value)) &&
              (r == Ok(false) <==>
                 !periodic && stored.Ok? && MapGet(stats.fields, "commands", EmptyList) == stored.value) &&
              (r.Err? <==> !periodic && stored.Err?)
    ensures r.Err? ==> r.exc in {KeyError, TypeError, AttributeError, OSError, ValueError}
    ensures var enables := stats.JObj? && gstats.JObj? && "enable" in stats.fields && "enable" in gstats.fields;
            (r.Err? <==>
               !enables
               || (stats.fields["enable"] == gstats.fields["enable"]
                   && (!HasStatisticsFields(stats) || !HasStatisticsFields(gstats)
                       || (stats.fields["statsSendPeriodInSeconds"] == gstats.fields["statsSendPeriodInSeconds"]
                           && StoredCommands(gstats, fs).Err?))))
            && (enables && stats.fields["enable"] != gstats.fields["enable"] ==> r == Ok(true))
    ensures r.Err? && !(HasStatisticsFields(stats) && HasStatisticsFields(gstats)) ==> r.exc in {KeyError, TypeError}
  {
    var e1 :- Index(stats, "enable");
    var e2 :- Index(gstats, "enable");
    if e1 != e2 then Ok(true) else
    var p1 :- Index(stats, "statsSendPeriodInSeconds");
    var p2 :- Index(gstats, "statsSendPeriodInSeconds");
    if p1 != p2 then Ok(true) else
    var commands :- StoredCommands(gstats, fs);
    Ok(MapGet(stats.fields, "commands", EmptyList) != commands)
  }

  /** What `_apply_statistics_config` leaves behind. */
  datatype StatsApply = StatsApply(ok: bool, stats: Json, fs: FileSystem)

  const DefaultStatisticsFile: string := "statistics.json"

  /**
    The name of the commands file: the current statistics' `configuration`,
    `statistics.json` when it is absent or null.
   */
  function CommandsFileName(g: map<string, Json>): Result<Json> {
    var gstats :- Index(JObj(g), "statistics");
    var name :- Get(gstats, "configuration", JStr(DefaultStatisticsFile));
    Ok(if name == JNull then JStr(DefaultStatisticsFile) else name)
  }

  /**
    `_apply_statistics_config(stats)`: non-empty commands are written to the
    commands file and the file name recorded in `stats['configuration']`
    (in the caller's dictionary too); then the statistics service is
    restarted (`initOk`). Every exception is caught and reported as failure,
    with the effects already made kept.
   */
  function ApplyStatistics(stats: Json, g: map<string, Json>, fs: FileSystem, initOk: bool, nowMs: int): (a: StatsApply)
    ensures a.ok ==> initOk && stats.JObj?
    ensures !stats.JObj? ==> a == StatsApply(false, stats, fs)
    ensures stats.JObj? && !Truthy(MapGet(stats.fields, "commands", EmptyList)) ==>
              a == StatsApply(initOk, stats, fs)
    ensures stats.JObj? && Truthy(MapGet(stats.fields, "commands", EmptyList)) && CommandsFileName(g).Ok?
              && CommandsFileName(g).value.JStr? ==>
              var name := CommandsFileName(g).value.s;
              a.ok == initOk
              && a.stats == JObj(stats.fields["configuration" := JStr(name)])
              && a.fs == fs[name := FileEntry(Some(stats.fields["commands"]), nowMs)]
    ensures stats.JObj? && Truthy(MapGet(stats.fields, "commands", EmptyList))
            && !(CommandsFileName(g).Ok? && CommandsFileName(g).value.JStr?) ==>
              a == StatsApply(false, stats, fs)
    ensures a.fs.Keys <= fs.Keys + (if CommandsFileName(g).Ok? && CommandsFileName(g).value.JStr?
                                    then {CommandsFileName(g).value.s} else {})
  {
    match Get(stats, "commands", EmptyList)
    case Err(_) => StatsApply(false, stats, fs)
    case Ok(commands) =>
      if !Truthy(commands) then StatsApply(initOk, stats, fs)
      else match CommandsFileName(g)
        case Err(_) => StatsApply(false, stats, fs)
        case Ok(name) =>
          if !name.JStr? then StatsApply(false, stats, fs)
          else
            var fs' := fs[name.s := FileEntry(Some(commands), nowMs)];
            StatsApply(initOk, JObj(stats.fields["configuration" := name]), fs')
  }

  /**
    `config[key].update(g[key])`: a failed sub-change is reverted by merging
    the current sub-object into the incoming one, evaluated as Python does
    (the incoming sub-object and its `update`, then the current one).
   */
  function RevertSubObject(cfg: map<string, Json>, g: map<string, Json>, key: string): (r: Result<map<string, Json>>)
    ensures r.Ok? <==> key in cfg && cfg[key].JObj? && key in g && g[key].JObj?
    ensures r.Ok? ==>
              r.value.Keys == cfg.Keys && (forall k :: k in cfg && k != key ==> r.value[k] == cfg[k])
              && r.value[key].JObj?
              && r.value[key].fields.Keys == cfg[key].fields.Keys + g[key].fields.Keys
              && (forall k :: k in g[key].fields ==> r.value[key].fields[k] == g[key].fields[k])
              && (forall k :: k in cfg[key].fields && k !in g[key].fields ==>
                    r.value[key].fields[k] == cfg[key].fields[k])
    ensures r.Err? ==> r.exc in {KeyError, AttributeError, TypeError}
  {
    var target :- Index(JObj(cfg), key);
    if !target.JObj? then Err(AttributeError) else
    var current :- Index(JObj(g), key);
    var merged :- Update(target, current);
    Ok(cfg[key := merged])
  }

  /**
    A revert only overwrites the keys the current sub-object has: a key that
    only the incoming sub-object carries survives the revert, so the
    reverted sub-object still differs from the current one.
   */
  lemma RevertKeepsIncomingOnlyKeys(cfg: map<string, Json>, g: map<string, Json>, key: string, extra: string)
    requires RevertSubObject(cfg, g, key).Ok?
    requires extra in cfg[key].fields && extra !in g[key].fields
    ensures RevertSubObject(cfg, g, key).value[key] != g[key]
    ensures RevertSubObject(cfg, g, key).value[key].fields[extra] == cfg[key].fields[extra]
  {
    var r := RevertSubObject(cfg, g, key).value;
    assert extra in r[key].fields;
  }

  /** The device-filtering and remote-shell checks: any difference of the sub-object. */
  predicate PolicyChanged(cfg: map<string, Json>, g: map<string, Json>, key: string) {
    MapGet(cfg, key, JNull) != MapGet(g, key, JNull)
  }

  /**
    Step 1 of the general handler on the incoming payload: when the
    connection fields changed and the new connection could not be
    established, the whole current configuration is merged over the
    payload (`config.update(self.general_configuration)`).
   */
  function ConnectionStep(cfg: Json, g: map<string, Json>, connectionOk: bool): (r: Result<map<string, Json>>)
    ensures r.Err? <==> ConnectionChanged(cfg, g).Err?
    ensures r.Err? ==> r.exc == ConnectionChanged(cfg, g).exc
    ensures r.Ok? ==> cfg.JObj? && r.value.Keys == cfg.fields.Keys + (if ConnectionChanged(cfg, g).value && !connectionOk then g.Keys else {})
    ensures r.Ok? && ConnectionChanged(cfg, g).value && !connectionOk ==> forall k :: k in g ==> r.value[k] == g[k]
    ensures r.Ok? && !(ConnectionChanged(cfg, g).value && !connectionOk) ==> r.value == cfg.fields
  {
    var changed :- ConnectionChanged(cfg, g);
    var merged := if changed && !connectionOk then Update(cfg, JObj(g)) else Ok(cfg);
    assert merged.Ok? && merged.value.JObj?;
    Ok(merged.value.fields)
  }

  /**
    Steps 3 and 4 of the general handler (device filtering, remote shell):
    when the sub-object differs from the current one and applying it
    failed, the current sub-object is merged into the incoming one.
   */
  function PolicyStep(cfg: map<string, Json>, g: map<string, Json>, key: string, applyOk: bool): (r: Result<map<string, Json>>)
    ensures applyOk || !PolicyChanged(cfg, g, key) ==> r == Ok(cfg)
    ensures r.Ok? ==> r.value.Keys == cfg.Keys && forall k :: k in cfg && k != key ==> r.value[k] == cfg[k]
    ensures r.Ok? && !applyOk && key in g && g[key].JObj? ==>
              key in r.value && r.value[key].JObj?
              && forall f :: f in g[key].fields ==> f in r.value[key].fields && r.value[key].fields[f] == g[key].fields[f]
    ensures r.Err? ==> r.exc in {KeyError, AttributeError, TypeError}
  {
    if !PolicyChanged(cfg, g, key) || applyOk then Ok(cfg)
    else RevertSubObject(cfg, g, key)
  }

  /**
    Steps 3 and 4 in order. A sub-object that already equals the current
    one is left alone, and a failed step leaves every current sub-field in
    place.
   */
  function PolicySteps(cfg: map<string, Json>, g: map<string, Json>, filteringOk: bool, shellOk: bool): (r: Result<map<string, Json>>)
    ensures r.Ok? ==> r.value.Keys == cfg.Keys
    ensures r.Ok? ==> forall k :: k in cfg && (k !in {"deviceFiltering", "remoteShell"} || (k in g && cfg[k] == g[k])) ==>
                        r.value[k] == cfg[k]
    ensures r.Ok? && !filteringOk && "deviceFiltering" in g && g["deviceFiltering"].JObj? ==>
              "deviceFiltering" in r.value && r.value["deviceFiltering"].JObj?
              && forall f :: f in g["deviceFiltering"].fields ==>
                   f in r.value["deviceFiltering"].fields && r.value["deviceFiltering"].fields[f] == g["deviceFiltering"].fields[f]
    ensures r.Ok? && !shellOk && "remoteShell" in g && g["remoteShell"].JObj? ==>
              "remoteShell" in r.value && r.value["remoteShell"].JObj?
              && forall f :: f in g["remoteShell"].fields ==>
                   f in r.value["remoteShell"].fields && r.value["remoteShell"].fields[f] == g["remoteShell"].fields[f]
    ensures filteringOk && shellOk ==> r == Ok(cfg)
    ensures r.Err? ==> r.exc in {KeyError, AttributeError, TypeError}
  {
    var filtered :- PolicyStep(cfg, g, "deviceFiltering", filteringOk);
    assert "deviceFiltering" in g && "deviceFiltering" in cfg && cfg["deviceFiltering"] == g["deviceFiltering"] ==>
      !PolicyChanged(cfg, g, "deviceFiltering");
    assert "remoteShell" in g && "remoteShell" in filtered && filtered["remoteShell"] == g["remoteShell"] ==>
      !PolicyChanged(filtered, g, "remoteShell");
    PolicyStep(filtered, g, "remoteShell", shellOk)
  }

  /** `_cleanup`: removes `commands` from the current statistics; raises when it is absent. */
  function CleanupStatistics(g: map<string, Json>): (r: Result<map<string, Json>>)
    ensures r.Ok? <==> "statistics" in g && g["statistics"].JObj? && "commands" in g["statistics"].fields
    ensures r.Ok? ==>
              r.value == g["statistics" := JObj(g["statistics"].fields - {"commands"})]
    ensures r.Err? ==> r.exc in {KeyError, TypeError, AttributeError}
  {
    var st :- Index(JObj(g), "statistics");
    var popped :- Pop(st, "commands");
    Ok(g["statistics" := popped])
  }

  /** The payload, the current general configuration and the files after some of the general handler's steps. */
  datatype StepState = StepState(r: Result<map<string, Json>>, g: map<string, Json>, fs: FileSystem)

  /** Every file of `fs` is kept, and only the statistics commands file can have changed. */
  predicate OnlyCommandsWritten(fs: FileSystem, fs': FileSystem, g: map<string, Json>) {
    fs.Keys <= fs'.Keys
    && forall p :: p in fs' ==> (p in fs && fs'[p] == fs[p]) || CommandsFileName(g) == Ok(JStr(p))
  }

  /** The statistics of `cfg` (default `DEFAULT_STATISTICS`) changed and applying them failed. */
  predicate StatisticsFailed(cfg: map<string, Json>, g: map<string, Json>, fs: FileSystem, initOk: bool, nowMs: int) {
    var incoming := MapGet(cfg, "statistics", DefaultStatistics);
    StatisticsChanged(incoming, MapGet(g, "statistics", DefaultStatistics), fs) == Ok(true)
    && !ApplyStatistics(incoming, g, fs, initOk, nowMs).ok
  }

  /**
    Step 2 of the general handler on the payload `cfg`: when the statistics
    changed they are applied; on success they become the current
    statistics, on failure the current statistics are merged into the
    incoming ones. `shared` says the payload's statistics are the current
    statistics object itself (after a connection revert), so the file name
    the apply records reaches the current statistics as well.
   */
  function StatisticsOutcome(cfg: map<string, Json>, g: map<string, Json>, fs: FileSystem, shared: bool,
                             initOk: bool, nowMs: int): (s: StepState)
    ensures var changed := StatisticsChanged(MapGet(cfg, "statistics", DefaultStatistics),
                                             MapGet(g, "statistics", DefaultStatistics), fs);
            (changed.Err? ==> s == StepState(Err(changed.exc), g, fs))
            && (changed == Ok(false) ==> s == StepState(Ok(cfg), g, fs))
    ensures g.Keys <= s.g.Keys <= g.Keys + {"statistics"}
    ensures forall k :: k in g && k != "statistics" ==> s.g[k] == g[k]
    ensures s.r.Ok? ==> s.r.value.Keys == cfg.Keys && forall k :: k in cfg && k != "statistics" ==> s.r.value[k] == cfg[k]
    ensures s.r.Err? ==> s.r.exc in {KeyError, AttributeError, TypeError, OSError, ValueError}
  {
    var incoming := MapGet(cfg, "statistics", DefaultStatistics);
    match StatisticsChanged(incoming, MapGet(g, "statistics", DefaultStatistics), fs)
    case Err(e) => StepState(Err(e), g, fs)
    case Ok(changed) =>
      if !changed then StepState(Ok(cfg), g, fs)
      else
        var a := ApplyStatistics(incoming, g, fs, initOk, nowMs);
        var seen := if "statistics" in cfg then cfg["statistics" := a.stats] else cfg;
        var g' := if a.ok || shared then g["statistics" := a.stats] else g;
        StepState(if a.ok then Ok(seen) else RevertSubObject(seen, g', "statistics"), g', a.fs)
  }

  /**
    What step 2 does: the commands file is the only file it can write; a
    successful apply makes the applied statistics current; after a failed
    apply every current statistics field is in the payload's statistics.
   */
  lemma StatisticsOutcomeSpec(cfg: map<string, Json>, g: map<string, Json>, fs: FileSystem, shared: bool,
                              initOk: bool, nowMs: int)
    ensures OnlyCommandsWritten(fs, StatisticsOutcome(cfg, g, fs, shared, initOk, nowMs).fs, g)
    ensures var s := StatisticsOutcome(cfg, g, fs, shared, initOk, nowMs);
            var incoming := MapGet(cfg, "statistics", DefaultStatistics);
            var a := ApplyStatistics(incoming, g, fs, initOk, nowMs);
            StatisticsChanged(incoming, MapGet(g, "statistics", DefaultStatistics), fs) == Ok(true) && a.ok ==>
              s.r.Ok? && s.g == g["statistics" := a.stats] && ("statistics" in cfg ==> s.r.value["statistics"] == a.stats)
    ensures var s := StatisticsOutcome(cfg, g, fs, shared, initOk, nowMs);
            var a := ApplyStatistics(MapGet(cfg, "statistics", DefaultStatistics), g, fs, initOk, nowMs);
            StatisticsFailed(cfg, g, fs, initOk, nowMs) ==> s.g == (if shared then g["statistics" := a.stats] else g)
    ensures var s := StatisticsOutcome(cfg, g, fs, shared, initOk, nowMs);
            s.r.Ok? && StatisticsFailed(cfg, g, fs, initOk, nowMs) ==>
              "statistics" in s.g && s.g["statistics"].JObj? && "statistics" in s.r.value && s.r.value["statistics"].JObj?
              && forall f :: f in s.g["statistics"].fields ==>
                   f in s.r.value["statistics"].fields && s.r.value["statistics"].fields[f] == s.g["statistics"].fields[f]
  {
  }

  /**
    A failed reconnection overwrites the whole payload with the current
    configuration: the policy steps then see no change in a section the
    current configuration carries, and the statistics step is handed the
    current statistics themselves.
   */
  lemma ConnectionRevertMasksLaterSteps(payload: Json, g: map<string, Json>)
    requires ConnectionChanged(payload, g) == Ok(true)
    ensures ConnectionStep(payload, g, false).Ok?
    ensures var cfg := ConnectionStep(payload, g, false).value;
            ("deviceFiltering" in g ==> !PolicyChanged(cfg, g, "deviceFiltering"))
            && ("remoteShell" in g ==> !PolicyChanged(cfg, g, "remoteShell"))
            && ("statistics" in g ==> MapGet(cfg, "statistics", DefaultStatistics) == g["statistics"])
  {
  }

  /** After a failed reconnection the payload's statistics are the current statistics object. */
  predicate StatisticsShared(payload: Json, g: map<string, Json>, connectionOk: bool) {
    ConnectionChanged(payload, g) == Ok(true) && !connectionOk && "statistics" in g
  }

  /**
    Steps 1 to 4 of the general handler: the payload as it stands once
    every failed step reverted its part, with the current configuration and
    the files as the steps leave them. Only the current statistics and the
    commands file can change meanwhile.
   */
  function GeneralSteps(payload: Json, g: map<string, Json>, fs: FileSystem, connectionOk: bool, statisticsInitOk: bool,
                        filteringOk: bool, shellOk: bool, nowMs: int): (s: StepState)
    ensures ConnectionChanged(payload, g).Err? ==> s == StepState(Err(ConnectionChanged(payload, g).exc), g, fs)
    ensures s.r.Err? ==> s.r.exc in {KeyError, AttributeError, TypeError, OSError, ValueError}
    ensures g.Keys <= s.g.Keys <= g.Keys + {"statistics"}
    ensures forall k :: k in g && k != "statistics" ==> s.g[k] == g[k]
  {
    match ConnectionStep(payload, g, connectionOk)
    case Err(e) => StepState(Err(e), g, fs)
    case Ok(cfg) =>
      var st := StatisticsOutcome(cfg, g, fs, StatisticsShared(payload, g, connectionOk), statisticsInitOk, nowMs);
      match st.r
      case Err(_) => st
      case Ok(cfg') => StepState(PolicySteps(cfg', st.g, filteringOk, shellOk), st.g, st.fs)
  }

  /**
    What steps 1 to 4 leave: only the commands file can be written; after a
    failed reconnection the payload carries the current configuration,
    otherwise its own values outside the reverting sections.
   */
  lemma GeneralStepsSpec(payload: Json, g: map<string, Json>, fs: FileSystem, connectionOk: bool, statisticsInitOk: bool,
                         filteringOk: bool, shellOk: bool, nowMs: int)
    ensures var s := GeneralSteps(payload, g, fs, connectionOk, statisticsInitOk, filteringOk, shellOk, nowMs);
            OnlyCommandsWritten(fs, s.fs, g)
    ensures var s := GeneralSteps(payload, g, fs, connectionOk, statisticsInitOk, filteringOk, shellOk, nowMs);
            s.r.Ok? ==> payload.JObj? && ConnectionChanged(payload, g).Ok? && ConnectionStep(payload, g, connectionOk).Ok?
    ensures var s := GeneralSteps(payload, g, fs, connectionOk, statisticsInitOk, filteringOk, shellOk, nowMs);
            s.r.Ok? ==>
              var reverted := ConnectionChanged(payload, g).value && !connectionOk;
              s.r.value.Keys == payload.fields.Keys + (if reverted then g.Keys else {})
              && (reverted ==> forall k :: k in g && k != "statistics" ==> s.r.value[k] == g[k])
              && (!reverted ==> forall k :: k in payload.fields && k !in {"statistics", "deviceFiltering", "remoteShell"} ==>
                                 s.r.value[k] == payload.fields[k])
  {
    var c := ConnectionStep(payload, g, connectionOk);
    if c.Ok? {
      var shared := StatisticsShared(payload, g, connectionOk);
      StatisticsOutcomeSpec(c.value, g, fs, shared, statisticsInitOk, nowMs);
    }
  }

  /**
    What the reverting steps leave: after a failed statistics,
    device-filtering or remote-shell step every current field of that
    section is in the payload.
   */
  lemma GeneralStepsRevertSpec(payload: Json, g: map<string, Json>, fs: FileSystem, connectionOk: bool,
                               statisticsInitOk: bool, filteringOk: bool, shellOk: bool, nowMs: int)
    ensures var s := GeneralSteps(payload, g, fs, connectionOk, statisticsInitOk, filteringOk, shellOk, nowMs);
            s.r.Ok? && StatisticsFailed(ConnectionStep(payload, g, connectionOk).value, g, fs, statisticsInitOk, nowMs) ==>
              "statistics" in s.g && s.g["statistics"].JObj? && "statistics" in s.r.value && s.r.value["statistics"].JObj?
              && forall f :: f in s.g["statistics"].fields ==>
                   f in s.r.value["statistics"].fields && s.r.value["statistics"].fields[f] == s.g["statistics"].fields[f]
    ensures var s := GeneralSteps(payload, g, fs, connectionOk, statisticsInitOk, filteringOk, shellOk, nowMs);
            s.r.Ok? && !filteringOk && "deviceFiltering" in g && g["deviceFiltering"].JObj? ==>
              var current := g["deviceFiltering"].fields;
              "deviceFiltering" in s.r.value && s.r.value["deviceFiltering"].JObj?
              && forall f :: f in current ==> f in s.r.value["deviceFiltering"].fields && s.r.value["deviceFiltering"].fields[f] == current[f]
    ensures var s := GeneralSteps(payload, g, fs, connectionOk, statisticsInitOk, filteringOk, shellOk, nowMs);
            s.r.Ok? && !shellOk && "remoteShell" in g && g["remoteShell"].JObj? ==>
              var current := g["remoteShell"].fields;
              "remoteShell" in s.r.value && s.r.value["remoteShell"].JObj?
              && forall f :: f in current ==> f in s.r.value["remoteShell"].fields && s.r.value["remoteShell"].fields[f] == current[f]
  {
    var c := ConnectionStep(payload, g, connectionOk);
    if c.Ok? {
      var shared := StatisticsShared(payload, g, connectionOk);
      StatisticsOutcomeSpec(c.value, g, fs, shared, statisticsInitOk, nowMs);
    }
  }

  /**
    The configuration the general handler acknowledges, the current one
    updated with the reverted payload: it has every current and every
    incoming key; after a failed reconnection it keeps the current values,
    otherwise it takes the incoming ones outside the reverting sections.
   */
  lemma AcknowledgedGeneralSpec(payload: Json, g: map<string, Json>, fs: FileSystem, connectionOk: bool,
                                statisticsInitOk: bool, filteringOk: bool, shellOk: bool, nowMs: int)
    requires GeneralSteps(payload, g, fs, connectionOk, statisticsInitOk, filteringOk, shellOk, nowMs).r.Ok?
    ensures payload.JObj? && ConnectionChanged(payload, g).Ok?
    ensures var s := GeneralSteps(payload, g, fs, connectionOk, statisticsInitOk, filteringOk, shellOk, nowMs);
            var merged := s.g + s.r.value;
            var reverted := ConnectionChanged(payload, g).value && !connectionOk;
            g.Keys + payload.fields.Keys <= merged.Keys <= g.Keys + payload.fields.Keys + {"statistics"}
            && (reverted ==> forall k :: k in g && k != "statistics" ==> merged[k] == g[k])
            && (!reverted ==> forall k :: k in payload.fields && k !in {"statistics", "deviceFiltering", "remoteShell"} ==>
                               merged[k] == payload.fields[k])
  {
    GeneralStepsSpec(payload, g, fs, connectionOk, statisticsInitOk, filteringOk, shellOk, nowMs);
  }

  /**
    The acknowledged configuration after a failed statistics,
    device-filtering or remote-shell step still has every current field of
    that section.
   */
  lemma AcknowledgedRevertSpec(payload: Json, g: map<string, Json>, fs: FileSystem, connectionOk: bool,
                               statisticsInitOk: bool, filteringOk: bool, shellOk: bool, nowMs: int)
    requires GeneralSteps(payload, g, fs, connectionOk, statisticsInitOk, filteringOk, shellOk, nowMs).r.Ok?
    ensures ConnectionStep(payload, g, connectionOk).Ok?
    ensures var s := GeneralSteps(payload, g, fs, connectionOk, statisticsInitOk, filteringOk, shellOk, nowMs);
            var merged := s.g + s.r.value;
            StatisticsFailed(ConnectionStep(payload, g, connectionOk).value, g, fs, statisticsInitOk, nowMs) ==>
              "statistics" in s.g && s.g["statistics"].JObj? && "statistics" in merged && merged["statistics"].JObj?
              && forall f :: f in s.g["statistics"].fields ==>
                   f in merged["statistics"].fields && merged["statistics"].fields[f] == s.g["statistics"].fields[f]
    ensures var s := GeneralSteps(payload, g, fs, connectionOk, statisticsInitOk, filteringOk, shellOk, nowMs);
            var merged := s.g + s.r.value;
            !filteringOk && "deviceFiltering" in g && g["deviceFiltering"].JObj? ==>
              "deviceFiltering" in merged && merged["deviceFiltering"].JObj?
              && forall f :: f in g["deviceFiltering"].fields ==>
                   f in merged["deviceFiltering"].fields && merged["deviceFiltering"].fields[f] == g["deviceFiltering"].fields[f]
    ensures var s := GeneralSteps(payload, g, fs, connectionOk, statisticsInitOk, filteringOk, shellOk, nowMs);
            var merged := s.g + s.r.value;
            !shellOk && "remoteShell" in g && g["remoteShell"].JObj? ==>
              "remoteShell" in merged && merged["remoteShell"].JObj?
              && forall f :: f in g["remoteShell"].fields ==>
                   f in merged["remoteShell"].fields && merged["remoteShell"].fields[f] == g["remoteShell"].fields[f]
  {
    GeneralStepsSpec(payload, g, fs, connectionOk, statisticsInitOk, filteringOk, shellOk, nowMs);
    GeneralStepsRevertSpec(payload, g, fs, connectionOk, statisticsInitOk, filteringOk, shellOk, nowMs);
  }
}
