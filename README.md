# Remote configurator of the ThingsBoard IoT gateway, modelled in Dafny

The remote configurator (`RemoteConfigurator` in
`thingsboard_gateway/tb_utility/tb_gateway_remote_configurator.py`) receives
attribute updates pushed by the ThingsBoard server and handles each one in
turn:

- it decides which subsystem the attribute targets;
- it skips attributes whose file on disk is already newer;
- it applies the change;
- where applying fails, it reverts into the incoming payload;
- it rewrites the configuration files, taking timestamped backups;
- it acknowledges the result to the server.

The model keeps this reconciliation engine. The gateway and its libraries
become oracles that either succeed or fail.

Modules:

- `Json` (json.dfy): JSON values and the Python operations the engine applies
  to them.
  - Operations: `d[k]`, `d.get`, `d.update`, `d.pop` and `in`.
  - Python truthiness.
  - The exceptions these raise, returned as `Err` results.
- `ChangeDetector` (detector.dfy): the configuration directory as a map from
  path to content and modification time, plus `_is_modified`.
- `Dispatch` (dispatch.dfy): the ordered handler table, `fullmatch` of its
  patterns, and the per-attribute decision of `process_config_request`.
- `Naming` (naming.dfy): backup file names and default-configuration keys.
- `Projection` (projection.dfy): views of the connector list:
  - field stripping;
  - active names;
  - the file format;
  - lookup by name;
  - the order-preserving filter.
- `GeneralConfig` (general.dfy): the decision and revert rules of the
  general-configuration handler, written as functions.
- `ConnectorRules` (connectors.dfy): the decision rules of the connector
  handler and of the active-connector handler.
- `Configurator` (configurator.dfy): the class `RemoteConfigurator`.
  - Its fields are the state the engine changes in place:
    - `_config`'s four sections;
    - the available connectors;
    - the file system;
    - the acknowledgement log;
    - the log of ordered gateway calls;
    - the in-process flag.
  - Its methods are the handlers and the dispatcher.
  - The class invariant `Valid()` says connector names are unique and
    available connectors are distinct. Every handler keeps it.

The collaborators come in one `Env` value per request:

- whether the new connection, the statistics service, device filtering, the
  remote shell, the GRPC service, `load_connectors` and the logging
  configuration succeed;
- which storage types exist and whether their constructor succeeds;
- which connectors' `close()` succeeds;
- the current time in milliseconds.

Behaviours of the code worth noting, which the model follows:

- **A failure ends the batch.** The `try` of `process_config_request` wraps
  the whole loop. A KeyError or AttributeError ends the rest of the batch.
  Any other exception leaves the dispatcher. The in-process flag is cleared
  either way.
- **No acknowledgement after an exception.** Nothing is acknowledged when an
  exception leaves a handler first. For example, the active-connector handler
  does not acknowledge when pruning or the rewrite of `tb_gateway.json`
  raised.
- **A connector's acknowledgement echoes the stamped payload.** A new or
  changed connector is acknowledged with the payload whose `configurationJson`
  carries the log level and name (stamped in place), not with the received
  payload.
- **A failed reconnection reverts the whole payload.** It merges the *whole*
  current general configuration over the payload, not only the connection
  fields. The device-filtering and remote-shell steps then see no change in a
  section the current configuration has (`ConnectionRevertMasksLaterSteps`).
  The statistics step is handed the current statistics object itself. It can
  still see a change. After an earlier `_cleanup` the current statistics
  carry no `commands`, so their default `[]` is compared with the commands
  file, which can still hold commands.
- **A revert changes the incoming payload only.** A failed statistics,
  device-filtering or remote-shell step merges the current sub-object into the
  incoming one. Keys only the incoming sub-object has survive
  (`RevertKeepsIncomingOnlyKeys`).
- **A failed statistics apply keeps its effects.** It may still have written
  the commands file. It may also have recorded the file name in the current
  statistics, which are shared with the payload after a connection revert.
- **A new connector's backup is of the incoming payload.** It is the whole
  stamped payload under the connector file's backup name, not the file's
  previous content.
- **Rewrites of `tb_gateway.json` take no backup.** Only the constructor backs
  up the whole configuration.
- **`_cleanup` can raise after the acknowledgement.** It pops `commands`
  without a default. When the statistics have no `commands`, the general
  configuration has been acknowledged but the file is not rewritten.
- **Files are truncated before content is computed.** Every file is opened for
  writing, and so truncated, before its content is computed. A local format
  that raises KeyError therefore leaves `tb_gateway.json` empty.
- **An update to an existing connector keeps `tb_gateway.json` as it is.**
  Its merged summary is kept in memory only.

## Model

The source column is relative to the repository root; every path is the one file
`thingsboard_gateway/tb_utility/tb_gateway_remote_configurator.py`.

| member | source | states |
|---|---|---|
| `Json.Contains` | thingsboard_gateway/tb_utility/tb_gateway_remote_configurator.py:396 | Python `in`: element of a list, key of a dictionary, substring of a string; TypeError exactly for a container without `in`, an unhashable (list or dictionary) key looked up in a dictionary, or a non-string item looked up in a string |
| `Json.Update` | thingsboard_gateway/tb_utility/tb_gateway_remote_configurator.py:66-84 | the setters' `update`: keys are the union, the source's values win and the others are kept; AttributeError for a non-dictionary target, TypeError for a non-dictionary source |
| `Json.UpdateIdempotent` | thingsboard_gateway/tb_utility/tb_gateway_remote_configurator.py:592-593 | merging the payload a second time (step 5, then the setter) changes nothing more |
| `Json.Pop` | thingsboard_gateway/tb_utility/tb_gateway_remote_configurator.py:615-616 | `pop` without a default removes exactly that key and raises KeyError when it is absent |
| `ChangeDetector.IsModified` | thingsboard_gateway/tb_utility/tb_gateway_remote_configurator.py:618-636 | true without a derivable path or when the file is missing; false exactly when the file exists and the payload's `ts` (default 0) is at most its modification time; TypeError exactly for a non-string path, or for an existing file with a non-numeric `ts` |
| `ChangeDetector.UnmodifiedAfterWrite` | thingsboard_gateway/tb_utility/tb_gateway_remote_configurator.py:629-632 | once the named file is written at or after the payload's timestamp, the payload is reported unmodified |
| `Dispatch.RouteSpec` | thingsboard_gateway/tb_utility/tb_gateway_remote_configurator.py:43-51 | a named key reaches its own handler; every other key without a line feed reaches the connector handler, a key with one reaches none; connector handler if and only if not named and without a line feed |
| `Dispatch.MatchHandler` | thingsboard_gateway/tb_utility/tb_gateway_remote_configurator.py:240-243 | the table scan returns the first fully matching handler in table order |
| `Dispatch.Decide` | thingsboard_gateway/tb_utility/tb_gateway_remote_configurator.py:232-243 | a tombstone and an unmodified payload are skipped; a modified non-tombstone key is handed to its routed handler (none when no pattern matches); the detector's TypeError is passed on; a handler is chosen in no other case |
| `Dispatch.NamedKeyNeverReachesConnectorHandler` | thingsboard_gateway/tb_utility/tb_gateway_remote_configurator.py:43-51 | `active_connectors` and the other named keys are never handed to the connector handler, and a modified one is handed to its own handler |
| `Naming.NatToString` | thingsboard_gateway/tb_utility/tb_gateway_remote_configurator.py:643 | `str(n)` is a non-empty string of digits that starts with `0` only for zero |
| `Naming.ParseNatToString` | thingsboard_gateway/tb_utility/tb_gateway_remote_configurator.py:643 | the decimal text of the timestamp reads back as the timestamp |
| `Naming.NatToStringInjective` | thingsboard_gateway/tb_utility/tb_gateway_remote_configurator.py:643 | different timestamps have different decimal texts |
| `Naming.BackupPath` | thingsboard_gateway/tb_utility/tb_gateway_remote_configurator.py:639-643 | a backup path lies in `backup/`, begins with the file name and is longer than `backup/<file>_backup_` |
| `Naming.BackupPathInjective` | thingsboard_gateway/tb_utility/tb_gateway_remote_configurator.py:638-646 | two backups share a path only for the same file in the same second |
| `Naming.BackupPathDistinct` | thingsboard_gateway/tb_utility/tb_gateway_remote_configurator.py:638-646 | as a path string, a backup never equals the file it backs up nor any path that does not start with `backup/` (no normalisation of `..`) |
| `Naming.Upper` | thingsboard_gateway/tb_utility/tb_gateway_remote_configurator.py:134 | upper-casing keeps the length and maps each letter |
| `Naming.UpperIdempotent` | thingsboard_gateway/tb_utility/tb_gateway_remote_configurator.py:134 | upper-casing twice is upper-casing once |
| `Naming.DefaultConfigKey` | thingsboard_gateway/tb_utility/tb_gateway_remote_configurator.py:134 | the key is the upper-cased type followed by `_DEFAULT_CONFIG` |
| `Naming.DefaultConfigKeyCaseInsensitive` | thingsboard_gateway/tb_utility/tb_gateway_remote_configurator.py:134 | types whose upper-cased forms agree share one key, and a type shares its key with its upper-cased form |
| `Projection.StripEntry` | thingsboard_gateway/tb_utility/tb_gateway_remote_configurator.py:89-91 | exactly `config_updated` and `config_file_path` are removed, the other fields kept |
| `Projection.StripAll` | thingsboard_gateway/tb_utility/tb_gateway_remote_configurator.py:86-92 | the list keeps its length and every entry, in order, is stripped |
| `Projection.StripAllProperties` | thingsboard_gateway/tb_utility/tb_gateway_remote_configurator.py:86-92 | after stripping no entry has a transient field, every other field is kept, and stripping again changes nothing |
| `Projection.StripAllFixed` | thingsboard_gateway/tb_utility/tb_gateway_remote_configurator.py:86-92 | a list without transient fields is left as it is |
| `Projection.StripPreservesUnique` | thingsboard_gateway/tb_utility/tb_gateway_remote_configurator.py:86-92 | stripping keeps names unique |
| `Projection.ActiveNamesSpec` | thingsboard_gateway/tb_utility/tb_gateway_remote_configurator.py:139-140 | the active names are the entries' names in order; defined exactly when every entry has a name, KeyError otherwise |
| `Projection.LocalConnectorsSpec` | thingsboard_gateway/tb_utility/tb_gateway_remote_configurator.py:148-150 | each entry, in order, keeps exactly `type`, `name`, `configuration`; defined exactly when every entry has them, KeyError otherwise |
| `Projection.FirstNamed` | thingsboard_gateway/tb_utility/tb_gateway_remote_configurator.py:436-458 | the position found carries the name, and no position carries it when none is found |
| `Projection.FindByNameSpec` | thingsboard_gateway/tb_utility/tb_gateway_remote_configurator.py:436 | lookup succeeds exactly when every entry is named and (for a non-empty list) the payload has a name; it finds nothing exactly when no entry has the name, its first hit is that entry, and with unique names it finds at most one |
| `Projection.AppendFreshPreservesUnique` | thingsboard_gateway/tb_utility/tb_gateway_remote_configurator.py:437-451 | appending a summary whose name no entry has keeps names unique |
| `Projection.ReplaceSameNamePreservesUnique` | thingsboard_gateway/tb_utility/tb_gateway_remote_configurator.py:486 | updating an entry with a summary of the same name keeps names unique |
| `Projection.SubsequenceUnique` | thingsboard_gateway/tb_utility/tb_gateway_remote_configurator.py:595-597 | a subsequence of a list with unique names has unique names and only its elements |
| `Projection.FilterByNamesSpec` | thingsboard_gateway/tb_utility/tb_gateway_remote_configurator.py:595-597 | pruning yields, in order, a subsequence holding exactly the entries whose name is in the received set; it raises only KeyError or TypeError and keeps names unique |
| `GeneralConfig.ConnectionChanged` | thingsboard_gateway/tb_utility/tb_gateway_remote_configurator.py:273-276 | a non-dictionary payload raises TypeError; with every compared field present on both sides, changed exactly when host, port, security, provisioning (default `{}`) or QoS differ; it raises nothing but KeyError or TypeError |
| `GeneralConfig.ReadJson` | thingsboard_gateway/tb_utility/tb_gateway_remote_configurator.py:605-608 | loading succeeds exactly for an existing, parsable file and yields its content |
| `GeneralConfig.StatisticsChanged` | thingsboard_gateway/tb_utility/tb_gateway_remote_configurator.py:599-613 | when both statistics are dictionaries holding `enable` and `statsSendPeriodInSeconds`: true exactly when `enable` or the period differ, or the incoming `commands` (default `[]`) differ from the stored ones; false exactly when neither; raises exactly when neither differs and the stored commands cannot be read. On any input: true when both hold `enable` and it differs; raises exactly when a side is not a dictionary or lacks `enable`, or the `enable`s agree and a side lacks the period, or the fields agree and the stored commands cannot be read; a missing field or non-dictionary side raises KeyError or TypeError |
| `GeneralConfig.ApplyStatistics` | thingsboard_gateway/tb_utility/tb_gateway_remote_configurator.py:548-569 | success needs the service; empty commands write nothing; non-empty commands go to the configured file (default `statistics.json`), whose name is recorded; a file name that cannot be read or is not a string fails with nothing written; no other file is touched |
| `GeneralConfig.RevertSubObject` | thingsboard_gateway/tb_utility/tb_gateway_remote_configurator.py:289-290 | the current sub-object is merged into the incoming one, other keys untouched; fails exactly when either side is missing or not a dictionary |
| `GeneralConfig.RevertKeepsIncomingOnlyKeys` | thingsboard_gateway/tb_utility/tb_gateway_remote_configurator.py:298-299 | a reverted sub-object still differs from the current one when it carries a key the current one lacks |
| `GeneralConfig.ConnectionRevertMasksLaterSteps` | thingsboard_gateway/tb_utility/tb_gateway_remote_configurator.py:278-308 | after a failed reconnection the payload carries the current device-filtering and remote-shell sections, so those steps see no change, and the statistics step is handed the current statistics |
| `GeneralConfig.ConnectionStep` | thingsboard_gateway/tb_utility/tb_gateway_remote_configurator.py:273-282 | raises what the check raises; on a failed reconnection the payload gains every current key with its current value, otherwise it is unchanged |
| `GeneralConfig.PolicyStep` | thingsboard_gateway/tb_utility/tb_gateway_remote_configurator.py:294-301 | an unchanged or successfully applied policy leaves the payload as it is; a failed one keeps the keys and every current sub-field |
| `GeneralConfig.PolicySteps` | thingsboard_gateway/tb_utility/tb_gateway_remote_configurator.py:294-310 | both policy steps in order: keys kept, other sections unchanged, every current sub-field of a failed policy present, nothing changed when both succeed |
| `GeneralConfig.CleanupStatistics` | thingsboard_gateway/tb_utility/tb_gateway_remote_configurator.py:615-616 | succeeds exactly when the statistics carry `commands`, and then removes only that field |
| `GeneralConfig.StatisticsOutcome` | thingsboard_gateway/tb_utility/tb_gateway_remote_configurator.py:284-292 | a comparison that raises changes nothing; unchanged ones leave the payload, the configuration and the files as they are; only the statistics key of either can change |
| `GeneralConfig.StatisticsOutcomeSpec` | thingsboard_gateway/tb_utility/tb_gateway_remote_configurator.py:284-292 | only the commands file can be written; a successful apply makes the applied statistics current and visible in the payload; a failed one changes the current statistics only when shared, and leaves every current statistics field in the payload |
| `GeneralConfig.GeneralSteps` | thingsboard_gateway/tb_utility/tb_gateway_remote_configurator.py:272-310 | a connection check that raises changes nothing; only the current statistics can change; it raises only KeyError, AttributeError, TypeError, OSError or ValueError |
| `GeneralConfig.GeneralStepsSpec` | thingsboard_gateway/tb_utility/tb_gateway_remote_configurator.py:272-310 | only the commands file can be written; after a failed reconnection the payload has every current key with its current value outside the statistics, otherwise its own keys and values outside the reverting sections |
| `GeneralConfig.GeneralStepsRevertSpec` | thingsboard_gateway/tb_utility/tb_gateway_remote_configurator.py:284-310 | after a failed statistics, device-filtering or remote-shell step every current field of that section is in the payload |
| `GeneralConfig.AcknowledgedGeneralSpec` | thingsboard_gateway/tb_utility/tb_gateway_remote_configurator.py:272-317 | the acknowledged configuration has every current and every incoming key; after a failed reconnection the current values, otherwise the incoming ones outside the reverting sections |
| `GeneralConfig.AcknowledgedRevertSpec` | thingsboard_gateway/tb_utility/tb_gateway_remote_configurator.py:284-317 | the acknowledged configuration keeps every current field of a section whose step failed |
| `ConnectorRules.NewSummary` | thingsboard_gateway/tb_utility/tb_gateway_remote_configurator.py:438-444 | the summary has `name`, `type`, `configuration`, and `key`/`class` exactly when truthy, with the payload's values; defined exactly when the payload has a name and type |
| `ConnectorRules.SummaryDiffers` | thingsboard_gateway/tb_utility/tb_gateway_remote_configurator.py:472-475 | when the payload has `type` and the stored `configurationJson` (default `{}`) is a dictionary: differs exactly when name, type, class, key or the stored log level differ; otherwise it may raise, and then only KeyError or AttributeError; a result for equal names implies the payload had `type` |
| `ConnectorRules.StampConfiguration` | thingsboard_gateway/tb_utility/tb_gateway_remote_configurator.py:447 | `configurationJson` gains the log level and the name, nothing else changes; defined exactly when the payload is a dictionary holding `logLevel`, `name` and a `configurationJson` that is itself a dictionary |
| `ConnectorRules.ContentDiff` | thingsboard_gateway/tb_utility/tb_gateway_remote_configurator.py:461-469 | a backup of the stored content is due exactly when the file exists, parses and differs from the incoming `configurationJson`; a missing file is never a change |
| `ConnectorRules.Without` | thingsboard_gateway/tb_utility/tb_gateway_remote_configurator.py:405-406 | after the pops exactly the names not removed remain |
| `ConnectorRules.WithoutDistinct` | thingsboard_gateway/tb_utility/tb_gateway_remote_configurator.py:405-406 | popping keeps the available connectors distinct |
| `ConnectorRules.PruneCandidatesSpec` | thingsboard_gateway/tb_utility/tb_gateway_remote_configurator.py:393-402 | a connector is collected for deletion exactly when it is available, not received and closed successfully; a received list never raises, anything else only TypeError |
| `ConnectorRules.PrunePrefixErr` | thingsboard_gateway/tb_utility/tb_gateway_remote_configurator.py:395-396 | the first `in` test that raises ends the whole scan with that exception |
| `Configurator.CloseCallsSpec` | thingsboard_gateway/tb_utility/tb_gateway_remote_configurator.py:347-348 | the close log holds one `close()` per connector, the i-th closing the i-th connector, in order |
| `Configurator.CloseAttemptsSpec` | thingsboard_gateway/tb_utility/tb_gateway_remote_configurator.py:347-348 | every connector is closed when all succeed; otherwise the closing stops right after the first failure |
| `Configurator.DispatchedSpec` | thingsboard_gateway/tb_utility/tb_gateway_remote_configurator.py:232-243 | there are no more handler calls than attributes, and each call is for an attribute of the request with the handler its decision selects |
| `Configurator.TraceSnoc` | thingsboard_gateway/tb_utility/tb_gateway_remote_configurator.py:232-243 | visiting one more attribute grows the trace by its turn and the call it selects; decisions made so far stay made |
| `Configurator.StrippedIdempotent` | thingsboard_gateway/tb_utility/tb_gateway_remote_configurator.py:86-92 | reading the property twice strips nothing more |
| `Configurator.LocalFormatSpec` | thingsboard_gateway/tb_utility/tb_gateway_remote_configurator.py:142-157 | the local format exists exactly when every entry has `type`, `name` and `configuration`; otherwise KeyError |
| `Configurator.LocalFormatSections` | thingsboard_gateway/tb_utility/tb_gateway_remote_configurator.py:152-157 | it has exactly the four sections, the general, storage and GRPC ones unchanged (GRPC `{}` when absent) and the connectors in file format |
| `Configurator.RemoteConfigurator.ConfigValue` | thingsboard_gateway/tb_utility/tb_gateway_remote_configurator.py:60 | the backed-up configuration holds the general section, and `grpc`/`connectors` exactly when present |
| `Configurator.RemoteConfigurator.constructor` | thingsboard_gateway/tb_utility/tb_gateway_remote_configurator.py:36-60 | the logs configuration is `logs.json` or `{}`, nothing is in process, no active connectors, and the whole configuration is backed up as `tb_gateway.json` |
| `Configurator.RemoteConfigurator.Backup` | thingsboard_gateway/tb_utility/tb_gateway_remote_configurator.py:638-646 | exactly the backup path of this second is written, with the data |
| `Configurator.RemoteConfigurator.Send` | thingsboard_gateway/tb_utility/tb_gateway_remote_configurator.py:317 | exactly one publication is appended |
| `Configurator.RemoteConfigurator.StripConnectors` | thingsboard_gateway/tb_utility/tb_gateway_remote_configurator.py:86-92 | the list is stripped in place and names stay unique |
| `Configurator.RemoteConfigurator.WriteGeneralFile` | thingsboard_gateway/tb_utility/tb_gateway_remote_configurator.py:319-321 | `tb_gateway.json` holds the local format, or is left truncated with KeyError; nothing else is written |
| `Configurator.RemoteConfigurator.CloseAll` | thingsboard_gateway/tb_utility/tb_gateway_remote_configurator.py:347-348 | every available connector is closed in order up to the first failure; success exactly when all closes succeed |
| `Configurator.RemoteConfigurator.Reload` | thingsboard_gateway/tb_utility/tb_gateway_remote_configurator.py:349-350 | the load is called with the local format, then the connect; fails when the local format raises or the load fails |
| `Configurator.RemoteConfigurator.HandleRemoteLoggingLevel` | thingsboard_gateway/tb_utility/tb_gateway_remote_configurator.py:506-507 | the level is acknowledged and nothing else changes |
| `Configurator.RemoteConfigurator.HandleLogs` | thingsboard_gateway/tb_utility/tb_gateway_remote_configurator.py:367-388 | an accepted logging configuration is written to `logs.json` and then acknowledged; otherwise nothing changes |
| `Configurator.RemoteConfigurator.HandleStorage` | thingsboard_gateway/tb_utility/tb_gateway_remote_configurator.py:323-340 | a known type whose constructor succeeds becomes the backend and is merged, written and acknowledged; otherwise the old backend is kept and nothing changes |
| `Configurator.RemoteConfigurator.HandleGrpc` | thingsboard_gateway/tb_utility/tb_gateway_remote_configurator.py:342-365 | nothing happens for an equal configuration; otherwise the connectors are stripped, and the whole call log is the switch (new service, closes up to the first failure, load, connect); when a call fails the restore follows (old service, every close, load, connect), configuration, files and publications are kept, and only a local format that raises escapes (KeyError); when all succeed the merge, the rewrite and the acknowledgement follow |
| `Configurator.RemoteConfigurator.RevertGrpc` | thingsboard_gateway/tb_utility/tb_gateway_remote_configurator.py:351-358 | after a failed switch the call log is the switch followed by the restore, and only a local format that raises escapes |
| `Configurator.RemoteConfigurator.AdoptGrpc` | thingsboard_gateway/tb_utility/tb_gateway_remote_configurator.py:345-363 | after a successful switch the call log holds the start, every close, the load and the connect; then the merge, the rewrite and the acknowledgement of `CommitGrpc` |
| `Configurator.RemoteConfigurator.CommitGrpc` | thingsboard_gateway/tb_utility/tb_gateway_remote_configurator.py:359-363 | the payload is merged into `grpc` (dropped when absent), the file rewritten and, unless that raised, the section acknowledged |
| `Configurator.RemoteConfigurator.SwitchGrpc` | thingsboard_gateway/tb_utility/tb_gateway_remote_configurator.py:345-350 | the call log gains the new service start, then (if it started) the closes up to the first failure, then (if all closed) the load with the local format and the connect; success exactly when the service starts, every close succeeds, the local format exists and the load succeeds |
| `Configurator.RemoteConfigurator.RestoreGrpc` | thingsboard_gateway/tb_utility/tb_gateway_remote_configurator.py:354-358 | the call log gains the old service start, every close, the load and the connect; the reload raises (KeyError) exactly when the local format does |
| `Configurator.RemoteConfigurator.CollectPrunable` | thingsboard_gateway/tb_utility/tb_gateway_remote_configurator.py:393-402 | the deletion list is the prune candidates and exactly the absent connectors are closed, in order; otherwise the candidates' TypeError |
| `Configurator.RemoteConfigurator.RemoveAvailable` | thingsboard_gateway/tb_utility/tb_gateway_remote_configurator.py:404-406 | exactly the collected names leave the available connectors, which stay distinct |
| `Configurator.RemoteConfigurator.DeleteConnectorsFromConfig` | thingsboard_gateway/tb_utility/tb_gateway_remote_configurator.py:595-597 | the list becomes the filtered stripped list; on an exception it stays stripped |
| `Configurator.RemoteConfigurator.HandleActiveConnectors` | thingsboard_gateway/tb_utility/tb_gateway_remote_configurator.py:390-413 | a scan that raises TypeError changes nothing but the call log; otherwise exactly the absent connectors are closed in order and exactly the closed ones leave; with none removed only the acknowledgement; with some, a filter error leaves the list stripped and the files as they were, otherwise the list is pruned, `tb_gateway.json` rewritten, and the set recorded and acknowledged exactly when the rewrite raised nothing |
| `Configurator.RemoteConfigurator.ApplyPrune` | thingsboard_gateway/tb_utility/tb_gateway_remote_configurator.py:404-413 | exactly the collected names leave; a filter error leaves the list stripped and the files, the recorded set and the publications as they were; otherwise the list is the filtered one, `tb_gateway.json` holds its local format, and the set is recorded and acknowledged exactly when that raised nothing |
| `Configurator.RemoteConfigurator.PruneConfig` | thingsboard_gateway/tb_utility/tb_gateway_remote_configurator.py:407-411 | a filter error leaves the list stripped and the files as they were; otherwise the list is the filtered one, `tb_gateway.json` holds its local format (or is truncated with KeyError), and the received set is recorded exactly when no exception arose |
| `Configurator.RemoteConfigurator.HandleConnector` | thingsboard_gateway/tb_utility/tb_gateway_remote_configurator.py:415-504 | names stay unique; the list grows by at most one, and only by the new summary of a name no entry had |
| `Configurator.RemoteConfigurator.AddConnector` | thingsboard_gateway/tb_utility/tb_gateway_remote_configurator.py:437-456 | without a string file name or a summary nothing happens; an unstampable payload leaves the file truncated; otherwise the stamped payload is backed up, the configuration written, the summary appended, `tb_gateway.json` rewritten, the load and connect called, and the stamped payload acknowledged exactly when the local format and the load succeed |
| `Configurator.RemoteConfigurator.WriteConnectorFile` | thingsboard_gateway/tb_utility/tb_gateway_remote_configurator.py:446-449 | the file is truncated, the payload is stamped, the backup is optional, and the stamped configuration is written; an unstampable payload leaves the file truncated |
| `Configurator.RemoteConfigurator.RegisterConnector` | thingsboard_gateway/tb_utility/tb_gateway_remote_configurator.py:451-456 | the summary is appended (dropped without a list), `tb_gateway.json` holds the local format, the call log gains the load and the connect, and the payload is acknowledged exactly when the local format and the load succeed |
| `Configurator.RemoteConfigurator.UpdateConnector` | thingsboard_gateway/tb_utility/tb_gateway_remote_configurator.py:457-502 | `changed` exactly when neither comparison raised and the content or summary differ; a backup exactly for differing content; the connector file rewritten exactly when changed; unchanged, nothing is closed or reloaded and the payload is acknowledged unless a comparison raised; changed and stampable, the connector is closed, popped on success, reloaded and acknowledged stamped; unstampable, no call and no acknowledgement |
| `Configurator.RemoteConfigurator.CompareConnector` | thingsboard_gateway/tb_utility/tb_gateway_remote_configurator.py:458-486 | the backup of differing content, the summary merged into the entry exactly when it differs, and whether either comparison raised |
| `Configurator.RemoteConfigurator.MergeSummary` | thingsboard_gateway/tb_utility/tb_gateway_remote_configurator.py:486 | the entry is updated with the summary, names stay unique |
| `Configurator.RemoteConfigurator.RewriteConnector` | thingsboard_gateway/tb_utility/tb_gateway_remote_configurator.py:488-502 | the connector file holds the stamped configuration (or is truncated); the list stays as it is; an unstampable payload makes no call; otherwise the restart's calls, the pop and the stamped acknowledgement follow |
| `Configurator.RemoteConfigurator.RestartConnector` | thingsboard_gateway/tb_utility/tb_gateway_remote_configurator.py:496-502 | an unavailable connector raises before any call; an available one is closed, and if that succeeds popped, loaded and connected, and acknowledged exactly when the local format and the load succeed |
| `Configurator.RemoteConfigurator.StatisticsStep` | thingsboard_gateway/tb_utility/tb_gateway_remote_configurator.py:284-292 | the result, the current configuration and the files are those of `StatisticsOutcome` on the state before the step |
| `Configurator.RemoteConfigurator.ApplyStatisticsStep` | thingsboard_gateway/tb_utility/tb_gateway_remote_configurator.py:286-290 | for changed statistics, the result, the current configuration and the files are those of `StatisticsOutcome`: applied, current on success or when shared, reverted into the payload on failure |
| `Configurator.RemoteConfigurator.EarlySteps` | thingsboard_gateway/tb_utility/tb_gateway_remote_configurator.py:272-292 | a connection check that raises changes nothing; otherwise the statistics step runs on the connection step's payload, sharing the current statistics exactly after a failed reconnection |
| `Configurator.RemoteConfigurator.RevertSteps` | thingsboard_gateway/tb_utility/tb_gateway_remote_configurator.py:272-310 | the result, the current configuration and the files are those of `GeneralSteps` on the state before the steps |
| `Configurator.RemoteConfigurator.HandleGeneral` | thingsboard_gateway/tb_utility/tb_gateway_remote_configurator.py:252-321 | steps that raise leave their partial effects and send nothing; otherwise the current configuration updated with the reverted payload is acknowledged; a `_cleanup` that raises leaves it as the current configuration with no rewrite; otherwise the current configuration is it minus `commands`, the list is stripped and `tb_gateway.json` holds the local format |
| `Configurator.RemoteConfigurator.SaveGeneral` | thingsboard_gateway/tb_utility/tb_gateway_remote_configurator.py:312-321 | the merge, then the acknowledgement, the `commands` cleanup and the rewrite |
| `Configurator.RemoteConfigurator.RunHandler` | thingsboard_gateway/tb_utility/tb_gateway_remote_configurator.py:43-51 | the logs, remote-logging and connector handlers never raise; the remote-logging handler acknowledges its level |
| `Configurator.RemoteConfigurator.Visit` | thingsboard_gateway/tb_utility/tb_gateway_remote_configurator.py:232-243 | the handler call made is the one the decision selects against the files before it; a skipped attribute changes nothing and ends the batch exactly with the detector's exception |
| `Configurator.RemoteConfigurator.ProcessConfigRequest` | thingsboard_gateway/tb_utility/tb_gateway_remote_configurator.py:225-249 | a second request is refused with nothing changed; the flag is cleared on every exit; the handler calls are, in order, exactly those the decisions select, each against the files its attribute saw, and an attribute that selects none leaves the files to the next; every attribute is decided when the batch completes and all but the last when it ends early; KeyError and AttributeError are swallowed, others escape, and with no handler called only the detector's TypeError |
| `Configurator.RemoteConfigurator.VisitAll` | thingsboard_gateway/tb_utility/tb_gateway_remote_configurator.py:231-247 | the attributes are visited in order until one raises, with the same trace, decisions and outcome classes as `ProcessConfigRequest` |

## Left out

- Connection reconfiguration (the TBClient swap, the polling race and
  `_revert_connection`). It is one success/failure oracle.
- Logging reconfiguration (`dictConfig`, the remote handler). It is one
  oracle; what survives is "persist, then acknowledge; errors swallowed".
- Real file I/O and JSON text.
  - Files are a map from path to parsed content and modification time.
  - Serialisation is the identity.
  - `os.mkdir` of the backup directory is not modelled.
  - Floating-point numbers and dictionary order are not modelled.
- `hash(str(...))`. It is modelled as equality of the values, as a
  hash-based comparison is meant to be.
- The remote version fetch and `_send_default_connectors_config`: callbacks,
  sleeping and version parsing. Only the key construction is modelled.
- `send_current_configuration` and `_get_general_config_in_remote_format`.
  They only publish outbound.
- `_load_connectors_configuration`. It needs the gateway's own connector
  configurations.
- The collaborators of every revert path are assumed to succeed:
  - restarting the old statistics service, device filtering and remote shell;
  - the old GRPC service, with its closes and load.
- `load_connectors` repopulating `available_connectors` is not modelled.
- `send_attributes` is assumed never to raise.
- One clock value serves a whole request. The backup second is that
  value's whole seconds.
- `str.upper` is modelled for ASCII letters only.
- `dict.update` with a sequence of pairs is refused as if it were not a
  dictionary. Every non-dictionary source raises TypeError here. Python
  differs: a non-empty string raises ValueError, and an empty string or an
  empty list succeeds and changes nothing. So the exception class that the
  GRPC setter reports can differ from the model's.
- The gateway's `config['thingsboard']` is taken to be `_config['thingsboard']`.
- The `thingsboard` and `storage` sections are assumed to be present.
- The request is a sequence of attribute name and payload pairs. A request
  that is not a dictionary is not modelled.
- HandleConnector (`Configurator.RemoteConfigurator.HandleConnector`): states
  only names staying unique and how the list may grow. Files, availability
  and acknowledgements are stated on AddConnector and UpdateConnector.
- RunHandler (`Configurator.RemoteConfigurator.RunHandler`): states which
  handlers cannot raise. The effects are stated on each handler.
- Visit (`Configurator.RemoteConfigurator.Visit`): for a selected handler,
  states the call and its files, not the handler's effects, which are stated
  on each handler.
- ProcessConfigRequest and VisitAll (`Configurator.RemoteConfigurator.ProcessConfigRequest`,
  `Configurator.RemoteConfigurator.VisitAll`, the `try` block of the loop):
  both state the handler calls with the files each decision saw, the
  decisions and the exception classes (ProcessConfigRequest also states the
  in-process flag), not the combined effect of the handlers they ran.
- HandleActiveConnectors (`Configurator.RemoteConfigurator.HandleActiveConnectors`)
  and CollectPrunable (`Configurator.RemoteConfigurator.CollectPrunable`): when
  a membership test raises, the closes already made are not stated.
- Writes always succeed. `open(path, 'w')` raising OSError is not
  modelled, for example when the name is a directory or names a missing
  directory. The source then aborts the connector handler without appending,
  reloading or acknowledging, and `_apply_statistics_config` returns False.
  The model always writes the file and goes on.
- Paths are opaque strings and are never normalised. A name such as
  `../x.json` puts its backup outside `backup/` on a real file system. The
  model only distinguishes the path strings.
- Connector names are assumed unique in the loaded configuration: the
  constructor requires it. The source accepts duplicate names and acts on the
  first entry with the name. Every handler keeps the names unique.
- `_config` is modelled as its four sections (`thingsboard`, `storage`,
  `grpc` and `connectors`, the last two only when present). Any other top-level section the gateway loaded is
  not held, so the constructor's backup of the whole configuration holds only
  these four.
- `in_process` is a sequential flag. Two threads racing through its
  check-then-set in `process_config_request` are not modelled; one request
  runs at a time.
- `connect_with_connectors()` is assumed never to raise: a reload that got as
  far as the load always records the connect.
- Python's `True == 1` and `False == 0` are not modelled. Booleans and
  integers are different JSON values here. A comparison of `True` with `1`
  therefore counts as a difference, and `in` does not find one for the other.
  This affects the connection check, the policy checks, the connector summary
  comparison and `in`.
