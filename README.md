# P4Runtime controllers: intent to table entries, installed in order

This project models how three P4Runtime controllers turn forwarding, tagging
and filtering intents into table entries and install them on a fleet of BMv2
switches. The three controllers are:

- `controller_db.py`: each switch's JSON config, then the tag and filter rows of a PostgreSQL database;
- `controller_v2.py`: the JSON config only;
- `controller.py`: rule lists hard-coded per switch name.

What is modelled and proved:

- **Translation.** `normalize_match_value` and `build_entry_from_json`.
  Python truthiness, `dict.get` defaults and `x or {}` are written out explicitly.
  A bool takes the int branch of the normaliser, as it does in Python.
- **Build, then write.** Every entry of a batch is built before the first one is written.
  `write_entries` writes in order and stops at the first entry the switch refuses.
  The entries already written stay on the switch.
- **Pipeline.** `set_pipeline` tolerates a gRPC error and propagates any other error.
- **Config branch.** The `if cfg:` branch of `program_from_config` with its key fallbacks.
  For `controller_v2.py`, a switch without a truthy config fails: the helper is never bound.
- **DB rules.** `program_db_rules`: tag rows first, then filter rows, each class in row order.
  A failure there does not fail the switch.
- **Rule lists.** `controller.py`'s forwarding, tagging and filter lists.
  Each list's shutdown-and-raise on error, and its install order in `install_pipeline_and_rule`.
- **Fleet loops.** `controller_db.py` and `controller_v2.py` skip a failed switch and go on.
  `controller.py` stops at the first failure.

The switch behind a P4Runtime connection is a class, `Device.Switch`. Its fields are:

- whether it holds mastership;
- the installed pipeline, with the P4Info sent with it;
- the entries it accepted, in order;
- whether the connection is open.

How the switch answers each RPC is a failure oracle: a `Behaviour` value fixed when the connection is opened. `accepts(written, e)` may depend on what was already installed.

A loaded P4Info file is a partial function: `P4Info.knows` says which entry descriptions its names resolve. A table entry is identified by the P4Info it was compiled against and the description it was compiled from.

Each state-changing method is proved against a pure function of the old state, for example `Install.WriteEntries` against `Install.Writes` and `ControllerDb.ProgramAll` against `Fleet.Isolated`. The promised properties are lemmas about those functions.

Modules, one per file:

| module | file | contents |
|---|---|---|
| `Wrappers` | `wrappers.dfy` | `Option`, `Result`, `Status` and the error kinds |
| `Json` | `json.dfy` | JSON values, `Truthy`, `Get` |
| `Entries` | `entries.dfy` | normaliser and entry builder of `controller_db.py`; `controller_v2.py`'s builder has the same code, and its normaliser, which lacks the None check, is proved equal by `ControllerV2.SameNormalization` |
| `Device` | `device.dfy` | the switch connection |
| `Install` | `install.dfy` | build-all loop, ordered writer, pipeline step, config branch |
| `Fleet` | `fleet.dfy` | the isolating and the aborting fleet loop |
| `ControllerDb` | `controller_db.dfy` | `controller_db.py` |
| `ControllerV2` | `controller_v2.dfy` | `controller_v2.py` |
| `ControllerStatic` | `controller_static.dfy` | `controller.py` |

## Model

| member | source | states |
|---|---|---|
| Entries.NormalizeMatchValue | controller_db.py:111-127 | the result is always None, a tuple, or an untouched float/dict; lists and tuples become tuples of the same elements, a string a 1-tuple, an int or bool `(v, 0)`; already-normal values are returned unchanged |
| Entries.NormalizeIdempotent | controller_db.py:111-127 | normalising twice equals normalising once |
| Entries.IntentOf | controller_db.py:130-166 | fails exactly when the entry is not a dict or has no 'table' (MissingTable for a dict); otherwise the table is the given one, the entry is a default-action entry exactly when 'default_action' is truthy, the action is 'action_name' or None, parameters are 'action_params' when truthy else `{}`, a default entry has no match fields, and a normal entry has exactly the keys of a dict 'match', each normalised |
| Entries.BuildEntryFromJson | controller_db.py:130-166 | succeeds exactly when the intent is well formed and the P4Info knows it; returns the table name with the entry compiled from that intent; a missing 'table' raises MissingTable before any lookup; an unknown name raises UnknownName |
| Entries.DefaultActionIgnoresMatch | controller_db.py:139-149 | for a default-action entry, the 'match' field has no effect on the result |
| Entries.JsonBuilderEntry | controller_db.py:130-166 | the builder used by the config and DB loops compiles exactly the record the entry describes, or raises its error |
| Device.Switch.constructor | controller_db.py:277-282 | a new connection holds no mastership, no pipeline, no entries, and is open |
| Device.Switch.MasterArbitrationUpdate | controller_db.py:284-289 | mastership is granted as the switch decides, and nothing else changes |
| Device.Switch.SetForwardingPipelineConfig | controller_db.py:177-179 | the pipeline changes only when the switch installs it, and then records the BMv2 JSON together with the P4Info sent with it |
| Device.Switch.WriteTableEntry | controller_db.py:192 | an accepted entry is appended to what the switch holds; a refused one changes nothing |
| Device.Switch.Shutdown | controller.py:321-328 | closes the connection and changes nothing else |
| Install.BuildEach | controller_db.py:305-312 | on success every input is compiled pointwise, in order; on failure the error is that of the first input that fails, all before it built |
| Install.BuildEntries | controller_db.py:305-312 | the build loop returns exactly what BuildEach describes |
| Install.WritesOutcome | controller_db.py:186-198 | writing changes only the stored entries; success appends all entries in order; failure is WriteRejected after appending a proper prefix, and the next entry was refused given what was written |
| Install.WriteEntries | controller_db.py:186-198 | the write loop leaves the switch exactly as Writes describes |
| Install.PipelineStep | controller_db.py:170-183 | fails exactly on a non-gRPC error; only the pipeline can change, and only when the switch installs it, to the given BMv2 JSON with the helper's P4Info |
| Install.SetPipeline | controller_db.py:170-183 | the connection ends as PipelineStep describes |
| Install.ConfigFallbacks | controller_db.py:295-297 | 'p4info', then 'p4Info', then the default P4Info; 'bmv2_json', then the default pipeline; 'table_entries', then 'tableEntries', then no entries |
| Install.Items | controller_db.py:306 | a list or tuple is walked element by element, a string character by character, an empty dict yields nothing; a non-empty dict fails; None, a bool, an int or a float is not iterable and raises |
| Install.ConfigStepOutcome | controller_db.py:294-319 | the config branch leaves mastership and the connection alone; the pipeline changes exactly when bmv2_json is truthy and the switch installs it, and then to that file with the loaded P4Info; it writes only when every entry built, a prefix in order; it binds the helper only after writing all of them, and that helper is the P4Info loaded from the configured path |
| Install.ConfigStepSucceeds | controller_db.py:294-319 | the branch binds the helper exactly when the config is a dict, its P4Info loads, a truthy bmv2_json raises no local error (a gRPC error is tolerated), the entries can be walked and all build, and the switch accepts each in turn |
| Install.ApplyConfig | controller_db.py:294-319 | the branch run on a connection ends as ConfigStep describes |
| Fleet.IsolatedMembers | controller_db.py:393-402 | a switch is kept exactly when it is in the order and its own programming succeeds |
| Fleet.IsolatedStep | controller_db.py:393-402 | one more switch is appended to the kept list exactly when it succeeds |
| Fleet.AbortingOutcome | controller.py:501-516 | the aborting loop programs a prefix of the order, all of which succeeded; it ends normally exactly when that prefix is the whole order, and otherwise with the error of the first switch that failed |
| ControllerDb.TagRowEntry | controller_db.py:217-229 | a tag row compiles to a set_dscp_tag / modify_dscp entry with the row's DSCP value and its normalised match, or an empty match when the stored match is not a dict |
| ControllerDb.FilterRowEntry | controller_db.py:243-254 | a filter row compiles to a filter_dscp_tag / drop entry matching diffserv on `(tag value, 8)` with no parameters |
| ControllerDb.ClassStepOutcome | controller_db.py:214-237 | one class of rows writes a prefix of its built entries and nothing when a build fails; it succeeds exactly when all were built and written |
| ControllerDb.DbRulesOutcome | controller_db.py:201-268 | only stored entries change; tag entries come before any filter entry, each class in row order; a tag build error writes nothing; success writes every tag entry, then every filter entry |
| ControllerDb.ProgramDbRules | controller_db.py:201-268 | program_db_rules on a connection ends as DbRules describes |
| ControllerDb.BringUpOutcome | controller_db.py:271-337 | whether a switch comes up does not depend on the DB connection; mastership denial is fatal before anything else; with a DB, the switch holds what it would hold without one, followed by more entries |
| ControllerDb.BringUpSucceeds | controller_db.py:284-331 | mastership and config failures propagate: a switch comes up exactly when it grants mastership, its config reads, and the config branch or the fallback binds a helper; a config-branch error is the switch's error; for a truthy config that means every config step goes through, for the fallback that the default P4Info loads |
| ControllerDb.BringUpEntries | controller_db.py:294-333 | without a DB a switch that comes up holds exactly its config's entries in order (nothing and no pipeline for the fallback); with a DB it holds that followed by the tag entries, then the filter entries, its rows compile to |
| ControllerDb.ProgramFromConfig | controller_db.py:271-337 | the new connection ends as BringUp describes |
| ControllerDb.FleetIsolation | controller_db.py:389-402 | main keeps a switch exactly when its own bring-up succeeds |
| ControllerDb.ProgramNext | controller_db.py:393-402 | one turn of main's loop keeps the next switch's connection exactly when it came up, in its bring-up state |
| ControllerDb.ProgramAll | controller_db.py:389-402 | main keeps the connections of exactly the switches that came up, filter switches first, in order, each in its bring-up state |
| ControllerV2.SameNormalization | controller_v2.py:67-90 | the normaliser without the None check equals controller_db.py's on every value |
| ControllerV2.DocumentedShapes | controller_v2.py:67-90 | the shapes the docstring lists, with `["0x0c", 8]` kept as a string pair |
| ControllerV2.ConfigLessSwitchFails | controller_v2.py:194-222 | a switch with no config, or an empty one, fails without writing anything |
| ControllerV2.BringUpOutcome | controller_v2.py:172-222 | a switch that comes up holds mastership, exactly the entries of its config in order, and the configured pipeline with its P4Info when bmv2_json is truthy and the switch installed it (none otherwise) |
| ControllerV2.BringUpSucceeds | controller_v2.py:184-222 | a switch comes up exactly when it grants mastership, has a truthy config, and every config step goes through; a gRPC pipeline error does not stop it |
| ControllerV2.ProgramFromConfig | controller_v2.py:172-222 | the new connection ends as BringUp describes |
| ControllerV2.FleetIsolation | controller_v2.py:259-272 | a switch is kept exactly when it comes up; a config-less switch never is |
| ControllerV2.ProgramNext | controller_v2.py:263-272 | one turn of main's loop keeps the next switch's connection exactly when it came up, in its bring-up state |
| ControllerV2.ProgramAll | controller_v2.py:259-272 | main keeps the connections of exactly the switches that came up, tag switches first, in order, each in its bring-up state |
| ControllerStatic.ForwardingRulesShape | controller.py:74-307 | each of s11, s12, s13, s21, s22 gets a list starting with the LPM drop default and otherwise only ipv4_forward entries on the LPM table; any other name gets none |
| ControllerStatic.TaggingRulesShape | controller.py:330-374 | s21 tags 192.168.11.0/24 with DSCP 10 and 192.168.12.0/24 with 11, s22 tags 192.168.13.0/24 with 12, and no other switch gets tagging entries |
| ControllerStatic.RuleStageOutcome | controller.py:309-328 | a rule stage changes only stored entries and the connection; it writes a prefix of its built entries, nothing when a build fails, and all of them on success; it closes the connection exactly when it fails |
| ControllerStatic.FilterStageWritesNothing | controller.py:397-453 | filter_rule writes nothing and cannot fail |
| ControllerStatic.InstallRules | controller.py:309-328 | a rule function run on a connection ends as RuleStage describes |
| ControllerStatic.BringUpOutcome | controller.py:455-499 | mastership denial is fatal and leaves nothing; a switch that comes up holds mastership, an open connection, and all its forwarding entries followed by all its tagging entries (a tag switch) or nothing more (a filter switch) |
| ControllerStatic.BringUpSucceeds | controller.py:455-499 | a switch comes up exactly when it grants mastership, the pipeline install raises no local error (a gRPC error is tolerated), both rule lists build and every entry is accepted in turn; it ends with the tag or filter pipeline and its P4Info when installed; its connection is closed exactly when a rule stage failed |
| ControllerStatic.InstallPipelineAndRule | controller.py:455-499 | the new connection ends as BringUp describes |
| ControllerStatic.FleetAborts | controller.py:501-516 | main programs a prefix of the tag-then-filter order; it finishes only when every switch came up, and otherwise raises the first failing switch's error |
| ControllerStatic.ProgramTarget | controller.py:504-516 | one turn of main's loops either keeps the target's connection in its bring-up state or ends the run with that target's error, as the aborting loop does |
| ControllerStatic.ProgramAll | controller.py:501-516 | main keeps exactly the connections the aborting loop programs, in order, each in its bring-up state, and ends with the loop's status |

## Left out

- gRPC, P4Runtime and BMv2 I/O. Each switch's answers are the `Behaviour` oracle; the bytes sent are not modelled.
- The P4Info parser and buildTableEntry's encoding. A P4Info is the oracle `knows`, and an entry is the description it was compiled from.
- File and JSON reading. load_switch_config and json.load are the `configs` oracle: no file is `Null`, and a parse error is an error.
- psycopg2 and SQL. Each query is an oracle returning the rows already in `ORDER BY id` order, or failing. get_db_conn is the choice of `Some`/`None` database.
- Printing, the proto dump file, and the `tname` that write_entries only prints.
- read_table_rules and readTableRules, which only read back and print. A read-back failure after a switch is kept is not modelled.
- KeyboardInterrupt, the `finally` blocks, db_conn.close and ShutdownAllSwitchConnections.
- A failure of the Bmv2SwitchConnection constructor itself, and an error raised by Shutdown (which the source swallows).
- Entries.IntentOf: a non-dict entry raises TypeError or ValueError in Python depending on its shape. Both become one NotAnObject error.
- Install.Items: iterating a non-empty dict as `table_entries` is reported as one error, not the error of building its first key.
- Match fields are a map, so the insertion order of a Python dict of match fields is not kept. This assumes the P4Info helper, which is not part of this model, does not depend on that order.
- controller.py's main runs two loops, TAG_SWITCH then FILTER_SWITCH. Any error escapes both, so they are modelled as one loop over the two lists concatenated.
- genconfig.py is not part of this model.
- The docstring of controller_v2.py's normalize_match_value says `["0x0c", 8]` becomes `(12, 8)`. The code converts nothing, and the model follows the code (ControllerV2.DocumentedShapes).
