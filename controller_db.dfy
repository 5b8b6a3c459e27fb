/** controller_db.py: each switch is programmed from its JSON config, then
    from the tag_table and filter_table rows stored for it; a switch that fails
    is skipped and the others are still programmed. */
module ControllerDb {
  import opened Wrappers
  import opened Json
  import opened Entries
  import opened Device
  import opened Install
  import opened Fleet

  const TagTable: string := "MyEgress.set_dscp_tag"
  const TagAction: string := "MyEgress.modify_dscp"
  const FilterTable: string := "MyEgress.filter_dscp_tag"
  const FilterAction: string := "MyEgress.drop"
  const DiffservField: string := "hdr.ipv4.diffserv"

  /** A tag_table row: the JSONB match and the DSCP value to set. */
  datatype TagRow = TagRow(id: int, matchSpec: Value, tagValue: Value)

  /** A filter_table row: the DSCP value whose packets are dropped. */
  datatype FilterRow = FilterRow(id: int, tagValue: Value)

  /** The two queries, per switch name: the rows in ascending id order, or
      None when the query raises. */
  datatype Db = Db(
    tagRows: string -> Option<seq<TagRow>>,
    filterRows: string -> Option<seq<FilterRow>>)

  /** The JSON-like record program_db_rules builds for a tag row. */
  function TagRecord(row: TagRow): Value {
    Dict(map[
      "table" := Str(TagTable),
      "match" := (if Truthy(row.matchSpec) then row.matchSpec else EmptyDict),
      "action_name" := Str(TagAction),
      "action_params" := Dict(map["dscp_value" := row.tagValue])])
  }

  /** The JSON-like record program_db_rules builds for a filter row: an exact
      8-bit match of the DSCP value on the diffserv field. */
  function FilterRecord(row: FilterRow): Value {
    Dict(map[
      "table" := Str(FilterTable),
      "match" := Dict(map[DiffservField := List([row.tagValue, Int(8)])]),
      "action_name" := Str(FilterAction),
      "action_params" := EmptyDict])
  }

  function TagBuilder(info: P4Info): TagRow -> Result<TableEntry> {
    row => JsonBuilder(info)(TagRecord(row))
  }

  function FilterBuilder(info: P4Info): FilterRow -> Result<TableEntry> {
    row => JsonBuilder(info)(FilterRecord(row))
  }

  /** A tag row is compiled as a set_dscp_tag entry that sets the row's DSCP
      value and matches on the row's match fields, normalised, or on nothing
      when the stored match is not a dict. */
  lemma TagRowEntry(info: P4Info, row: TagRow)
    ensures TagBuilder(info)(row) == BuildTableEntry(info, EntryRecord(
      Str(TagTable),
      if row.matchSpec.Dict? then map k | k in row.matchSpec.fields :: NormalizeMatchValue(row.matchSpec.fields[k]) else map[],
      false,
      Str(TagAction),
      Dict(map["dscp_value" := row.tagValue])))
  {
    var obj := TagRecord(row).fields;
    var m := if row.matchSpec.Dict? then map k | k in row.matchSpec.fields :: NormalizeMatchValue(row.matchSpec.fields[k]) else map[];
    assert NormalizedMatch(obj) == m;
    var rec := EntryRecord(Str(TagTable), m, false, Str(TagAction), Dict(map["dscp_value" := row.tagValue]));
    assert IntentOf(TagRecord(row)) == Ok(rec);
    JsonBuilderEntry(info, TagRecord(row));
  }

  /** A filter row is compiled as a filter_dscp_tag entry that matches the
      diffserv field on (tag value, 8) and drops, with no parameters. */
  lemma FilterRowEntry(info: P4Info, row: FilterRow)
    ensures FilterBuilder(info)(row) == BuildTableEntry(info, EntryRecord(
      Str(FilterTable),
      map[DiffservField := Tuple([row.tagValue, Int(8)])],
      false,
      Str(FilterAction),
      EmptyDict))
  {
    var obj := FilterRecord(row).fields;
    var m := map[DiffservField := Tuple([row.tagValue, Int(8)])];
    assert NormalizedMatch(obj) == m;
    var rec := EntryRecord(Str(FilterTable), m, false, Str(FilterAction), EmptyDict);
    assert IntentOf(FilterRecord(row)) == Ok(rec);
    JsonBuilderEntry(info, FilterRecord(row));
  }

  /** One class of DB rules: nothing when there are no rows, otherwise build
      every entry, then write them in order. */
  function ClassStep<T>(build: T -> Result<TableEntry>, rows: seq<T>,
                        accepts: (seq<TableEntry>, TableEntry) -> bool, s: DeviceState): Run
  {
    if rows == [] then Run(s, Success)
    else
      match BuildEach(build, rows)
      case Err(e) => Run(s, Failure(e))
      case Ok(es) => if es != [] then Writes(accepts, s, es) else Run(s, Success)
  }

  /** The entries a class of rows compiles to; none when a build fails. */
  function Built(r: Result<seq<TableEntry>>): seq<TableEntry> {
    if r.Ok? then r.value else []
  }

  /** A class writes a prefix of its built entries and nothing if a build
      fails; it succeeds exactly when every entry was built and written. */
  lemma ClassStepOutcome<T>(build: T -> Result<TableEntry>, rows: seq<T>,
                            accepts: (seq<TableEntry>, TableEntry) -> bool, s: DeviceState)
    ensures ClassStep(build, rows, accepts, s).state == s.(written := ClassStep(build, rows, accepts, s).state.written)
    ensures exists n :: (0 <= n <= |Built(BuildEach(build, rows))| &&
      ClassStep(build, rows, accepts, s).state.written == s.written + Built(BuildEach(build, rows))[..n])
    ensures BuildEach(build, rows).Err? ==> ClassStep(build, rows, accepts, s) == Run(s, Failure(BuildEach(build, rows).error))
    ensures ClassStep(build, rows, accepts, s).status.Success? <==>
      BuildEach(build, rows).Ok? &&
      ClassStep(build, rows, accepts, s).state.written == s.written + BuildEach(build, rows).value
  {
    var es := Built(BuildEach(build, rows));
    if rows != [] && BuildEach(build, rows).Ok? && es != [] {
      WritesOutcome(accepts, s, es);
      var w := Writes(accepts, s, es);
      if w.status.Success? {
        assert es[..|es|] == es;
      } else {
        var n :| 0 <= n < |es| && w.state.written == s.written + es[..n] && !accepts(s.written + es[..n], es[n]);
        assert |w.state.written| < |s.written + es|;
      }
    } else {
      assert s.written + es[..0] == s.written;
      if rows == [] { assert BuildEach(build, rows) == Ok([]); }
    }
  }

  /** program_db_rules: no connection means nothing to do; otherwise the tag
      class, then the filter class; any failure is raised to the caller. */
  function DbRules(info: P4Info, conn: Option<Db>, name: string,
                   accepts: (seq<TableEntry>, TableEntry) -> bool, s: DeviceState): Run
  {
    match conn
    case None => Run(s, Success)
    case Some(db) =>
      match db.tagRows(name)
      case None => Run(s, Failure(QueryFailed))
      case Some(tags) =>
        var t := ClassStep(TagBuilder(info), tags, accepts, s);
        if t.status.Failure? then t
        else
          match db.filterRows(name)
          case None => Run(t.state, Failure(QueryFailed))
          case Some(filters) => ClassStep(FilterBuilder(info), filters, accepts, t.state)
  }

  function TagEntries(info: P4Info, db: Db, name: string): seq<TableEntry> {
    match db.tagRows(name)
    case None => []
    case Some(rows) => Built(BuildEach(TagBuilder(info), rows))
  }

  function FilterEntries(info: P4Info, db: Db, name: string): seq<TableEntry> {
    match db.filterRows(name)
    case None => []
    case Some(rows) => Built(BuildEach(FilterBuilder(info), rows))
  }

  /** `after` is `before` followed by some tag entries and then some filter
      entries, and a filter entry is there only if every tag entry is. */
  predicate TagsThenFilters(before: seq<TableEntry>, after: seq<TableEntry>,
                            tags: seq<TableEntry>, filters: seq<TableEntry>)
  {
    exists t, f :: 0 <= t <= |tags| && 0 <= f <= |filters| && (f > 0 ==> t == |tags|) &&
                   after == before + tags[..t] + filters[..f]
  }

  /** What program_db_rules does to a switch: only table entries change; all
      tag writes come before any filter write, each class in row order; a tag
      build error means no write at all; and success means every tag entry,
      then every filter entry, was written. */
  lemma DbRulesOutcome(info: P4Info, db: Db, name: string,
                                         accepts: (seq<TableEntry>, TableEntry) -> bool, s: DeviceState)
    ensures DbRules(info, Some(db), name, accepts, s).state == s.(written := DbRules(info, Some(db), name, accepts, s).state.written)
    ensures TagsThenFilters(s.written, DbRules(info, Some(db), name, accepts, s).state.written,
                            TagEntries(info, db, name), FilterEntries(info, db, name))
    ensures db.tagRows(name).Some? && BuildEach(TagBuilder(info), db.tagRows(name).value).Err? ==>
      DbRules(info, Some(db), name, accepts, s) == Run(s, Failure(BuildEach(TagBuilder(info), db.tagRows(name).value).error))
    ensures DbRules(info, Some(db), name, accepts, s).status.Success? ==>
      DbRules(info, Some(db), name, accepts, s).state.written ==
        s.written + TagEntries(info, db, name) + FilterEntries(info, db, name)
  {
    var r := DbRules(info, Some(db), name, accepts, s);
    var T := TagEntries(info, db, name);
    var F := FilterEntries(info, db, name);
    if db.tagRows(name).None? {
      assert r.state.written == s.written + T[..0] + F[..0];
    } else {
      var tags := db.tagRows(name).value;
      ClassStepOutcome(TagBuilder(info), tags, accepts, s);
      var t := ClassStep(TagBuilder(info), tags, accepts, s);
      var n :| 0 <= n <= |T| && t.state.written == s.written + T[..n];
      if t.status.Failure? || db.filterRows(name).None? {
        assert r.state.written == s.written + T[..n] + F[..0];
        if t.status.Success? {
          assert T[..n] == T;
        }
      } else {
        var filters := db.filterRows(name).value;
        ClassStepOutcome(FilterBuilder(info), filters, accepts, t.state);
        var f := ClassStep(FilterBuilder(info), filters, accepts, t.state);
        var m :| 0 <= m <= |F| && f.state.written == t.state.written + F[..m];
        assert T[..n] == T;
        assert r.state.written == s.written + T[..n] + F[..m];
        if f.status.Success? {
          assert F[..m] == F;
        }
      }
    }
  }

  /** program_db_rules run on a connection. */
  method ProgramDbRules(conn: Option<Db>, name: string, sw: Switch, info: P4Info) returns (st: Status)
    modifies sw
    ensures Run(sw.State(), st) == DbRules(info, conn, name, sw.behaviour.accepts, old(sw.State()))
  {
    if conn.None? {
      return Success;
    }
    var db := conn.value;
    var tagRows := db.tagRows(name);
    if tagRows.None? {
      return Failure(QueryFailed);
    }
    if tagRows.value != [] {
      var built := BuildEntries(TagBuilder(info), tagRows.value);
      if built.Err? {
        return Failure(built.error);
      }
      if built.value != [] {
        st := WriteEntries(sw, built.value);
        if st.Failure? {
          return st;
        }
      }
    }
    var filterRows := db.filterRows(name);
    if filterRows.None? {
      return Failure(QueryFailed);
    }
    if filterRows.value != [] {
      var built := BuildEntries(FilterBuilder(info), filterRows.value);
      if built.Err? {
        return Failure(built.error);
      }
      if built.value != [] {
        st := WriteEntries(sw, built.value);
        return st;
      }
    }
    return Success;
  }

  /** The `else` branch of program_from_config: no usable config, so the
      default P4Info is loaded for the DB rules and no pipeline is installed. */
  function FallbackStep(net: Network, s: DeviceState): Stage {
    match net.loadP4Info(Str(DefaultP4Info))
    case None => Stage(s, Err(P4InfoUnreadable))
    case Some(info) => Stage(s, Ok(info))
  }

  /** The config branch for a truthy config, the fallback otherwise. */
  function Configure(net: Network, b: Behaviour, cfg: Value, s: DeviceState): Stage {
    if Truthy(cfg) then ConfigStep(net, b, cfg, s) else FallbackStep(net, s)
  }

  /** program_from_config for one switch: mastership (fatal), the config
      branch or the fallback (fatal on error), then the DB rules, whose
      failure is swallowed. */
  function BringUp(net: Network, db: Option<Db>, name: string): Run {
    var b := net.devices(name);
    if !b.grantsMastership then Run(Connected, Failure(MastershipDenied))
    else
      var s := Connected.(isMaster := true);
      match net.configs(name)
      case Err(e) => Run(s, Failure(e))
      case Ok(cfg) =>
        var stage := Configure(net, b, cfg, s);
        match stage.helper
        case Err(e) => Run(stage.state, Failure(e))
        case Ok(info) =>
          if db.Some? then Run(DbRules(info, db, name, b.accepts, stage.state).state, Success)
          else Run(stage.state, Success)
  }

  /** The DB cannot make a switch fail: whether a switch comes up is the same
      with or without a DB connection; mastership denial is fatal; and with a
      DB the switch holds what it would hold without one, followed by the
      tag and filter entries. */
  lemma BringUpOutcome(net: Network, db: Option<Db>, name: string)
    ensures BringUp(net, db, name).status == BringUp(net, None, name).status
    ensures !net.devices(name).grantsMastership ==> BringUp(net, db, name) == Run(Connected, Failure(MastershipDenied))
    ensures BringUp(net, db, name).state == BringUp(net, None, name).state.(written := BringUp(net, db, name).state.written)
    ensures BringUp(net, None, name).state.written <= BringUp(net, db, name).state.written
  {
    var b := net.devices(name);
    if b.grantsMastership && net.configs(name).Ok? && db.Some? {
      var s := Connected.(isMaster := true);
      var cfg := net.configs(name).value;
      var stage := Configure(net, b, cfg, s);
      if stage.helper.Ok? {
        DbRulesOutcome(stage.helper.value, db.value, name, b.accepts, stage.state);
      }
    }
  }

  /** Mastership and config failures propagate: a switch comes up exactly
      when it grants mastership, its config file reads, and the config branch
      (for a truthy config: every step goes through, a gRPC pipeline error
      aside) or the fallback (the default P4Info loads) binds a helper; when
      that branch raises, the switch fails with its error. */
  lemma BringUpSucceeds(net: Network, db: Option<Db>, name: string)
    ensures BringUp(net, db, name).status.Success? <==>
      net.devices(name).grantsMastership && net.configs(name).Ok? &&
      Configure(net, net.devices(name), net.configs(name).value, Connected.(isMaster := true)).helper.Ok?
    ensures net.devices(name).grantsMastership && net.configs(name).Err? ==>
      BringUp(net, db, name) == Run(Connected.(isMaster := true), Failure(net.configs(name).error))
    ensures net.devices(name).grantsMastership && net.configs(name).Ok? ==>
      var stage := Configure(net, net.devices(name), net.configs(name).value, Connected.(isMaster := true));
      stage.helper.Err? ==> BringUp(net, db, name) == Run(stage.state, Failure(stage.helper.error))
    ensures net.devices(name).grantsMastership && net.configs(name).Ok? && Truthy(net.configs(name).value) ==>
      (BringUp(net, db, name).status.Success? <==>
         ConfigGoesThrough(net, net.devices(name), net.configs(name).value, Connected.(isMaster := true)))
    ensures net.devices(name).grantsMastership && net.configs(name).Ok? && !Truthy(net.configs(name).value) ==>
      (BringUp(net, db, name).status.Success? <==> net.loadP4Info(Str(DefaultP4Info)).Some?)
  {
    if net.configs(name).Ok? {
      ConfigStepSucceeds(net, net.devices(name), net.configs(name).value, Connected.(isMaster := true));
    }
  }

  /** What a switch that comes up holds: without a DB, the entries of a
      truthy config in order (nothing for the fallback, which installs no
      pipeline); with a DB, that followed by the tag entries and then the
      filter entries its rows compile to, each class in row order. */
  lemma BringUpEntries(net: Network, db: Db, name: string)
    ensures BringUp(net, None, name).status.Success? ==>
      var cfg := net.configs(name).value;
      var stage := Configure(net, net.devices(name), cfg, Connected.(isMaster := true));
      BringUp(net, None, name).state == stage.state &&
      (Truthy(cfg) ==>
        cfg.Dict? && Items(PlanOf(cfg.fields).entries).Ok? &&
        var es := BuildEach(JsonBuilder(stage.helper.value), Items(PlanOf(cfg.fields).entries).value);
        es.Ok? && stage.state.written == es.value) &&
      (!Truthy(cfg) ==> stage.state == Connected.(isMaster := true))
    ensures BringUp(net, Some(db), name).status.Success? ==>
      var info := Configure(net, net.devices(name), net.configs(name).value, Connected.(isMaster := true)).helper.value;
      TagsThenFilters(BringUp(net, None, name).state.written, BringUp(net, Some(db), name).state.written,
                      TagEntries(info, db, name), FilterEntries(info, db, name))
  {
    var b := net.devices(name);
    if b.grantsMastership && net.configs(name).Ok? {
      var s := Connected.(isMaster := true);
      var cfg := net.configs(name).value;
      var stage := Configure(net, b, cfg, s);
      if Truthy(cfg) {
        ConfigStepOutcome(net, b, cfg, s);
      }
      if stage.helper.Ok? {
        DbRulesOutcome(stage.helper.value, db, name, b.accepts, stage.state);
      }
    }
  }

  /** program_from_config: opens a connection and programs the switch. */
  method ProgramFromConfig(net: Network, db: Option<Db>, target: SwitchAddr) returns (sw: Switch, st: Status)
    ensures fresh(sw)
    ensures sw.name == target.name && sw.address == target.address && sw.deviceId == target.deviceId
    ensures sw.behaviour == net.devices(target.name)
    ensures Run(sw.State(), st) == BringUp(net, db, target.name)
  {
    sw := new Switch(target.name, target.address, target.deviceId, net.devices(target.name));
    var granted := sw.MasterArbitrationUpdate();
    if !granted {
      return sw, Failure(MastershipDenied);
    }
    var cfg := net.configs(target.name);
    if cfg.Err? {
      return sw, Failure(cfg.error);
    }
    var helper: Result<P4Info>;
    if Truthy(cfg.value) {
      helper := ApplyConfig(sw, net, cfg.value);
    } else {
      var loaded := net.loadP4Info(Str(DefaultP4Info));
      helper := if loaded.Some? then Ok(loaded.value) else Err(P4InfoUnreadable);
    }
    if helper.Err? {
      return sw, Failure(helper.error);
    }
    if db.Some? {
      var ignored := ProgramDbRules(db, target.name, sw, helper.value);
    }
    return sw, Success;
  }

  const FilterSwitches: seq<SwitchAddr> := [
    SwitchAddr("s11", "127.0.0.1:50051", 0),
    SwitchAddr("s12", "127.0.0.1:50052", 1),
    SwitchAddr("s13", "127.0.0.1:50053", 2),
    SwitchAddr("s14", "127.0.0.1:50054", 3)]

  const TagSwitches: seq<SwitchAddr> := [
    SwitchAddr("s21", "127.0.0.1:50055", 4),
    SwitchAddr("s22", "127.0.0.1:50056", 5),
    SwitchAddr("s23", "127.0.0.1:50057", 6),
    SwitchAddr("s24", "127.0.0.1:50058", 7)]

  /** `switches.update(FILTER_SWITCH); switches.update(TAG_SWITCH)`: the
      names are disjoint, so the filter switches come first, then the tag
      switches, each in declaration order. */
  const SwitchOrder: seq<SwitchAddr> := FilterSwitches + TagSwitches

  function Succeeds(net: Network, db: Option<Db>): SwitchAddr -> bool {
    (target: SwitchAddr) => BringUp(net, db, target.name).status.Success?
  }

  /** The switches main keeps a connection to. */
  function Programmed(net: Network, db: Option<Db>): seq<SwitchAddr> {
    Isolated(SwitchOrder, Succeeds(net, db))
  }

  /** main: every switch is attempted whatever happened to the ones before
      it; a switch is kept exactly when its own bring-up succeeds. */
  lemma FleetIsolation(net: Network, db: Option<Db>, target: SwitchAddr)
    requires target in SwitchOrder
    ensures target in Programmed(net, db) <==> BringUp(net, db, target.name).status.Success?
  {
    IsolatedMembers(SwitchOrder, Succeeds(net, db));
  }

  /** `sw` holds what bringing it up leaves. */
  ghost predicate Settled(net: Network, db: Option<Db>, sw: Switch)
    reads sw
  {
    sw.State() == BringUp(net, db, sw.name).state
  }

  /** `conns` are the connections main holds after trying the first `i`
      switches: one per switch that came up, in order, each as bringing it up
      left it. */
  ghost predicate Kept(net: Network, db: Option<Db>, conns: seq<Switch>, i: nat)
    reads conns
  {
    i <= |SwitchOrder| &&
    var kept := Isolated(SwitchOrder[..i], Succeeds(net, db));
    |conns| == |kept| &&
    forall j :: 0 <= j < |conns| ==>
      conns[j].name == kept[j].name && conns[j].address == kept[j].address && Settled(net, db, conns[j])
  }

  /** One turn of main's loop: program the next switch and keep its
      connection if it came up. */
  method ProgramNext(net: Network, db: Option<Db>, conns: seq<Switch>, i: nat) returns (next: seq<Switch>)
    requires i < |SwitchOrder| && Kept(net, db, conns, i)
    ensures Kept(net, db, next, i + 1)
  {
    var target := SwitchOrder[i];
    IsolatedStep(SwitchOrder, i, Succeeds(net, db));
    var sw, st := ProgramFromConfig(net, db, target);
    assert Settled(net, db, sw);
    next := if st.Success? then conns + [sw] else conns;
  }

  /** main: programs each switch in turn, skipping one that fails, and keeps
      the connections of those that came up, in order. */
  method ProgramAll(net: Network, db: Option<Db>) returns (allConns: seq<Switch>)
    ensures |allConns| == |Programmed(net, db)|
    ensures forall j :: 0 <= j < |allConns| ==>
      allConns[j].name == Programmed(net, db)[j].name &&
      allConns[j].address == Programmed(net, db)[j].address &&
      Settled(net, db, allConns[j])
  {
    allConns := [];
    var i := 0;
    while i < |SwitchOrder|
      invariant 0 <= i <= |SwitchOrder|
      invariant Kept(net, db, allConns, i)
    {
      allConns := ProgramNext(net, db, allConns, i);
      i := i + 1;
    }
    assert SwitchOrder[..i] == SwitchOrder;
  }
}
