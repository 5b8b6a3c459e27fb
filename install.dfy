/** The programming steps controller_db.py and controller_v2.py share with the
    same code: build every entry before writing any, write entries in order
    stopping at the first failure (write_entries), install the pipeline while
    tolerating a gRPC error (set_pipeline), and program a switch from its
    parsed JSON config (the `if cfg:` branch of program_from_config). */
module Install {
  import opened Wrappers
  import opened Json
  import opened Entries
  import opened Device

  /** Builds every element in order and stops at the first failure. */
  function BuildEach<T>(build: T -> Result<TableEntry>, xs: seq<T>): (r: Result<seq<TableEntry>>)
    ensures r.Ok? ==> |r.value| == |xs| && forall i :: 0 <= i < |xs| ==> build(xs[i]) == Ok(r.value[i])
    ensures r.Err? ==> exists i :: 0 <= i < |xs| && build(xs[i]) == Err(r.error) &&
                                   forall j :: 0 <= j < i ==> build(xs[j]).Ok?
    decreases |xs|
  {
    if xs == [] then Ok([])
    else
      match build(xs[0])
      case Err(e) => Err(e)
      case Ok(first) =>
        var rest := BuildEach(build, xs[1..]);
        if rest.Err? then
          assert exists i :: 1 <= i < |xs| && build(xs[i]) == Err(rest.error) &&
                             forall j :: 0 <= j < i ==> build(xs[j]).Ok? by {
            var k :| 0 <= k < |xs[1..]| && build(xs[1..][k]) == Err(rest.error) &&
                     forall j :: 0 <= j < k ==> build(xs[1..][j]).Ok?;
            assert build(xs[k + 1]) == Err(rest.error);
            forall j | 0 <= j < k + 1 ensures build(xs[j]).Ok? {
              if j > 0 { assert xs[j] == xs[1..][j - 1]; }
            }
          }
          Err(rest.error)
        else
          Ok([first] + rest.value)
  }

  /** The loop `for e in entries: tbl_entries.append(build(e))` with its
      re-raise: nothing is returned unless every entry was built. */
  method BuildEntries<T>(build: T -> Result<TableEntry>, xs: seq<T>) returns (r: Result<seq<TableEntry>>)
    ensures r == BuildEach(build, xs)
  {
    var built: seq<TableEntry> := [];
    var i := 0;
    while i < |xs|
      invariant 0 <= i <= |xs|
      invariant |built| == i
      invariant forall j :: 0 <= j < i ==> build(xs[j]) == Ok(built[j])
    {
      var b := build(xs[i]);
      if b.Err? {
        var spec := BuildEach(build, xs);
        if spec.Err? {
          var k :| 0 <= k < |xs| && build(xs[k]) == Err(spec.error) &&
                   forall j :: 0 <= j < k ==> build(xs[j]).Ok?;
          assert k == i;
        }
        return Err(b.error);
      }
      built := built + [b.value];
      i := i + 1;
    }
    var spec := BuildEach(build, xs);
    assert spec.value == built;
    return Ok(built);
  }

  /** What writing `es` in order does to a switch in state `s`, stopping at the
      first entry the switch refuses. */
  function Writes(accepts: (seq<TableEntry>, TableEntry) -> bool, s: DeviceState, es: seq<TableEntry>): Run
    decreases |es|
  {
    if es == [] then Run(s, Success)
    else if accepts(s.written, es[0]) then Writes(accepts, s.(written := s.written + [es[0]]), es[1..])
    else Run(s, Failure(WriteRejected))
  }

  /** Writing touches nothing but the written entries; on success all of `es`
      is appended in order; on failure a proper prefix is appended, the entry
      after it was refused, and the earlier writes stay in place. */
  lemma {:induction false} WritesOutcome(accepts: (seq<TableEntry>, TableEntry) -> bool, s: DeviceState, es: seq<TableEntry>)
    ensures Writes(accepts, s, es).state == s.(written := Writes(accepts, s, es).state.written)
    ensures Writes(accepts, s, es).status.Success? ==> Writes(accepts, s, es).state.written == s.written + es
    ensures Writes(accepts, s, es).status.Failure? ==>
      Writes(accepts, s, es).status.error == WriteRejected &&
      exists n :: 0 <= n < |es| && Writes(accepts, s, es).state.written == s.written + es[..n] &&
                  !accepts(s.written + es[..n], es[n])
    decreases |es|
  {
    if es != [] && accepts(s.written, es[0]) {
      var s' := s.(written := s.written + [es[0]]);
      WritesOutcome(accepts, s', es[1..]);
      var r := Writes(accepts, s', es[1..]);
      assert s.written + [es[0]] + es[1..] == s.written + es;
      if r.status.Failure? {
        var n :| 0 <= n < |es[1..]| && r.state.written == s'.written + es[1..][..n] &&
                 !accepts(s'.written + es[1..][..n], es[1..][n]);
        assert s'.written + es[1..][..n] == s.written + es[..n + 1];
      }
    } else if es != [] {
      assert s.written + es[..0] == s.written;
    }
  }

  /** write_entries: the switch ends in the state Writes describes, and the
      result says whether every write went through. */
  method WriteEntries(sw: Switch, es: seq<TableEntry>) returns (st: Status)
    modifies sw
    ensures Run(sw.State(), st) == Writes(sw.behaviour.accepts, old(sw.State()), es)
  {
    var i := 0;
    while i < |es|
      invariant 0 <= i <= |es|
      invariant Writes(sw.behaviour.accepts, old(sw.State()), es) == Writes(sw.behaviour.accepts, sw.State(), es[i..])
    {
      assert es[i..][1..] == es[i + 1..];
      var accepted := sw.WriteTableEntry(es[i]);
      if !accepted {
        return Failure(WriteRejected);
      }
      i := i + 1;
    }
    return Success;
  }

  /** set_pipeline: a gRPC error from the switch is tolerated, any other
      error propagates. */
  function PipelineStep(b: Behaviour, s: DeviceState, info: P4Info, bmv2Json: Value): (r: Run)
    ensures r.status.Failure? <==> b.pipelineReply == LocalError
    ensures r.state == s.(pipeline := r.state.pipeline)
    ensures r.state.pipeline == if b.pipelineReply == Installed then Some(Pipeline(info.path, bmv2Json)) else s.pipeline
  {
    match b.pipelineReply
    case Installed => Run(s.(pipeline := Some(Pipeline(info.path, bmv2Json))), Success)
    case RpcError => Run(s, Success)
    case LocalError => Run(s, Failure(PipelineFailed))
  }

  method SetPipeline(sw: Switch, info: P4Info, bmv2Json: Value) returns (st: Status)
    modifies sw
    ensures Run(sw.State(), st) == PipelineStep(sw.behaviour, old(sw.State()), info, bmv2Json)
  {
    var reply := sw.SetForwardingPipelineConfig(info, bmv2Json);
    if reply == LocalError {
      return Failure(PipelineFailed);
    }
    return Success;
  }

  const DefaultP4Info: string := "build/basic.p4.p4info.txtpb"
  const DefaultBmv2Json: string := "build/basic.json"

  /** The world one switch is programmed in: how each switch behaves, what
      load_switch_config returns for it (Ok(Null) when there is no file, Err
      when json.load raises), and what P4InfoHelper(path) loads. */
  datatype Network = Network(
    devices: string -> Behaviour,
    configs: string -> Result<Value>,
    loadP4Info: Value -> Option<P4Info>)

  /** The three values program_from_config reads from a config dict. */
  datatype ConfigPlan = ConfigPlan(p4info: Value, bmv2Json: Value, entries: Value)

  function PlanOf(cfg: map<string, Value>): ConfigPlan {
    ConfigPlan(
      Get(cfg, "p4info", Get(cfg, "p4Info", Str(DefaultP4Info))),
      Get(cfg, "bmv2_json", Get(cfg, "bmv2_json", Str(DefaultBmv2Json))),
      Get(cfg, "table_entries", Get(cfg, "tableEntries", List([]))))
  }

  /** The config keys and their fallbacks: 'p4info', then 'p4Info', then the
      default P4Info; 'bmv2_json' (looked up twice) then the default pipeline;
      'table_entries', then 'tableEntries', then no entries. */
  lemma ConfigFallbacks(cfg: map<string, Value>)
    ensures PlanOf(cfg).p4info ==
      if "p4info" in cfg then cfg["p4info"] else if "p4Info" in cfg then cfg["p4Info"] else Str(DefaultP4Info)
    ensures PlanOf(cfg).bmv2Json == if "bmv2_json" in cfg then cfg["bmv2_json"] else Str(DefaultBmv2Json)
    ensures PlanOf(cfg).entries ==
      if "table_entries" in cfg then cfg["table_entries"]
      else if "tableEntries" in cfg then cfg["tableEntries"] else List([])
  {
  }

  /** What `for e in entries` walks: a list or tuple its elements, a string
      its characters, an empty dict nothing. A non-empty dict yields its keys,
      which are strings and never build, so it is reported as that failure;
      anything else is not iterable and raises at the `for` itself. */
  function Items(v: Value): (r: Result<seq<Value>>)
    ensures v.List? || v.Tuple? ==> r == Ok(v.items)
    ensures v.Str? ==> r.Ok? && |r.value| == |v.s| && forall i :: 0 <= i < |v.s| ==> r.value[i] == Str([v.s[i]])
    ensures v.Dict? ==> (r.Ok? <==> v.fields == map[]) && (r.Ok? ==> r.value == [])
    ensures !(v.List? || v.Tuple? || v.Str? || v.Dict?) ==> r == Err(NotIterable)
  {
    match v
    case List(xs) => Ok(xs)
    case Tuple(xs) => Ok(xs)
    case Str(s) => Ok(seq(|s|, i requires 0 <= i < |s| => Str([s[i]])))
    case Dict(m) => if m == map[] then Ok([]) else Err(NotAnObject)
    case _ => Err(NotIterable)
  }

  /** The state a programming step leaves, and the P4Info helper it binds
      or the error it raises. */
  datatype Stage = Stage(state: DeviceState, helper: Result<P4Info>)

  /** The `if cfg:` branch of program_from_config, for a truthy config: load
      the P4Info, install the pipeline if bmv2_json is truthy, build every
      entry, then write them in order. */
  function ConfigStep(net: Network, b: Behaviour, cfg: Value, s: DeviceState): Stage {
    if !cfg.Dict? then Stage(s, Err(NotAnObject))
    else
      var plan := PlanOf(cfg.fields);
      match net.loadP4Info(plan.p4info)
      case None => Stage(s, Err(P4InfoUnreadable))
      case Some(info) =>
        var p := if Truthy(plan.bmv2Json) then PipelineStep(b, s, info, plan.bmv2Json) else Run(s, Success);
        if p.status.Failure? then Stage(p.state, Err(p.status.error))
        else
          match Items(plan.entries)
          case Err(e) => Stage(p.state, Err(e))
          case Ok(objs) =>
            match BuildEach(JsonBuilder(info), objs)
            case Err(e) => Stage(p.state, Err(e))
            case Ok(es) =>
              var w := if es != [] then Writes(b.accepts, p.state, es) else Run(p.state, Success);
              Stage(w.state, if w.status.Success? then Ok(info) else Err(w.status.error))
  }

  /** The config branch never touches mastership or the connection; it
      installs a pipeline only when bmv2_json is truthy, and then the one
      named; it writes nothing unless every entry was built, then writes a
      prefix of the built entries in order, all of them when it succeeds, and
      then binds the helper loaded from the configured P4Info path. */
  lemma ConfigStepOutcome(net: Network, b: Behaviour, cfg: Value, s: DeviceState)
    ensures ConfigStep(net, b, cfg, s).state.isMaster == s.isMaster
    ensures ConfigStep(net, b, cfg, s).state.isOpen == s.isOpen
    ensures ConfigStep(net, b, cfg, s).state.pipeline != s.pipeline ==>
      cfg.Dict? && Truthy(PlanOf(cfg.fields).bmv2Json) && b.pipelineReply == Installed &&
      net.loadP4Info(PlanOf(cfg.fields).p4info).Some? &&
      ConfigStep(net, b, cfg, s).state.pipeline ==
        Some(Pipeline(net.loadP4Info(PlanOf(cfg.fields).p4info).value.path, PlanOf(cfg.fields).bmv2Json))
    ensures cfg.Dict? && Truthy(PlanOf(cfg.fields).bmv2Json) && net.loadP4Info(PlanOf(cfg.fields).p4info).Some? &&
            b.pipelineReply == Installed ==>
      ConfigStep(net, b, cfg, s).state.pipeline ==
        Some(Pipeline(net.loadP4Info(PlanOf(cfg.fields).p4info).value.path, PlanOf(cfg.fields).bmv2Json))
    ensures ConfigStep(net, b, cfg, s).state.written != s.written ==>
      cfg.Dict? && net.loadP4Info(PlanOf(cfg.fields).p4info).Some? &&
      Items(PlanOf(cfg.fields).entries).Ok? &&
      var es := BuildEach(JsonBuilder(net.loadP4Info(PlanOf(cfg.fields).p4info).value),
                          Items(PlanOf(cfg.fields).entries).value);
      es.Ok? && exists n :: 0 <= n <= |es.value| && ConfigStep(net, b, cfg, s).state.written == s.written + es.value[..n]
    ensures ConfigStep(net, b, cfg, s).helper.Ok? ==>
      cfg.Dict? &&
      var info := net.loadP4Info(PlanOf(cfg.fields).p4info);
      info == Some(ConfigStep(net, b, cfg, s).helper.value) &&
      Items(PlanOf(cfg.fields).entries).Ok? &&
      var es := BuildEach(JsonBuilder(info.value), Items(PlanOf(cfg.fields).entries).value);
      es.Ok? && ConfigStep(net, b, cfg, s).state.written == s.written + es.value
  {
    if cfg.Dict? {
      var plan := PlanOf(cfg.fields);
      if net.loadP4Info(plan.p4info).Some? {
        var info := net.loadP4Info(plan.p4info).value;
        var p := if Truthy(plan.bmv2Json) then PipelineStep(b, s, info, plan.bmv2Json) else Run(s, Success);
        if p.status.Success? && Items(plan.entries).Ok? {
          var es := BuildEach(JsonBuilder(info), Items(plan.entries).value);
          if es.Ok? {
            if es.value != [] {
              WritesOutcome(b.accepts, p.state, es.value);
              var w := Writes(b.accepts, p.state, es.value);
              if w.status.Success? {
                assert es.value[..|es.value|] == es.value;
              }
            } else {
              assert s.written + es.value[..0] == s.written;
            }
          }
        }
      }
    }
  }

  /** Whether writes go through depends only on the entries already written. */
  lemma {:induction false} WritesStatusOnlyOnWritten(accepts: (seq<TableEntry>, TableEntry) -> bool,
                                                    s: DeviceState, t: DeviceState, es: seq<TableEntry>)
    requires s.written == t.written
    ensures Writes(accepts, s, es).status == Writes(accepts, t, es).status
    decreases |es|
  {
    if es != [] && accepts(s.written, es[0]) {
      WritesStatusOnlyOnWritten(accepts, s.(written := s.written + [es[0]]), t.(written := t.written + [es[0]]), es[1..]);
    }
  }

  /** Every step of the config branch goes through: the config is a dict,
      its P4Info loads, the switch does not raise a local error for a truthy
      bmv2_json, the entries can be walked and all build, and the switch
      accepts each of them in turn. */
  predicate ConfigGoesThrough(net: Network, b: Behaviour, cfg: Value, s: DeviceState) {
    cfg.Dict? &&
    var plan := PlanOf(cfg.fields);
    net.loadP4Info(plan.p4info).Some? &&
    (Truthy(plan.bmv2Json) ==> b.pipelineReply != LocalError) &&
    Items(plan.entries).Ok? &&
    var es := BuildEach(JsonBuilder(net.loadP4Info(plan.p4info).value), Items(plan.entries).value);
    es.Ok? && Writes(b.accepts, s, es.value).status.Success?
  }

  /** The config branch binds the helper exactly when every one of its steps
      goes through; a gRPC error from the pipeline install does not stop it. */
  lemma ConfigStepSucceeds(net: Network, b: Behaviour, cfg: Value, s: DeviceState)
    ensures ConfigStep(net, b, cfg, s).helper.Ok? <==> ConfigGoesThrough(net, b, cfg, s)
  {
    if cfg.Dict? {
      var plan := PlanOf(cfg.fields);
      if net.loadP4Info(plan.p4info).Some? {
        var info := net.loadP4Info(plan.p4info).value;
        var p := if Truthy(plan.bmv2Json) then PipelineStep(b, s, info, plan.bmv2Json) else Run(s, Success);
        if p.status.Success? && Items(plan.entries).Ok? {
          var es := BuildEach(JsonBuilder(info), Items(plan.entries).value);
          if es.Ok? {
            WritesStatusOnlyOnWritten(b.accepts, s, p.state, es.value);
          }
        }
      }
    }
  }

  /** The `if cfg:` branch as program_from_config runs it on a connection. */
  method ApplyConfig(sw: Switch, net: Network, cfg: Value) returns (helper: Result<P4Info>)
    modifies sw
    ensures Stage(sw.State(), helper) == ConfigStep(net, sw.behaviour, cfg, old(sw.State()))
  {
    if !cfg.Dict? {
      return Err(NotAnObject);
    }
    var plan := PlanOf(cfg.fields);
    var loaded := net.loadP4Info(plan.p4info);
    if loaded.None? {
      return Err(P4InfoUnreadable);
    }
    var info := loaded.value;
    if Truthy(plan.bmv2Json) {
      var st := SetPipeline(sw, info, plan.bmv2Json);
      if st.Failure? {
        return Err(st.error);
      }
    }
    var objs := Items(plan.entries);
    if objs.Err? {
      return Err(objs.error);
    }
    var built := BuildEntries(JsonBuilder(info), objs.value);
    if built.Err? {
      return Err(built.error);
    }
    if built.value != [] {
      var st := WriteEntries(sw, built.value);
      if st.Failure? {
        return Err(st.error);
      }
    }
    return Ok(info);
  }
}
