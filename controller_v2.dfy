/** controller_v2.py: each switch is programmed from its JSON config alone; a
    switch without a usable config fails, and the others are still programmed.
    Its build_entry_from_json, write_entries and set_pipeline have the same
    code as controller_db.py's and are the ones of Entries and Install. */
module ControllerV2 {
  import opened Wrappers
  import opened Json
  import Entries
  import opened Device
  import opened Install
  import opened Fleet

  /** normalize_match_value as controller_v2.py writes it, without the
      leading None check. */
  function NormalizeMatchValue(raw: Value): Value {
    match raw
    case List(xs) => if |xs| == 1 then Tuple([xs[0]]) else Tuple(xs)
    case Tuple(xs) => if |xs| == 1 then Tuple([xs[0]]) else Tuple(xs)
    case Str(_) => Tuple([raw])
    case Int(_) => Tuple([raw, Int(0)])
    case Bool(_) => Tuple([raw, Int(0)])
    case _ => raw
  }

  /** Without the None check None still falls through to "return as-is", so
      both controllers normalise every value alike. */
  lemma SameNormalization(raw: Value)
    ensures NormalizeMatchValue(raw) == Entries.NormalizeMatchValue(raw)
  {
  }

  /** The shapes the docstring lists. `["0x0c", 8]` keeps its string: the
      code converts nothing to an int, whatever the docstring says. */
  lemma DocumentedShapes()
    ensures NormalizeMatchValue(List([Str("192.168.11.0"), Int(24)])) == Tuple([Str("192.168.11.0"), Int(24)])
    ensures NormalizeMatchValue(List([Int(12), Int(8)])) == Tuple([Int(12), Int(8)])
    ensures NormalizeMatchValue(List([Str("0x0c"), Int(8)])) == Tuple([Str("0x0c"), Int(8)])
    ensures NormalizeMatchValue(Str("192.168.11.1")) == Tuple([Str("192.168.11.1")])
    ensures NormalizeMatchValue(Int(12)) == Tuple([Int(12), Int(0)])
    ensures NormalizeMatchValue(Float(1.5)) == Float(1.5)
  {
  }

  /** program_from_config for one switch: mastership (fatal), then the config
      branch; without a truthy config the helper is never bound and the
      final return raises. */
  function BringUp(net: Network, name: string): Run {
    var b := net.devices(name);
    if !b.grantsMastership then Run(Connected, Failure(MastershipDenied))
    else
      var s := Connected.(isMaster := true);
      match net.configs(name)
      case Err(e) => Run(s, Failure(e))
      case Ok(cfg) =>
        if Truthy(cfg) then
          var stage := ConfigStep(net, b, cfg, s);
          Run(stage.state, if stage.helper.Ok? then Success else Failure(stage.helper.error))
        else Run(s, Failure(HelperUnbound))
  }

  /** A switch with no config file (or an empty one) always fails, after
      taking mastership and before writing anything. */
  lemma ConfigLessSwitchFails(net: Network, name: string)
    requires net.configs(name).Ok? && !Truthy(net.configs(name).value)
    ensures BringUp(net, name).status.Failure?
    ensures BringUp(net, name).state.written == []
    ensures BringUp(net, name).status.error == if net.devices(name).grantsMastership then HelperUnbound else MastershipDenied
  {
  }

  /** A switch that comes up holds mastership, the entries of its config in
      order, all built before the first was written, and the configured
      pipeline with its P4Info when it has a truthy bmv2_json the switch
      installed (none otherwise). */
  lemma BringUpOutcome(net: Network, name: string)
    ensures BringUp(net, name).status.Success? ==>
      net.devices(name).grantsMastership && net.configs(name).Ok? &&
      var cfg := net.configs(name).value;
      Truthy(cfg) && cfg.Dict? &&
      var plan := PlanOf(cfg.fields);
      net.loadP4Info(plan.p4info).Some? && Items(plan.entries).Ok? &&
      var info := net.loadP4Info(plan.p4info).value;
      var es := BuildEach(Entries.JsonBuilder(info), Items(plan.entries).value);
      es.Ok? &&
      BringUp(net, name).state == Connected.(
        isMaster := true,
        pipeline := if Truthy(plan.bmv2Json) && net.devices(name).pipelineReply == Installed
                    then Some(Pipeline(info.path, plan.bmv2Json)) else None,
        written := es.value)
  {
    if BringUp(net, name).status.Success? {
      ConfigStepOutcome(net, net.devices(name), net.configs(name).value, Connected.(isMaster := true));
    }
  }

  /** A switch comes up exactly when it grants mastership, has a truthy
      config, and every step of the config branch goes through; in
      particular a gRPC error from the pipeline install does not stop it. */
  lemma BringUpSucceeds(net: Network, name: string)
    ensures BringUp(net, name).status.Success? <==>
      net.devices(name).grantsMastership && net.configs(name).Ok? && Truthy(net.configs(name).value) &&
      ConfigGoesThrough(net, net.devices(name), net.configs(name).value, Connected.(isMaster := true))
  {
    if net.configs(name).Ok? {
      ConfigStepSucceeds(net, net.devices(name), net.configs(name).value, Connected.(isMaster := true));
    }
  }

  /** program_from_config: opens a connection and programs the switch. */
  method ProgramFromConfig(net: Network, target: SwitchAddr) returns (sw: Switch, st: Status)
    ensures fresh(sw)
    ensures sw.name == target.name && sw.address == target.address && sw.deviceId == target.deviceId
    ensures sw.behaviour == net.devices(target.name)
    ensures Run(sw.State(), st) == BringUp(net, target.name)
  {
    sw := new Switch(target.name, target.address, target.deviceId, net.devices(target.name));
    var granted := sw.MasterArbitrationUpdate();
    if !granted {
      return sw, Failure(MastershipDenied);
    }
    var cfg := net.configs(target.name);
    if cfg.Err? {
      return sw, Failure(cfg.error);
    }
    if !Truthy(cfg.value) {
      return sw, Failure(HelperUnbound);
    }
    var helper := ApplyConfig(sw, net, cfg.value);
    st := if helper.Ok? then Success else Failure(helper.error);
  }

  const TagSwitches: seq<SwitchAddr> := [
    SwitchAddr("s21", "127.0.0.1:50054", 3),
    SwitchAddr("s22", "127.0.0.1:50055", 4)]

  const FilterSwitches: seq<SwitchAddr> := [
    SwitchAddr("s11", "127.0.0.1:50051", 0),
    SwitchAddr("s12", "127.0.0.1:50052", 1),
    SwitchAddr("s13", "127.0.0.1:50053", 2)]

  /** `switches.update(TAG_SWITCH); switches.update(FILTER_SWITCH)`: the
      names are disjoint, so the tag switches come first. */
  const SwitchOrder: seq<SwitchAddr> := TagSwitches + FilterSwitches

  function Succeeds(net: Network): SwitchAddr -> bool {
    (target: SwitchAddr) => BringUp(net, target.name).status.Success?
  }

  /** The switches main keeps a connection to. */
  function Programmed(net: Network): seq<SwitchAddr> {
    Isolated(SwitchOrder, Succeeds(net))
  }

  /** main: a switch is kept exactly when its own bring-up succeeds, whatever
      happened to the others; in particular no config-less switch is kept. */
  lemma FleetIsolation(net: Network, target: SwitchAddr)
    requires target in SwitchOrder
    ensures target in Programmed(net) <==> BringUp(net, target.name).status.Success?
    ensures net.configs(target.name).Ok? && !Truthy(net.configs(target.name).value) ==> target !in Programmed(net)
  {
    IsolatedMembers(SwitchOrder, Succeeds(net));
  }

  /** `sw` holds what bringing it up leaves. */
  ghost predicate Settled(net: Network, sw: Switch)
    reads sw
  {
    sw.State() == BringUp(net, sw.name).state
  }

  /** `conns` are the connections main holds after trying the first `i`
      switches: one per switch that came up, in order, each as bringing it up
      left it. */
  ghost predicate Kept(net: Network, conns: seq<Switch>, i: nat)
    reads conns
  {
    i <= |SwitchOrder| &&
    var kept := Isolated(SwitchOrder[..i], Succeeds(net));
    |conns| == |kept| &&
    forall j :: 0 <= j < |conns| ==>
      conns[j].name == kept[j].name && conns[j].address == kept[j].address && Settled(net, conns[j])
  }

  /** One turn of main's loop: program the next switch and keep its
      connection if it came up. */
  method ProgramNext(net: Network, conns: seq<Switch>, i: nat) returns (next: seq<Switch>)
    requires i < |SwitchOrder| && Kept(net, conns, i)
    ensures Kept(net, next, i + 1)
  {
    var target := SwitchOrder[i];
    IsolatedStep(SwitchOrder, i, Succeeds(net));
    var sw, st := ProgramFromConfig(net, target);
    assert Settled(net, sw);
    next := if st.Success? then conns + [sw] else conns;
  }

  /** main: programs each switch in turn, skipping one that fails, and keeps
      the connections of those that came up, in order. */
  method ProgramAll(net: Network) returns (allConns: seq<Switch>)
    ensures |allConns| == |Programmed(net)|
    ensures forall j :: 0 <= j < |allConns| ==>
      allConns[j].name == Programmed(net)[j].name &&
      allConns[j].address == Programmed(net)[j].address &&
      Settled(net, allConns[j])
  {
    allConns := [];
    var i := 0;
    while i < |SwitchOrder|
      invariant 0 <= i <= |SwitchOrder|
      invariant Kept(net, allConns, i)
    {
      allConns := ProgramNext(net, allConns, i);
      i := i + 1;
    }
    assert SwitchOrder[..i] == SwitchOrder;
  }
}
