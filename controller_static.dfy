/** controller.py: hard-coded forwarding and tagging rules per switch name,
    each list built in full and then inserted in order; the first switch that
    fails ends the whole run. */
module ControllerStatic {
  import opened Wrappers
  import opened Json
  import opened Entries
  import opened Device
  import opened Install
  import opened Fleet

  const DscpA: int := 10
  const DscpB: int := 11
  const DscpC: int := 12

  const TagP4InfoFile: string := "build/tag.p4.p4info.txtpb"
  const TagBmv2Json: string := "build/tag.json"
  const FilterP4InfoFile: string := "build/filter.p4.p4info.txtpb"
  const FilterBmv2Json: string := "build/filter.json"

  const LpmTable: string := "MyIngress.ipv4_lpm"
  const ForwardAction: string := "MyIngress.ipv4_forward"
  const DropAction: string := "MyIngress.drop"
  const TagTable: string := "MyEgress.set_dscp_tag"
  const TagAction: string := "MyEgress.modify_dscp"

  /** The default action of the LPM table: drop. */
  const DropDefault: EntryRecord := EntryRecord(Str(LpmTable), map[], true, Str(DropAction), EmptyDict)

  /** An LPM entry forwarding `prefix/len` to a MAC address and port. */
  function ForwardTo(prefix: string, len: int, mac: string, port: int): EntryRecord {
    EntryRecord(
      Str(LpmTable),
      map["hdr.ipv4.dstAddr" := Tuple([Str(prefix), Int(len)])],
      false,
      Str(ForwardAction),
      Dict(map["dstAddr" := Str(mac), "port" := Int(port)]))
  }

  /** A tagging entry setting `dscp` on packets from `prefix/24`. */
  function TagSource(prefix: string, dscp: int): EntryRecord {
    EntryRecord(
      Str(TagTable),
      map["hdr.ipv4.srcAddr" := Tuple([Str(prefix), Int(24)])],
      false,
      Str(TagAction),
      Dict(map["dscp_value" := Int(dscp)]))
  }

  /** The entries forwarding_rule builds for a switch; no branch matches any
      other name. */
  function ForwardingRules(name: string): seq<EntryRecord> {
    if name == "s11" then
      [DropDefault,
       ForwardTo("192.168.11.1", 32, "08:00:00:00:01:11", 1),
       ForwardTo("192.168.11.2", 32, "08:00:00:00:01:22", 2),
       ForwardTo("192.168.0.0", 16, "08:00:00:00:04:00", 3)]
    else if name == "s12" then
      [DropDefault,
       ForwardTo("192.168.12.1", 32, "08:00:00:00:02:11", 1),
       ForwardTo("192.168.12.2", 32, "08:00:00:00:02:22", 2),
       ForwardTo("192.168.0.0", 16, "08:00:00:00:04:00", 3)]
    else if name == "s13" then
      [DropDefault,
       ForwardTo("192.168.13.1", 32, "08:00:00:00:03:11", 1),
       ForwardTo("192.168.13.2", 32, "08:00:00:00:03:22", 2),
       ForwardTo("192.168.13.3", 32, "08:00:00:00:03:33", 3),
       ForwardTo("192.168.0.0", 16, "08:00:00:00:05:00", 4)]
    else if name == "s21" then
      [DropDefault,
       ForwardTo("192.168.11.0", 24, "08:00:00:00:01:00", 1),
       ForwardTo("192.168.12.0", 24, "08:00:00:00:02:00", 2),
       ForwardTo("192.168.0.0", 16, "08:00:00:00:05:00", 3)]
    else if name == "s22" then
      [DropDefault,
       ForwardTo("192.168.13.0", 24, "08:00:00:00:03:00", 1),
       ForwardTo("192.168.0.0", 16, "08:00:00:00:04:00", 2)]
    else []
  }

  /** The entries tagging_rule builds for a switch. */
  function TaggingRules(name: string): seq<EntryRecord> {
    if name == "s21" then
      [TagSource("192.168.11.0", DscpA), TagSource("192.168.12.0", DscpB)]
    else if name == "s22" then
      [TagSource("192.168.13.0", DscpC)]
    else []
  }

  /** The entries filter_rule builds: its branches are commented out, so none. */
  function FilterRules(name: string): seq<EntryRecord> {
    []
  }

  const KnownSwitches: set<string> := {"s11", "s12", "s13", "s21", "s22"}

  /** Every known switch's forwarding list starts with the one default-action
      entry, drop with no parameters on the LPM table, and all its other
      entries are ordinary LPM forwarding entries; any other name gets none. */
  lemma ForwardingRulesShape(name: string)
    ensures name in KnownSwitches ==>
      |ForwardingRules(name)| > 1 && ForwardingRules(name)[0] == DropDefault &&
      forall i :: 1 <= i < |ForwardingRules(name)| ==>
        !ForwardingRules(name)[i].isDefault && ForwardingRules(name)[i].table == Str(LpmTable) &&
        ForwardingRules(name)[i].action == Str(ForwardAction)
    ensures name !in KnownSwitches ==> ForwardingRules(name) == []
  {
  }

  /** Only s21 and s22 get tagging entries: s21 tags 192.168.11.0/24 with 10
      and 192.168.12.0/24 with 11, s22 tags 192.168.13.0/24 with 12. */
  lemma TaggingRulesShape(name: string)
    ensures name == "s21" ==>
      TaggingRules(name) == [TagSource("192.168.11.0", 10), TagSource("192.168.12.0", 11)]
    ensures name == "s22" ==> TaggingRules(name) == [TagSource("192.168.13.0", 12)]
    ensures name != "s21" && name != "s22" ==> TaggingRules(name) == []
  {
  }

  /** The body shared by forwarding_rule, tagging_rule and filter_rule: build
      every entry, then insert them in order; on any error shut the
      connection down and raise. */
  function RuleStage(info: P4Info, accepts: (seq<TableEntry>, TableEntry) -> bool,
                     s: DeviceState, recs: seq<EntryRecord>): Run
  {
    match BuildEach(RecordBuilder(info), recs)
    case Err(e) => Run(s.(isOpen := false), Failure(e))
    case Ok(es) =>
      var w := Writes(accepts, s, es);
      if w.status.Failure? then Run(w.state.(isOpen := false), w.status) else w
  }

  /** A rule stage changes only the entries and the connection: it writes a
      prefix of the built entries, nothing if a build fails, all of them when
      it succeeds, and it closes the connection exactly when it fails. */
  lemma RuleStageOutcome(info: P4Info, accepts: (seq<TableEntry>, TableEntry) -> bool,
                         s: DeviceState, recs: seq<EntryRecord>)
    ensures RuleStage(info, accepts, s, recs).state.isMaster == s.isMaster
    ensures RuleStage(info, accepts, s, recs).state.pipeline == s.pipeline
    ensures RuleStage(info, accepts, s, recs).state.isOpen == (s.isOpen && RuleStage(info, accepts, s, recs).status.Success?)
    ensures BuildEach(RecordBuilder(info), recs).Err? ==> RuleStage(info, accepts, s, recs).state.written == s.written
    ensures BuildEach(RecordBuilder(info), recs).Ok? ==>
      exists n :: 0 <= n <= |recs| &&
        RuleStage(info, accepts, s, recs).state.written == s.written + BuildEach(RecordBuilder(info), recs).value[..n]
    ensures RuleStage(info, accepts, s, recs).status.Success? <==>
      BuildEach(RecordBuilder(info), recs).Ok? &&
      RuleStage(info, accepts, s, recs).state.written == s.written + BuildEach(RecordBuilder(info), recs).value
  {
    var built := BuildEach(RecordBuilder(info), recs);
    if built.Ok? {
      var es := built.value;
      WritesOutcome(accepts, s, es);
      var w := Writes(accepts, s, es);
      if w.status.Success? {
        assert es[..|es|] == es;
      } else {
        var n :| 0 <= n < |es| && w.state.written == s.written + es[..n] && !accepts(s.written + es[..n], es[n]);
        assert |w.state.written| < |s.written + es|;
      }
    }
  }

  /** filter_rule writes nothing and cannot fail. */
  lemma FilterStageWritesNothing(info: P4Info, accepts: (seq<TableEntry>, TableEntry) -> bool,
                                 s: DeviceState, name: string)
    ensures RuleStage(info, accepts, s, FilterRules(name)) == Run(s, Success)
  {
  }

  /** forwarding_rule, tagging_rule and filter_rule on a connection. */
  method InstallRules(info: P4Info, sw: Switch, recs: seq<EntryRecord>) returns (st: Status)
    modifies sw
    ensures Run(sw.State(), st) == RuleStage(info, sw.behaviour.accepts, old(sw.State()), recs)
  {
    var built := BuildEntries(RecordBuilder(info), recs);
    if built.Err? {
      sw.Shutdown();
      return Failure(built.error);
    }
    st := WriteEntries(sw, built.value);
    if st.Failure? {
      sw.Shutdown();
    }
  }

  const TagSwitchNames: set<string> := {"s21", "s22"}

  /** The pipeline install_pipeline_and_rule installs on a switch. */
  function PipelineFor(name: string): string {
    if name in TagSwitchNames then TagBmv2Json else FilterBmv2Json
  }

  /** The rules after forwarding: tagging for a tag switch, filtering for
      any other. */
  function SecondRules(name: string): seq<EntryRecord> {
    if name in TagSwitchNames then TaggingRules(name) else FilterRules(name)
  }

  /** install_pipeline_and_rule for one switch: mastership (fatal), the
      pipeline (a gRPC error is tolerated), the forwarding rules, then the
      tagging or filter rules. */
  function BringUp(info: P4Info, b: Behaviour, name: string): Run {
    if !b.grantsMastership then Run(Connected, Failure(MastershipDenied))
    else
      var s := Connected.(isMaster := true);
      var p := PipelineStep(b, s, info, Str(PipelineFor(name)));
      if p.status.Failure? then p
      else
        var f := RuleStage(info, b.accepts, p.state, ForwardingRules(name));
        if f.status.Failure? then f
        else RuleStage(info, b.accepts, f.state, SecondRules(name))
  }

  /** A switch that comes up holds mastership and, in order, every forwarding
      entry and then every tagging entry (tag switches) or nothing more
      (others); a switch denied mastership holds nothing. */
  lemma BringUpOutcome(info: P4Info, b: Behaviour, name: string)
    ensures !b.grantsMastership ==> BringUp(info, b, name) == Run(Connected, Failure(MastershipDenied))
    ensures BringUp(info, b, name).status.Success? ==>
      BringUp(info, b, name).state.isMaster && BringUp(info, b, name).state.isOpen &&
      BuildEach(RecordBuilder(info), ForwardingRules(name)).Ok? &&
      BuildEach(RecordBuilder(info), SecondRules(name)).Ok? &&
      BringUp(info, b, name).state.written ==
        BuildEach(RecordBuilder(info), ForwardingRules(name)).value +
        BuildEach(RecordBuilder(info), SecondRules(name)).value
    ensures BringUp(info, b, name).status.Success? && name !in TagSwitchNames ==>
      BringUp(info, b, name).state.written == BuildEach(RecordBuilder(info), ForwardingRules(name)).value
  {
    if b.grantsMastership {
      var s := Connected.(isMaster := true);
      var p := PipelineStep(b, s, info, Str(PipelineFor(name)));
      if p.status.Success? {
        RuleStageOutcome(info, b.accepts, p.state, ForwardingRules(name));
        var f := RuleStage(info, b.accepts, p.state, ForwardingRules(name));
        if f.status.Success? {
          RuleStageOutcome(info, b.accepts, f.state, SecondRules(name));
          if name !in TagSwitchNames {
            assert BuildEach(RecordBuilder(info), SecondRules(name)) == Ok([]);
          }
        }
      }
    }
  }

  /** A switch comes up exactly when it grants mastership, the pipeline
      install raises no local error (a gRPC error is tolerated), both rule
      lists build, and the switch accepts every forwarding entry and then
      every second-stage entry. It ends with the tag or filter pipeline and
      the P4Info sent with it when the switch installed it, and its
      connection is closed exactly when a rule stage failed. */
  lemma BringUpSucceeds(info: P4Info, b: Behaviour, name: string)
    ensures BringUp(info, b, name).status.Success? <==>
      b.grantsMastership && b.pipelineReply != LocalError &&
      BuildEach(RecordBuilder(info), ForwardingRules(name)).Ok? &&
      BuildEach(RecordBuilder(info), SecondRules(name)).Ok? &&
      var fwd := BuildEach(RecordBuilder(info), ForwardingRules(name)).value;
      Writes(b.accepts, Connected.(isMaster := true), fwd).status.Success? &&
      Writes(b.accepts, Connected.(isMaster := true, written := fwd),
             BuildEach(RecordBuilder(info), SecondRules(name)).value).status.Success?
    ensures b.grantsMastership ==>
      BringUp(info, b, name).state.pipeline ==
        if b.pipelineReply == Installed then Some(Pipeline(info.path, Str(PipelineFor(name)))) else None
    ensures BringUp(info, b, name).state.isOpen <==>
      !(b.grantsMastership && b.pipelineReply != LocalError && BringUp(info, b, name).status.Failure?)
  {
    if b.grantsMastership {
      var s := Connected.(isMaster := true);
      var p := PipelineStep(b, s, info, Str(PipelineFor(name)));
      if p.status.Success? {
        var fwd := BuildEach(RecordBuilder(info), ForwardingRules(name));
        RuleStageOutcome(info, b.accepts, p.state, ForwardingRules(name));
        if fwd.Ok? {
          WritesStatusOnlyOnWritten(b.accepts, s, p.state, fwd.value);
          WritesOutcome(b.accepts, p.state, fwd.value);
        }
        var f := RuleStage(info, b.accepts, p.state, ForwardingRules(name));
        if f.status.Success? {
          RuleStageOutcome(info, b.accepts, f.state, SecondRules(name));
          var snd := BuildEach(RecordBuilder(info), SecondRules(name));
          if snd.Ok? {
            WritesStatusOnlyOnWritten(b.accepts, s.(written := fwd.value), f.state, snd.value);
          }
        }
      }
    }
  }

  /** install_pipeline_and_rule: opens a connection and programs the switch. */
  method InstallPipelineAndRule(info: P4Info, target: SwitchAddr, b: Behaviour) returns (sw: Switch, st: Status)
    ensures fresh(sw)
    ensures sw.name == target.name && sw.address == target.address && sw.deviceId == target.deviceId
    ensures Run(sw.State(), st) == BringUp(info, b, target.name)
  {
    sw := new Switch(target.name, target.address, target.deviceId, b);
    var granted := sw.MasterArbitrationUpdate();
    if !granted {
      return sw, Failure(MastershipDenied);
    }
    st := SetPipeline(sw, info, Str(PipelineFor(target.name)));
    if st.Failure? {
      return;
    }
    st := InstallRules(info, sw, ForwardingRules(target.name));
    if st.Failure? {
      return;
    }
    if target.name in TagSwitchNames {
      st := InstallRules(info, sw, TaggingRules(target.name));
    } else {
      st := InstallRules(info, sw, FilterRules(target.name));
    }
  }

  /** A switch main programs, with the P4Info file it loads for it. */
  datatype Target = Target(addr: SwitchAddr, p4infoFile: string)

  /** main's two loops, TAG_SWITCH then FILTER_SWITCH, as one sequence. */
  const Plan: seq<Target> := [
    Target(SwitchAddr("s21", "127.0.0.1:50054", 3), TagP4InfoFile),
    Target(SwitchAddr("s22", "127.0.0.1:50055", 4), TagP4InfoFile),
    Target(SwitchAddr("s11", "127.0.0.1:50051", 0), FilterP4InfoFile),
    Target(SwitchAddr("s12", "127.0.0.1:50052", 1), FilterP4InfoFile),
    Target(SwitchAddr("s13", "127.0.0.1:50053", 2), FilterP4InfoFile)]

  /** How programming one target ends: loading its P4Info, then its bring-up. */
  function TargetOutcome(net: Network): Target -> Status {
    (t: Target) =>
      match net.loadP4Info(Str(t.p4infoFile))
      case None => Failure(P4InfoUnreadable)
      case Some(info) => BringUp(info, net.devices(t.addr.name), t.addr.name).status
  }

  function FleetResult(net: Network): FleetRun {
    Aborting(Plan, TargetOutcome(net))
  }

  /** main has no per-switch isolation: it programs a prefix of the plan,
      and when a switch fails it raises that switch's error and no later
      switch is attempted. */
  lemma FleetAborts(net: Network)
    ensures FleetResult(net).programmed <= |Plan|
    ensures forall i :: 0 <= i < FleetResult(net).programmed ==> TargetOutcome(net)(Plan[i]).Success?
    ensures FleetResult(net).status.Success? <==> FleetResult(net).programmed == |Plan|
    ensures FleetResult(net).status.Failure? ==>
      FleetResult(net).status == TargetOutcome(net)(Plan[FleetResult(net).programmed])
  {
    AbortingOutcome(Plan, TargetOutcome(net));
  }

  /** `sw` holds what bringing up `t` with its loaded P4Info leaves. */
  ghost predicate ProgrammedAs(net: Network, sw: Switch, t: Target)
    reads sw
  {
    net.loadP4Info(Str(t.p4infoFile)).Some? &&
    sw.State() == BringUp(net.loadP4Info(Str(t.p4infoFile)).value, net.devices(t.addr.name), t.addr.name).state
  }

  /** `conns` are the connections main holds after programming the first
      `i` targets, each as bringing it up left it, and the rest of the run is
      what the aborting loop does with the remaining targets. */
  ghost predicate Reached(net: Network, conns: seq<Switch>, i: nat)
    reads conns
  {
    i <= |Plan| && |conns| == i &&
    (forall j :: 0 <= j < i ==>
      conns[j].name == Plan[j].addr.name && conns[j].address == Plan[j].addr.address &&
      ProgrammedAs(net, conns[j], Plan[j])) &&
    FleetResult(net) ==
      FleetRun(Aborting(Plan[i..], TargetOutcome(net)).programmed + i, Aborting(Plan[i..], TargetOutcome(net)).status)
  }

  /** One turn of main's loops: load the target's P4Info and bring it up;
      a failure ends the run with that target's error. */
  method ProgramTarget(net: Network, conns: seq<Switch>, i: nat) returns (next: seq<Switch>, st: Status)
    requires i < |Plan| && Reached(net, conns, i)
    ensures st.Success? ==> Reached(net, next, i + 1)
    ensures st.Failure? ==> next == conns && FleetResult(net) == FleetRun(i, st)
  {
    var target := Plan[i];
    assert Plan[i..][0] == target && Plan[i..][1..] == Plan[i + 1..];
    var loaded := net.loadP4Info(Str(target.p4infoFile));
    if loaded.None? {
      assert TargetOutcome(net)(target) == Failure(P4InfoUnreadable);
      return conns, Failure(P4InfoUnreadable);
    }
    var sw, outcome := InstallPipelineAndRule(loaded.value, target.addr, net.devices(target.addr.name));
    assert outcome == TargetOutcome(net)(target);
    if outcome.Failure? {
      return conns, outcome;
    }
    assert ProgrammedAs(net, sw, target);
    return conns + [sw], Success;
  }

  /** main: programs the plan in order and stops at the first failure,
      keeping the connections of the switches programmed before it. */
  method ProgramAll(net: Network) returns (conns: seq<Switch>, st: Status)
    ensures |conns| <= |Plan|
    ensures |conns| == FleetResult(net).programmed && st == FleetResult(net).status
    ensures forall j :: 0 <= j < |conns| ==>
      conns[j].name == Plan[j].addr.name && conns[j].address == Plan[j].addr.address &&
      ProgrammedAs(net, conns[j], Plan[j])
  {
    conns := [];
    var i := 0;
    while i < |Plan|
      invariant 0 <= i <= |Plan|
      invariant Reached(net, conns, i)
    {
      var next, outcome := ProgramTarget(net, conns, i);
      if outcome.Failure? {
        return conns, outcome;
      }
      conns := next;
      i := i + 1;
    }
    assert Plan[i..] == [];
    return conns, Success;
  }
}
