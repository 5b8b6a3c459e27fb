/** A switch as the controllers see it through a P4Runtime connection
    (Bmv2SwitchConnection): each RPC either succeeds or raises, as the switch's
    behaviour says; what the switch holds is the record of what was done to it. */
module Device {
  import opened Wrappers
  import opened Json
  import opened Entries

  /** How SetForwardingPipelineConfig ends: the pipeline is installed, the
      switch answers with a gRPC error (for example because a pipeline is
      already installed), or the call raises before reaching the switch (for
      example because the pipeline file cannot be read). */
  datatype PipelineReply = Installed | RpcError | LocalError

  /** The failure oracle of one switch. `accepts(written, e)` says whether the
      switch takes entry `e` after the entries `written`, so that a refusal may
      depend on what is already installed. */
  datatype Behaviour = Behaviour(
    grantsMastership: bool,
    pipelineReply: PipelineReply,
    accepts: (seq<TableEntry>, TableEntry) -> bool)

  /** A forwarding pipeline as sent to a switch: the P4Info it was sent with,
      identified by its path, and the BMv2 JSON file. */
  datatype Pipeline = Pipeline(p4info: Value, bmv2Json: Value)

  /** What the controller has done to a switch over one connection: whether it
      holds mastership, the pipeline it installed, the table entries the switch
      accepted in order, and whether the connection is still open. */
  datatype DeviceState = DeviceState(
    isMaster: bool,
    pipeline: Option<Pipeline>,
    written: seq<TableEntry>,
    isOpen: bool)

  /** The state of a freshly opened connection. */
  const Connected: DeviceState := DeviceState(false, None, [], true)

  /** The state a step leaves and how the step ended. */
  datatype Run = Run(state: DeviceState, status: Status)

  class Switch {
    const name: string
    const address: string
    const deviceId: int
    const behaviour: Behaviour

    var isMaster: bool
    var pipeline: Option<Pipeline>
    var written: seq<TableEntry>
    var isOpen: bool

    function State(): DeviceState
      reads this
    {
      DeviceState(isMaster, pipeline, written, isOpen)
    }

    constructor (name: string, address: string, deviceId: int, behaviour: Behaviour)
      ensures this.name == name && this.address == address && this.deviceId == deviceId
      ensures this.behaviour == behaviour
      ensures State() == Connected
    {
      this.name := name;
      this.address := address;
      this.deviceId := deviceId;
      this.behaviour := behaviour;
      isMaster, pipeline, written, isOpen := false, None, [], true;
    }

    method MasterArbitrationUpdate() returns (granted: bool)
      modifies this
      ensures granted == behaviour.grantsMastership
      ensures State() == if granted then old(State()).(isMaster := true) else old(State())
    {
      granted := behaviour.grantsMastership;
      if granted {
        isMaster := true;
      }
    }

    method SetForwardingPipelineConfig(info: P4Info, bmv2Json: Value) returns (reply: PipelineReply)
      modifies this
      ensures reply == behaviour.pipelineReply
      ensures State() == if reply == Installed then old(State()).(pipeline := Some(Pipeline(info.path, bmv2Json))) else old(State())
    {
      reply := behaviour.pipelineReply;
      if reply == Installed {
        pipeline := Some(Pipeline(info.path, bmv2Json));
      }
    }

    method WriteTableEntry(entry: TableEntry) returns (accepted: bool)
      modifies this
      ensures accepted == behaviour.accepts(old(written), entry)
      ensures State() == if accepted then old(State()).(written := old(written) + [entry]) else old(State())
    {
      accepted := behaviour.accepts(written, entry);
      if accepted {
        written := written + [entry];
      }
    }

    /** Closes the connection; the controllers ignore any error it raises. */
    method Shutdown()
      modifies this
      ensures State() == old(State()).(isOpen := false)
    {
      isOpen := false;
    }
  }
}
