/** Optional values, results and the error kinds the controllers raise. */
module Wrappers {

  datatype Option<+T> = None | Some(value: T)

  /** The exceptions of the controllers, one constructor per cause. Every caller
      in the controllers catches `Exception` as a whole, so the kinds only label
      where a failure came from. */
  datatype Error =
    | MissingTable        // build_entry_from_json: ValueError, no 'table' key
    | NotAnObject         // a JSON value used as a dict or an entry that is not one
    | NotIterable         // `for e in entries` over a JSON scalar
    | UnknownName         // buildTableEntry: a name the P4Info does not know
    | WriteRejected       // WriteTableEntry raised
    | MastershipDenied    // MasterArbitrationUpdate raised
    | PipelineFailed      // SetForwardingPipelineConfig raised something other than a gRPC error
    | P4InfoUnreadable    // P4InfoHelper(path) raised
    | ConfigUnreadable    // load_switch_config: the file exists but json.load raised
    | QueryFailed         // a tag_table / filter_table query raised
    | HelperUnbound       // UnboundLocalError: p4info_helper read before assignment

  datatype Result<+T> = Ok(value: T) | Err(error: Error)

  /** How a step that returns nothing ends: normally, or by raising. */
  datatype Status = Success | Failure(error: Error)
}
