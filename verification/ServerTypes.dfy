/** The records that servers publish about the blocks they serve. */
module ServerTypes {
  import opened Common

  datatype ServerState = Offline | Joining | Online {
    /** The discriminant, as in `state as u8`. */
    function Rank(): nat {
      match this
      case Offline => 0
      case Joining => 1
      case Online => 2
    }
  }

  /** A server's announcement.  The purely descriptive fields are not modelled, and
      `nextPings` is keyed by the peer instead of by its base-58 text. */
  datatype ServerInfo = ServerInfo(
    state: ServerState,
    throughput: real,
    startBlock: Option<nat>,
    endBlock: Option<nat>,
    inferenceRps: Option<real>,
    nextPings: Option<map<PeerId, real>>)

  /** One block of the model: the number that ends its uid, when that parses, and the
      servers that announced the block. */
  datatype ModuleInfo = ModuleInfo(uidNumber: Option<nat>, servers: map<PeerId, ServerInfo>)

  /** The half-open range of blocks `start..end` that a peer serves. */
  datatype Span = Span(peer: PeerId, start: nat, end: nat, info: ServerInfo) {
    predicate Contains(block: nat) {
      start <= block < end
    }
  }
}
