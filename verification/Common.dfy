/** Vocabulary shared by the other modules. */
module Common {

  datatype Option<+T> = None | Some(value: T)

  /** A libp2p peer identity.  Only equality of identities matters here. */
  type PeerId = nat
}
