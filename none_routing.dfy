/** The baseline policy: a drone never hands its packets to anybody.
    It has no state of its own; its constructor only sets up the shared base
    routing state, which is not part of this model, so the policy is a plain
    function of what it is shown. */
module NoneRouting {
  import opened Common

  /** The relay decision: `None` means "keep the packet", whatever the
      neighbours and the packet are. Being a function, it changes nothing. */
  function RelaySelection(neighbors: seq<Peer>, packet: Packet): (relay: Option<DroneId>)
    ensures relay == None
  {
    None
  }
}
