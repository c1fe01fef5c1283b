/** Messages exchanged with the delivery layer, and the integer width used for party and round numbers. */
module Messages {

  /** Party indexes, amounts of parties and round numbers are 16-bit unsigned integers. */
  type u16 = x: int | 0 <= x < 0x1_0000

  datatype Option<+T> = None | Some(value: T)

  datatype Result<+T, +E> = Ok(value: T) | Err(error: E)

  datatype MessageType = Broadcast(reliable: bool) | P2P

  datatype Incoming<M> = Incoming(id: nat, sender: u16, msgType: MessageType, msg: M) {
    /** The same delivery with another body. */
    function With<T>(body: T): Incoming<T> {
      Incoming(id, sender, msgType, body)
    }
  }

  datatype MessageDestination = AllParties(reliable: bool) | OneParty(recipient: u16) {
    predicate IsReliableBroadcast() {
      this == AllParties(true)
    }
  }

  datatype Outgoing<M> = Outgoing(recipient: MessageDestination, msg: M)
}
