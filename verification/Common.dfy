/** Types shared by the ring models. */
module Common {
  datatype Option<+T> = None | Some(value: T)

  /** A thread, named by its `std::thread::Thread` handle. */
  type Tid = nat

  /** The identity of a payload. Every call of `send` or `try_send` moves one payload in, and the
      models number the payloads in the order in which those calls begin. */
  type Ticket = nat

  /** One memory cell for a payload; `None` is uninitialised or moved-out memory. */
  type Cell = Option<Ticket>

  datatype SendResult = Sent | Full | Disconnected
  datatype RecvResult = Received(value: Ticket) | Empty | Closed
}
