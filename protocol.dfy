/** The two protocol requests a transaction handle issues, the errors it can
    surface, and the communicator it hands requests to. */
module Protocol {
  import opened Wrappers

  /** A request handed to the communicator, with the payload fields in the
      order they are written. Codes are the enums' backing values. */
  datatype Message =
    | TxStart(concurrency: int, isolation: int, timeout: int, txLabel: Option<string>)
    | TxEnd(id: int, committed: bool)

  /** IllegalArgument is raised by the constructor; ClientError is whatever the
      communicator raises when a request fails. */
  datatype Error = IllegalArgument | ClientError

  /** The shared binary communicator, reduced to the log of requests it has
      been asked to send, in order. Framing and transport are not modelled. */
  class Communicator {
    var sent: seq<Message>

    constructor ()
      ensures sent == []
    {
      sent := [];
    }

    method Send(m: Message)
      modifies this
      ensures sent == old(sent) + [m]
    {
      sent := sent + [m];
    }
  }
}
