/**
 One end of a held-open game connection. A session records, in order, what has been put on it:
 payloads, a resignation, and the closing of the connection.
 */
module GameSession {
  datatype Wire<T> = Data(payload: T) | Resignation | Closing

  class Session<T> {
    var sent: seq<Wire<T>>

    constructor ()
      ensures sent == []
    {
      sent := [];
    }

    method SendData(payload: T)
      modifies this
      ensures sent == old(sent) + [Data(payload)]
    {
      sent := sent + [Data(payload)];
    }

    method Resign()
      modifies this
      ensures sent == old(sent) + [Resignation]
    {
      sent := sent + [Resignation];
    }

    method Close()
      modifies this
      ensures sent == old(sent) + [Closing]
    {
      sent := sent + [Closing];
    }
  }
}
