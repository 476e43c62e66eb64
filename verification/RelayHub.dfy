/**
 The registry of live connections, by handle.
 */
module RelayHub {
  datatype Envelope =
    | Relay(handle: string, body: string)
    | PresenceJoined(handle: string)
    | PresenceLeft(handle: string)
    | Answer

  const OUTBOX_SIZE := 16

  /** A handle is registered unless it is already. */
  function Joined<O>(clients: map<string, O>, handle: string, outbox: O): (map<string, O>, bool) {
    if handle in clients then (clients, false) else (clients[handle := outbox], true)
  }

  /** A registration is withdrawn by the outbox that made it only. */
  function Left<O(==)>(clients: map<string, O>, handle: string, outbox: O): map<string, O> {
    if handle in clients && clients[handle] == outbox then clients - {handle} else clients
  }

  class Outbox {
    var queue: seq<Envelope>

    constructor ()
      ensures queue == []
    {
      queue := [];
    }

    /** A full outbox takes nothing more. */
    method Offer(e: Envelope) returns (ok: bool)
      modifies this
      ensures ok == (|old(queue)| < OUTBOX_SIZE)
      ensures queue == if ok then old(queue) + [e] else old(queue)
    {
      ok := |queue| < OUTBOX_SIZE;
      if ok {
        queue := queue + [e];
      }
    }
  }

  class Hub {
    var clients: map<string, Outbox>

    constructor ()
      ensures clients == map[]
    {
      clients := map[];
    }

    method Join(handle: string, outbox: Outbox) returns (ok: bool)
      modifies this
      ensures (clients, ok) == Joined(old(clients), handle, outbox)
    {
      if handle in clients { return false; }
      clients := clients[handle := outbox];
      return true;
    }

    method Leave(handle: string, outbox: Outbox)
      modifies this
      ensures clients == Left(old(clients), handle, outbox)
    {
      if handle in clients && clients[handle] == outbox {
        clients := clients - {handle};
      }
    }

    /** The envelope reaches the outbox registered for the handle, if there is one with room, and no other. */
    method Send(handle: string, e: Envelope) returns (ok: bool)
      modifies if handle in clients then {clients[handle]} else {}
      ensures ok == (handle in clients && |old(clients[handle].queue)| < OUTBOX_SIZE)
      ensures ok ==> clients[handle].queue == old(clients[handle].queue) + [e]
      ensures !ok && handle in clients ==> clients[handle].queue == old(clients[handle].queue)
    {
      if handle !in clients { return false; }
      var outbox := clients[handle];
      ok := outbox.Offer(e);
    }
  }
}
