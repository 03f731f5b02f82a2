/** The response side of a Node-style HTTP exchange, reduced to the calls
    the router makes on the response object, recorded in the order made. */
module Http {
  import opened Wrappers

  type Headers = map<string, string>

  /** One call on the response. `WriteHead(s, None)` is `writeHead(s)`,
      `WriteHead(s, Some(h))` is `writeHead(s, h)`; a file stream piped into
      the response is the single opaque event `Pipe`. */
  datatype Event =
    | WriteHead(status: nat, headers: Option<Headers>)
    | End
    | Pipe

  /** The calls that finish a response: ending it, or handing it a stream
      that ends it when drained. */
  predicate IsTerminal(e: Event)
  {
    e.End? || e.Pipe?
  }

  /** A complete response: at most one status write, then exactly one
      terminal call, and nothing after it. */
  predicate Complete(trace: seq<Event>)
  {
    || (|trace| == 1 && IsTerminal(trace[0]))
    || (|trace| == 2 && trace[0].WriteHead? && IsTerminal(trace[1]))
  }

  /** The status the client receives from a complete response: the one its
      writeHead gives, or the transport's default of 200 when it has none. */
  function StatusOf(trace: seq<Event>): (status: nat)
    requires Complete(trace)
    ensures |trace| > 0 && trace[0].WriteHead? ==> status == trace[0].status
    ensures (forall e :: e in trace ==> !e.WriteHead?) ==> status == 200
  {
    if |trace| > 0 && trace[0].WriteHead? then trace[0].status else 200
  }

  /** The response object, as the list of calls it has received. */
  class Response {
    var events: seq<Event>

    constructor ()
      ensures events == []
    {
      events := [];
    }

    method WriteHead(status: nat, headers: Option<Headers>)
      modifies this
      ensures events == old(events) + [Event.WriteHead(status, headers)]
    {
      events := events + [Event.WriteHead(status, headers)];
    }

    method End()
      modifies this
      ensures events == old(events) + [Event.End]
    {
      events := events + [Event.End];
    }

    /** A file stream is piped into this response. */
    method Pipe()
      modifies this
      ensures events == old(events) + [Event.Pipe]
    {
      events := events + [Event.Pipe];
    }
  }
}
