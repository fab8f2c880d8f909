/**
 * A live push connection (a server-sent-events emitter). It starts open and
 * ends in one of three terminal states; the first terminal signal wins and
 * no transition leaves a terminal state. Sending on a terminal connection is
 * refused with an IllegalStateException; sending on an open one either
 * delivers the event or fails with an IOException chosen by the transport.
 */
module Emitters {

  datatype EmitterState = Open | Completed | TimedOut | Errored

  /** State and delivered events of one connection, as a value. */
  datatype Conn = Conn(state: EmitterState, events: seq<string>)

  /** Outcome of one `send`: delivered, IOException, or IllegalStateException. */
  datatype SendResult = Sent | IOFailure | IllegalState

  datatype Pushed = Pushed(result: SendResult, after: Conn)

  /** Move to `terminal` unless the connection has already ended. */
  function Close(s: EmitterState, terminal: EmitterState): (r: EmitterState)
    requires terminal != Open
    ensures r != Open
  {
    if s == Open then terminal else s
  }

  /** One `send` of `data`; `ioFails` is the transport's answer for this write. */
  function Push(c: Conn, data: string, ioFails: bool): Pushed {
    if c.state != Open then Pushed(IllegalState, c)
    else if ioFails then Pushed(IOFailure, c)
    else Pushed(Sent, Conn(Open, c.events + [data]))
  }

  /** A send either appends exactly the one event or leaves the events alone, and it never
      changes the state; it is refused exactly when the connection has ended. */
  lemma PushEffect(c: Conn, data: string, ioFails: bool)
    ensures Push(c, data, ioFails).after.state == c.state
    ensures Push(c, data, ioFails).result == IllegalState <==> c.state != Open
    ensures Push(c, data, ioFails).result == Sent <==> c.state == Open && !ioFails
    ensures Push(c, data, ioFails).after.events ==
      if Push(c, data, ioFails).result == Sent then c.events + [data] else c.events
  {
  }

  /** Terminal states are absorbing: closing again, with any cause, changes nothing. */
  lemma CloseAbsorbing(s: EmitterState, first: EmitterState, second: EmitterState)
    requires first != Open && second != Open
    ensures Close(Close(s, first), second) == Close(s, first)
    ensures s != Open ==> Close(s, first) == s
  {
  }

  class Emitter {
    /** The username captured by the callbacks registered when the emitter was created. */
    const owner: string
    /** Timeout in milliseconds. */
    const timeout: int
    var state: EmitterState
    /** Data of the events delivered on this stream, oldest first. */
    var events: seq<string>

    function Snapshot(): Conn
      reads this
    {
      Conn(state, events)
    }

    constructor (owner: string, timeout: int)
      ensures this.owner == owner && this.timeout == timeout
      ensures Snapshot() == Conn(Open, [])
    {
      this.owner := owner;
      this.timeout := timeout;
      state := Open;
      events := [];
    }

    method Send(data: string, ioFails: bool) returns (r: SendResult)
      modifies this
      ensures Pushed(r, Snapshot()) == Push(old(Snapshot()), data, ioFails)
    {
      if state != Open {
        r := IllegalState;
      } else if ioFails {
        r := IOFailure;
      } else {
        events := events + [data];
        r := Sent;
      }
    }

    /** Normal completion. */
    method Complete()
      modifies this
      ensures Snapshot() == Conn(Close(old(state), Completed), old(events))
    {
      state := Close(state, Completed);
    }

    /** Completion signalled by the container's timeout. */
    method Expire()
      modifies this
      ensures Snapshot() == Conn(Close(old(state), TimedOut), old(events))
    {
      state := Close(state, TimedOut);
    }

    /** Completion with an error. */
    method CompleteWithError()
      modifies this
      ensures Snapshot() == Conn(Close(old(state), Errored), old(events))
    {
      state := Close(state, Errored);
    }
  }
}
