/**
 * The transport: `URLSessionWebSocketTask` reduced to its state, the frames
 * written to it and the events the server delivers to it. What the network
 * does is an input: the state `resume()` reaches, the incoming events, and
 * whether a write fails.
 */
module Transport {
  import opened Wrappers
  import opened WebSocketErrors
  import opened Connection

  /** `URLSessionWebSocketTask.Message`; `Other` stands for any later case. */
  datatype Frame = Text(text: string) | Binary(data: Bytes) | Other

  /** One result of `task.receive()`: a frame, or the error it throws. */
  datatype Incoming = Delivered(frame: Frame) | TransportError(error: Error)

  /** What the network will do with the next task opened to the server. */
  datatype Link = Link(stateAfterResume: TaskState, inbound: seq<Incoming>)

  class WebSocketTask {
    const url: string
    var state: TaskState
    /** Events delivered by the server and not yet read, in arrival order. */
    var inbound: seq<Incoming>
    /** Frames written by `send`, in order. */
    var sent: seq<Frame>

    /** `session.webSocketTask(with:)`: a new task is suspended until resumed. */
    constructor (url: string, inbound: seq<Incoming>)
      ensures this.url == url && state == Suspended
      ensures this.inbound == inbound && sent == []
    {
      this.url := url;
      state := Suspended;
      this.inbound := inbound;
      sent := [];
    }

    /** `resume()`: the state it reaches is decided by the network. */
    method Resume(reached: TaskState)
      modifies this`state
      ensures state == reached
    {
      state := reached;
    }

    /**
     * `cancel(with: .goingAway, reason: nil)`: a completed task stays
     * completed; any other task starts canceling.
     */
    method Cancel()
      modifies this`state
      ensures old(state) == Completed ==> state == Completed
      ensures old(state) != Completed ==> state == Canceling
    {
      if state != Completed {
        state := Canceling;
      }
    }

    /** `send(_:)`: writes `frame` unless the network makes the write fail. */
    method Send(frame: Frame, failure: Option<Error>) returns (r: Outcome<Error>)
      modifies this`sent
      ensures failure.None? ==> r == Pass && sent == old(sent) + [frame]
      ensures failure.Some? ==> r == Fail(failure.value) && sent == old(sent)
    {
      if failure.Some? {
        r := Fail(failure.value);
      } else {
        sent := sent + [frame];
        r := Pass;
      }
    }

    /**
     * `receive()`: the next event in arrival order. The source suspends while
     * nothing has arrived; here the caller reads only what has arrived.
     */
    method Receive() returns (e: Incoming)
      requires inbound != []
      modifies this`inbound
      ensures e == old(inbound[0]) && inbound == old(inbound[1..])
    {
      e := inbound[0];
      inbound := inbound[1..];
    }
  }
}
