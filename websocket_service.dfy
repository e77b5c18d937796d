/**
 * `WebSocketService`: the client that owns one transport task, derives its
 * connection state from that task, and authenticates, sends and receives over
 * it. The JSON coders are generic in Swift; here each generic operation takes
 * the coder specialised to its payload type as a function that succeeds or
 * fails.
 */
module Service {
  import opened Wrappers
  import opened WebSocketErrors
  import opened Connection
  import opened Messages
  import opened Transport
  import opened Streams
  import opened Environments

  /** Foundation's UTF-8 conversions, which the model does not define. */
  datatype Utf8 = Utf8(
    toText: Bytes -> Option<string>,  // `String(data:encoding: .utf8)`
    toBytes: string -> Option<Bytes>  // `text.data(using: .utf8)`
  )

  // ---------------------------------------------------------------------------
  // send

  /**
   * What `send` does once it has found a task: the frame it writes, or the
   * error it throws. `encoded` is what the encoder made of the value and
   * `writeFailure` what the transport throws from its own `send`, if anything.
   * Every failure, the transport's included, is rethrown wrapped in
   * `encodingFaild`.
   */
  function SendAttempt(encoded: Result<Bytes, Error>, toText: Bytes -> Option<string>,
                       writeFailure: Option<Error>): (r: Result<Frame, Error>)
    ensures r.Failure? ==> IsEncodingFailure(r.error)
    ensures r.Success? <==>
      encoded.Success? && toText(encoded.value).Some? && writeFailure.None?
    ensures r.Success? ==> r.value == Text(toText(encoded.value).value)
    ensures encoded.Failure? ==> r.error.kind.encodingCause == encoded.error
    ensures encoded.Success? && toText(encoded.value).None? ==>
      r.error.kind.encodingCause == WebSocket(ServerError(NotUtf8Detail))
    ensures encoded.Success? && toText(encoded.value).Some? && writeFailure.Some? ==>
      r.error.kind.encodingCause == writeFailure.value
  {
    match encoded
    case Failure(e) => Failure(WebSocket(EncodingFaild(e)))
    case Success(data) =>
      match toText(data)
      case None => Failure(WebSocket(EncodingFaild(WebSocket(ServerError(NotUtf8Detail)))))
      case Some(text) =>
        if writeFailure.Some? then Failure(WebSocket(EncodingFaild(writeFailure.value)))
        else Success(Text(text))
  }

  /** The outcome a caller of `send` sees for an attempt. */
  function Thrown(attempt: Result<Frame, Error>): (r: Outcome<Error>)
    ensures r.Pass? <==> attempt.Success?
    ensures r.Fail? ==> r.error == attempt.error
  {
    if attempt.Success? then Pass else Fail(attempt.error)
  }

  /** The frames an attempt adds to the transport: one on success, none otherwise. */
  function Written(attempt: Result<Frame, Error>): (w: seq<Frame>)
    ensures |w| <= 1
    ensures w != [] <==> attempt.Success?
    ensures w != [] ==> w[0] == attempt.value
  {
    if attempt.Success? then [attempt.value] else []
  }

  // ---------------------------------------------------------------------------
  // receive

  /**
   * The bytes an incoming frame carries: a text frame's UTF-8 bytes, a binary
   * frame's data as it is; any other frame kind, or text that does not
   * convert, is an `invalidMessage`.
   */
  function Payload(f: Frame, toBytes: string -> Option<Bytes>): (r: Result<Bytes, Error>)
    ensures r.Failure? ==> r.error == WebSocket(InvalidMessage)
    ensures r.Failure? <==> f.Other? || (f.Text? && toBytes(f.text).None?)
    ensures f.Binary? ==> r == Success(f.data)
    ensures f.Text? && r.Success? ==> toBytes(f.text) == Some(r.value)
  {
    match f
    case Text(text) =>
      if toBytes(text).Some? then Success(toBytes(text).value)
      else Failure(WebSocket(InvalidMessage))
    case Binary(data) => Success(data)
    case Other => Failure(WebSocket(InvalidMessage))
  }

  /**
   * One turn of the receive loop: the value decoded from the next event, or
   * the error that ends the stream. A transport error and a decoder error are
   * both passed on as they are; neither is wrapped in `decodingFailed`.
   */
  function Step<T>(e: Incoming, toBytes: string -> Option<Bytes>,
                   decode: Bytes -> Result<T, Error>): (r: Result<T, Error>)
    ensures e.TransportError? ==> r == Failure(e.error)
    ensures e.Delivered? && Payload(e.frame, toBytes).Failure? ==>
      r == Failure(WebSocket(InvalidMessage))
    ensures e.Delivered? && Payload(e.frame, toBytes).Success? ==>
      r == decode(Payload(e.frame, toBytes).value)
  {
    match e
    case TransportError(err) => Failure(err)
    case Delivered(f) =>
      match Payload(f, toBytes)
      case Failure(err) => Failure(err)
      case Success(data) => decode(data)
  }

  /**
   * The stream `receive` produces from the events the transport delivers, in
   * arrival order: one value per event until the first event that fails,
   * whose error finishes the stream. If no event fails, the stream is still
   * open, waiting for the next one.
   */
  function Received<T>(events: seq<Incoming>, toBytes: string -> Option<Bytes>,
                       decode: Bytes -> Result<T, Error>): (s: Stream<T>)
    ensures |s.values| <= |events|
    ensures s.end.Open? ==> |s.values| == |events|
    ensures s.end.FinishedThrowing? ==> |s.values| < |events|
    ensures !s.end.Finished?
    decreases |events|
  {
    if events == [] then Stream([], Open)
    else
      match Step(events[0], toBytes, decode)
      case Failure(err) => Stream([], FinishedThrowing(err))
      case Success(v) =>
        var rest := Received(events[1..], toBytes, decode);
        Stream([v] + rest.values, rest.end)
  }

  /** If every event decodes, the stream yields every decoded value in arrival order. */
  lemma {:induction false} ReceivedInOrder<T>(events: seq<Incoming>, toBytes: string -> Option<Bytes>,
                                              decode: Bytes -> Result<T, Error>)
    requires forall i :: 0 <= i < |events| ==> Step(events[i], toBytes, decode).Success?
    ensures Received(events, toBytes, decode).end == Open
    ensures |Received(events, toBytes, decode).values| == |events|
    ensures forall i :: 0 <= i < |events| ==>
      Received(events, toBytes, decode).values[i] == Step(events[i], toBytes, decode).value
    decreases |events|
  {
    if events != [] {
      ReceivedInOrder(events[1..], toBytes, decode);
      var rest := Received(events[1..], toBytes, decode);
      forall i | 0 <= i < |events|
        ensures Received(events, toBytes, decode).values[i] == Step(events[i], toBytes, decode).value
      {
        if i > 0 {
          assert events[1..][i - 1] == events[i];
        }
      }
    }
  }

  /**
   * The first event that fails ends the stream with its own error, after the
   * values of the events before it; the events after it are never read, so
   * they make no difference.
   */
  lemma {:induction false} ReceivedStopsAtFirstError<T>(events: seq<Incoming>, k: nat,
                                                        toBytes: string -> Option<Bytes>,
                                                        decode: Bytes -> Result<T, Error>)
    requires k < |events|
    requires forall i :: 0 <= i < k ==> Step(events[i], toBytes, decode).Success?
    requires Step(events[k], toBytes, decode).Failure?
    ensures Received(events, toBytes, decode).end == FinishedThrowing(Step(events[k], toBytes, decode).error)
    ensures |Received(events, toBytes, decode).values| == k
    ensures forall i :: 0 <= i < k ==>
      Received(events, toBytes, decode).values[i] == Step(events[i], toBytes, decode).value
    ensures Received(events, toBytes, decode) == Received(events[..k + 1], toBytes, decode)
    decreases k
  {
    if k > 0 {
      forall i | 0 <= i < k - 1
        ensures Step(events[1..][i], toBytes, decode).Success?
      {
        assert events[1..][i] == events[i + 1];
      }
      assert events[1..][k - 1] == events[k];
      ReceivedStopsAtFirstError(events[1..], k - 1, toBytes, decode);
      assert events[..k + 1][1..] == events[1..][..k];
      forall i | 0 <= i < k
        ensures Received(events, toBytes, decode).values[i] == Step(events[i], toBytes, decode).value
      {
        if i > 0 {
          assert events[1..][i - 1] == events[i];
        }
      }
    }
  }

  /**
   * A stream that fails carries the error of one of the events it read, as
   * that event produced it: the loop adds no error of its own.
   */
  lemma {:induction false} ReceivedErrorComesFromAnEvent<T>(events: seq<Incoming>,
                                                            toBytes: string -> Option<Bytes>,
                                                            decode: Bytes -> Result<T, Error>)
    requires Received(events, toBytes, decode).end.FinishedThrowing?
    ensures exists k :: (0 <= k < |events| &&
      Step(events[k], toBytes, decode) == Failure(Received(events, toBytes, decode).end.error))
    decreases |events|
  {
    if Step(events[0], toBytes, decode).Success? {
      ReceivedErrorComesFromAnEvent(events[1..], toBytes, decode);
      var k :| 0 <= k < |events[1..]| &&
        Step(events[1..][k], toBytes, decode) == Failure(Received(events[1..], toBytes, decode).end.error);
      assert events[1..][k] == events[k + 1];
    } else {
      assert Step(events[0], toBytes, decode) == Failure(Received(events, toBytes, decode).end.error);
    }
  }

  // ---------------------------------------------------------------------------
  // the service

  class WebSocketService {
    const environment: Environment
    /** Whether `URL(string:)` accepts a string; URL parsing is not modelled. */
    const parsesAsURL: string -> bool
    const utf8: Utf8

    /** `webSocketTask`: the one transport the service holds, if any. */
    var task: WebSocketTask?
    var connectionState: ConnectionState
    /** The state of the stored task when it was last assigned. */
    ghost var observed: Option<TaskState>

    /** `connectionState` is always the `didSet` image of the last assignment. */
    ghost predicate Valid()
      reads this
    {
      && (task == null <==> observed.None?)
      && connectionState == StateOf(observed)
    }

    /** `url`: the environment's base URL, if it parses. */
    function Url(): (u: Option<string>)
      ensures u.Some? ==> u.value == environment.BaseURL()
      ensures u.Some? <==> parsesAsURL(environment.BaseURL())
    {
      if parsesAsURL(environment.BaseURL()) then Some(environment.BaseURL()) else None
    }

    constructor (environment: Environment, parsesAsURL: string -> bool, utf8: Utf8)
      ensures Valid()
      ensures this.environment == environment && this.parsesAsURL == parsesAsURL && this.utf8 == utf8
      ensures task == null && connectionState == ConnectionState.Disconnected
    {
      this.environment := environment;
      this.parsesAsURL := parsesAsURL;
      this.utf8 := utf8;
      task := null;
      connectionState := ConnectionState.Disconnected;
      observed := None;
    }

    /** Assignment to `webSocketTask` with its `didSet` observer. */
    method SetTask(t: WebSocketTask?)
      modifies this`task, this`connectionState, this`observed
      ensures Valid()
      ensures task == t
      ensures observed == if t == null then None else Some(t.state)
    {
      task := t;
      observed := if t == null then None else Some(t.state);
      connectionState := if t == null then StateOf(None) else StateOf(Some(t.state));
    }

    /**
     * `connect`: when no task is stored and the URL parses, opens a task to
     * the URL, resumes it and stores it; throws `connectionFailed` when the
     * task is not running, but keeps it stored.
     */
    method Connect(link: Link) returns (r: Outcome<Error>)
      requires Valid()
      modifies this`task, this`connectionState, this`observed
      ensures Valid()
      ensures old(task) != null || Url().None? ==>
        r == Pass && task == old(task) && connectionState == old(connectionState)
      ensures old(task) == null && Url().Some? ==>
        && task != null && fresh(task)
        && task.url == Url().value && task.state == link.stateAfterResume
        && task.inbound == link.inbound && task.sent == []
        && connectionState == StateOf(Some(link.stateAfterResume))
        && r == (if link.stateAfterResume == Running then Pass else Fail(WebSocket(ConnectionFailed)))
    {
      if task != null || Url().None? {
        return Pass;
      }
      var t := new WebSocketTask(Url().value, link.inbound);
      t.Resume(link.stateAfterResume);
      SetTask(t);
      if t.state != Running {
        return Fail(WebSocket(ConnectionFailed));
      }
      r := Pass;
    }

    /** `connectIfNeeded`: `connect`, but only while the state is `disconnected`. */
    method ConnectIfNeeded(link: Link) returns (r: Outcome<Error>)
      requires Valid()
      modifies this`task, this`connectionState, this`observed
      ensures Valid()
      ensures old(task) != null ==> task == old(task) && connectionState == old(connectionState)
      ensures old(task) != null || Url().None? ==> r == Pass && task == old(task)
      ensures old(task) == null && Url().Some? ==>
        && task != null && fresh(task)
        && task.url == Url().value && task.state == link.stateAfterResume
        && task.inbound == link.inbound && task.sent == []
        && connectionState == StateOf(Some(link.stateAfterResume))
        && r == (if link.stateAfterResume == Running then Pass else Fail(WebSocket(ConnectionFailed)))
    {
      if connectionState != ConnectionState.Disconnected {
        return Pass;
      }
      r := Connect(link);
    }

    /**
     * `send`: throws `disconnected` when no task is stored; otherwise encodes
     * the value and writes it as one text frame, rethrowing every failure
     * wrapped in `encodingFaild`.
     */
    method Send<T>(value: T, encode: T -> Result<Bytes, Error>, writeFailure: Option<Error>)
      returns (r: Outcome<Error>)
      requires Valid()
      modifies task
      ensures task == null ==> r == Fail(WebSocket(WebSocketError.Disconnected))
      ensures task != null ==> task.state == old(task.state) && task.inbound == old(task.inbound)
      ensures task != null ==>
        var attempt := SendAttempt(encode(value), utf8.toText, writeFailure);
        r == Thrown(attempt) && task.sent == old(task.sent) + Written(attempt)
    {
      if task == null {
        return Fail(WebSocket(WebSocketError.Disconnected));
      }
      var t := task;
      var encoded := encode(value);
      if encoded.Failure? {
        return Fail(WebSocket(EncodingFaild(encoded.error)));
      }
      var text := utf8.toText(encoded.value);
      if text.None? {
        return Fail(WebSocket(EncodingFaild(WebSocket(ServerError(NotUtf8Detail)))));
      }
      var written := t.Send(Text(text.value), writeFailure);
      if written.Fail? {
        return Fail(WebSocket(EncodingFaild(written.error)));
      }
      r := Pass;
    }

    /**
     * `authenticate`: `connectIfNeeded`, whose error is passed on unchanged
     * with nothing sent, then `send` of the token's `AuthPayload`.
     */
    method Authenticate(token: string, link: Link, encode: AuthPayload -> Result<Bytes, Error>,
                        writeFailure: Option<Error>) returns (r: Outcome<Error>)
      requires Valid()
      modifies this`task, this`connectionState, this`observed, task
      ensures Valid()
      ensures old(task) != null ==> task == old(task) && connectionState == old(connectionState)
      ensures old(task) != null ==> task.state == old(task.state) && task.inbound == old(task.inbound)
      ensures old(task) == null && Url().None? ==> task == null && r == Fail(WebSocket(WebSocketError.Disconnected))
      ensures old(task) == null && Url().Some? ==>
        && task != null && fresh(task)
        && task.state == link.stateAfterResume && task.inbound == link.inbound
        && connectionState == StateOf(Some(link.stateAfterResume))
      ensures old(task) == null && Url().Some? && link.stateAfterResume != Running ==>
        r == Fail(WebSocket(ConnectionFailed)) && task.sent == []
      ensures old(task) == null && Url().Some? && link.stateAfterResume == Running ==>
        var attempt := SendAttempt(encode(AuthPayload(token)), utf8.toText, writeFailure);
        r == Thrown(attempt) && task.sent == Written(attempt)
      ensures old(task) != null ==>
        var attempt := SendAttempt(encode(AuthPayload(token)), utf8.toText, writeFailure);
        r == Thrown(attempt) && task.sent == old(task.sent) + Written(attempt)
    {
      r := ConnectIfNeeded(link);
      if r.Fail? {
        return;
      }
      r := Send(AuthPayload(token), encode, writeFailure);
    }

    /**
     * `receive(as:)`: with no task, a stream that finishes with `disconnected`
     * at once. Otherwise the loop reads the task's events in arrival order,
     * yields each decoded value, and on the first error finishes the stream
     * with that error and reads nothing more.
     */
    method Receive<T>(decode: Bytes -> Result<T, Error>) returns (s: Stream<T>)
      requires Valid()
      modifies task
      ensures task != null ==> task.state == old(task.state) && task.sent == old(task.sent)
      ensures task == null ==> s == Stream([], FinishedThrowing(WebSocket(WebSocketError.Disconnected)))
      ensures task != null ==> s == Received(old(task.inbound), utf8.toBytes, decode)
      ensures task != null && s.end.FinishedThrowing? ==> task.inbound == old(task.inbound)[|s.values| + 1..]
      ensures task != null && s.end.Open? ==> task.inbound == []
    {
      if task == null {
        return Stream([], FinishedThrowing(WebSocket(WebSocketError.Disconnected)));
      }
      var t: WebSocketTask := task;
      ghost var events := t.inbound;
      var values: seq<T> := [];
      var end: StreamEnd;
      while true
        modifies t`inbound
        invariant |values| <= |events| && t.inbound == events[|values|..]
        invariant forall i :: 0 <= i < |values| ==>
          Step(events[i], utf8.toBytes, decode) == Success(values[i])
        decreases |t.inbound|
      {
        if t.inbound == [] {
          end := Open;
          break;
        }
        var event := t.Receive();
        var next := Step(event, utf8.toBytes, decode);
        if next.Failure? {
          end := FinishedThrowing(next.error);
          break;
        }
        values := values + [next.value];
      }
      s := Stream(values, end);
      if end.Open? {
        ReceivedInOrder(events, utf8.toBytes, decode);
      } else {
        ReceivedStopsAtFirstError(events, |values|, utf8.toBytes, decode);
      }
    }

    /** `disconnect`: cancels the stored task, if any, and clears it. */
    method Disconnect()
      requires Valid()
      modifies this`task, this`connectionState, this`observed, task
      ensures Valid()
      ensures task == null && connectionState == ConnectionState.Disconnected
      ensures old(task) != null ==>
        old(task).state == (if old(task.state) == Completed then Completed else Canceling)
      ensures old(task) != null ==> old(task).sent == old(task.sent) && old(task).inbound == old(task.inbound)
    {
      if task != null {
        task.Cancel();
      }
      SetTask(null);
    }

    /** `deinit`: the service disconnects when it is released. */
    method Deinit()
      requires Valid()
      modifies this`task, this`connectionState, this`observed, task
      ensures Valid()
      ensures task == null && connectionState == ConnectionState.Disconnected
      ensures old(task) != null ==>
        old(task).state == (if old(task.state) == Completed then Completed else Canceling)
      ensures old(task) != null ==> old(task).sent == old(task.sent) && old(task).inbound == old(task.inbound)
    {
      Disconnect();
    }
  }

  /** Disconnecting twice in a row never fails and leaves the state `disconnected` both times. */
  method DisconnectTwice(service: WebSocketService)
    requires service.Valid()
    modifies service, service.task
    ensures service.Valid() && service.task == null
    ensures service.connectionState == ConnectionState.Disconnected
  {
    service.Disconnect();
    assert service.connectionState == ConnectionState.Disconnected;
    service.Disconnect();
  }

  /**
   * A new service that authenticates against a server whose task starts
   * running ends up connected, having written exactly one frame: the text of
   * the encoded `AuthPayload`.
   */
  method AuthenticateNewService(environment: Environment, parsesAsURL: string -> bool, utf8: Utf8,
                                token: string, encode: AuthPayload -> Result<Bytes, Error>,
                                inbound: seq<Incoming>)
    returns (r: Outcome<Error>, state: ConnectionState, sent: seq<Frame>)
    requires parsesAsURL(environment.BaseURL())
    requires encode(AuthPayload(token)).Success? && utf8.toText(encode(AuthPayload(token)).value).Some?
    ensures r == Pass && state == Connected
    ensures sent == [Text(utf8.toText(encode(AuthPayload(token)).value).value)]
  {
    var service := new WebSocketService(environment, parsesAsURL, utf8);
    r := service.Authenticate(token, Link(Running, inbound), encode, None);
    state := service.connectionState;
    sent := service.task.sent;
  }

  /**
   * A task that has already completed when `resume()` returns makes the first
   * `authenticate` throw `connectionFailed` and leaves the state
   * `disconnected`, yet the task stays stored. A second `authenticate` then
   * opens no new task, whatever the network would offer, and its write goes to
   * the completed task, so the transport's write error comes back wrapped in
   * `encodingFaild`.
   */
  method AuthenticateAfterCompletedTask(environment: Environment, parsesAsURL: string -> bool, utf8: Utf8,
                                        token: string, encode: AuthPayload -> Result<Bytes, Error>,
                                        inbound: seq<Incoming>, retry: Link, writeError: Error)
    returns (first: Outcome<Error>, stateAfterFirst: ConnectionState, second: Outcome<Error>,
             taskInbound: seq<Incoming>)
    requires parsesAsURL(environment.BaseURL())
    requires encode(AuthPayload(token)).Success? && utf8.toText(encode(AuthPayload(token)).value).Some?
    ensures first == Fail(WebSocket(ConnectionFailed)) && stateAfterFirst == ConnectionState.Disconnected
    ensures second == Fail(WebSocket(EncodingFaild(writeError)))
    ensures taskInbound == inbound
  {
    var service := new WebSocketService(environment, parsesAsURL, utf8);
    first := service.Authenticate(token, Link(Completed, inbound), encode, None);
    stateAfterFirst := service.connectionState;
    second := service.Authenticate(token, retry, encode, Some(writeError));
    taskInbound := service.task.inbound;
  }
}
