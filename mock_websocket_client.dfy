/**
 * `MockWebSocketClient`: the offline stand-in for the service. It keeps only a
 * connected flag and replays a fixed list of canned values, each checked
 * against the type the caller asks for. Its logging and its delays are timing
 * and output only and are not modelled.
 */
module Mock {
  import opened Wrappers
  import opened WebSocketErrors
  import opened Messages
  import opened Streams

  /**
   * An element of the `[Any]` list: a value and the name of its runtime type.
   * `update as? T` succeeds exactly when the name is that of `T`.
   */
  datatype AnyValue<V> = AnyValue(typeName: string, value: V)

  /**
   * What the replay loop yields for a connected mock: the canned values in
   * list order while each has the requested type; the first that does not
   * finishes the stream with `invalidMessage`, and a list that runs out
   * finishes it without error.
   */
  function Replay<V>(updates: seq<AnyValue<V>>, requested: string): (s: Stream<V>)
    ensures |s.values| <= |updates|
    ensures s.end == Finished || s.end == FinishedThrowing(WebSocket(InvalidMessage))
    ensures s.end == Finished ==> |s.values| == |updates|
    ensures s.end.FinishedThrowing? ==> |s.values| < |updates|
    decreases |updates|
  {
    if updates == [] then Stream([], Finished)
    else if updates[0].typeName != requested then Stream([], FinishedThrowing(WebSocket(InvalidMessage)))
    else
      var rest := Replay(updates[1..], requested);
      Stream([updates[0].value] + rest.values, rest.end)
  }

  /** The values of the first `n` canned updates, in list order. */
  function ValuesOf<V>(updates: seq<AnyValue<V>>, n: nat): (vs: seq<V>)
    requires n <= |updates|
    ensures |vs| == n && forall i :: 0 <= i < n ==> vs[i] == updates[i].value
    decreases n
  {
    if n == 0 then [] else ValuesOf(updates, n - 1) + [updates[n - 1].value]
  }

  /**
   * The replay finishes without error exactly when every canned value has the
   * requested type, and then it yields all of them in list order.
   */
  lemma {:induction false} ReplayAllMatching<V>(updates: seq<AnyValue<V>>, requested: string)
    ensures Replay(updates, requested).end == Finished <==>
      forall i :: 0 <= i < |updates| ==> updates[i].typeName == requested
    ensures Replay(updates, requested).end == Finished ==>
      Replay(updates, requested).values == ValuesOf(updates, |updates|)
    decreases |updates|
  {
    if updates != [] && updates[0].typeName == requested {
      ReplayAllMatching(updates[1..], requested);
      if forall i :: 0 <= i < |updates[1..]| ==> updates[1..][i].typeName == requested {
        forall i | 0 <= i < |updates| ensures updates[i].typeName == requested {
          if i > 0 { assert updates[1..][i - 1] == updates[i]; }
        }
      }
      if forall i :: 0 <= i < |updates| ==> updates[i].typeName == requested {
        forall i | 0 <= i < |updates[1..]| ensures updates[1..][i].typeName == requested {
          assert updates[1..][i] == updates[i + 1];
        }
      }
    }
  }

  /**
   * The first canned value of another type finishes the stream with
   * `invalidMessage` after yielding exactly the values before it.
   */
  lemma {:induction false} ReplayStopsAtFirstMismatch<V>(updates: seq<AnyValue<V>>, requested: string, k: nat)
    requires k < |updates|
    requires forall i :: 0 <= i < k ==> updates[i].typeName == requested
    requires updates[k].typeName != requested
    ensures Replay(updates, requested) == Stream(ValuesOf(updates, k), FinishedThrowing(WebSocket(InvalidMessage)))
    decreases k
  {
    if k > 0 {
      forall i | 0 <= i < k - 1 ensures updates[1..][i].typeName == requested {
        assert updates[1..][i] == updates[i + 1];
      }
      ReplayStopsAtFirstMismatch(updates[1..], requested, k - 1);
      assert [updates[0].value] + ValuesOf(updates[1..], k - 1) == ValuesOf(updates, k);
    }
  }

  class MockWebSocketClient<V> {
    var isConnected: bool
    /** A `var` in the source, but assigned only by the initialiser. */
    var mockUpdates: seq<AnyValue<V>>
    /** The pause before each replayed value; timing is not modelled. */
    const delay: nat

    constructor (mockUpdates: seq<AnyValue<V>>, delay: nat)
      ensures !isConnected && this.mockUpdates == mockUpdates && this.delay == delay
    {
      isConnected := false;
      this.mockUpdates := mockUpdates;
      this.delay := delay;
    }

    /** `connect`: always succeeds and sets the flag. */
    method Connect() returns (r: Outcome<Error>)
      modifies this`isConnected
      ensures isConnected && r == Pass
    {
      isConnected := true;
      r := Pass;
    }

    /**
     * `authenticate`: connects, then checks the flag; the check cannot fail
     * because `connect` has just set it, so the mock never throws.
     */
    method Authenticate(token: string) returns (r: Outcome<Error>)
      modifies this`isConnected
      ensures isConnected && r == Pass
    {
      r := Connect();
      if r.Fail? {
        return;
      }
      if !isConnected {
        assert false;
      }
      var auth := AuthPayload(token);
    }

    /** `send`: accepts any value and changes nothing. */
    method Send<T>(value: T) returns (r: Outcome<Error>)
      ensures r == Pass
    {
      r := Pass;
    }

    /**
     * `receive(as:)`: not connected, a stream that finishes with
     * `disconnected`; connected, the replay of the canned values against the
     * requested type name.
     */
    method Receive(requested: string) returns (s: Stream<V>)
      ensures !isConnected ==> s == Stream([], FinishedThrowing(WebSocket(WebSocketError.Disconnected)))
      ensures isConnected ==> s == Replay(mockUpdates, requested)
    {
      if !isConnected {
        return Stream([], FinishedThrowing(WebSocket(WebSocketError.Disconnected)));
      }
      var values: seq<V> := [];
      for i := 0 to |mockUpdates|
        invariant values == ValuesOf(mockUpdates, i)
        invariant forall j :: 0 <= j < i ==> mockUpdates[j].typeName == requested
      {
        var update := mockUpdates[i];
        if update.typeName == requested {
          values := values + [update.value];
        } else {
          ReplayStopsAtFirstMismatch(mockUpdates, requested, i);
          return Stream(values, FinishedThrowing(WebSocket(InvalidMessage)));
        }
      }
      ReplayAllMatching(mockUpdates, requested);
      s := Stream(values, Finished);
    }

    /** `disconnect`: clears the flag. */
    method Disconnect()
      modifies this`isConnected
      ensures !isConnected
    {
      isConnected := false;
    }
  }

  /**
   * A mock receives nothing before `authenticate`, replays its list after it,
   * and after `disconnect` again fails with `disconnected` until the next
   * `authenticate`.
   */
  method ReceiveAcrossDisconnect<V>(updates: seq<AnyValue<V>>, requested: string, token: string)
    returns (before: Stream<V>, connected: Stream<V>, afterDisconnect: Stream<V>, reconnected: Stream<V>)
    ensures before == afterDisconnect == Stream([], FinishedThrowing(WebSocket(WebSocketError.Disconnected)))
    ensures connected == reconnected == Replay(updates, requested)
  {
    var mock := new MockWebSocketClient(updates, 0);
    before := mock.Receive(requested);
    var _ := mock.Authenticate(token);
    connected := mock.Receive(requested);
    mock.Disconnect();
    afterDisconnect := mock.Receive(requested);
    var _ := mock.Authenticate(token);
    reconnected := mock.Receive(requested);
  }
}
