/**
 * An `AsyncThrowingStream` observed to the point where its producer stops:
 * the values it yielded, in order, and how it ended.
 */
module Streams {
  import opened WebSocketErrors

  datatype StreamEnd =
    | Open                  // still waiting: the transport has delivered nothing more yet
    | Finished              // `finish()`
    | FinishedThrowing(error: Error)  // `finish(throwing:)`

  datatype Stream<T> = Stream(values: seq<T>, end: StreamEnd)

}
