# Real-time order status client, modelled in Dafny

This project models the WebSocket client of an iOS app that follows order and
event statuses in real time. It covers the following parts:

- `WebSocketService`. It holds at most one `URLSessionWebSocketTask` and
  derives a four-valued `connectionState` from that task each time the task is
  assigned. It connects lazily, authenticates with a token, sends encodable
  values as text frames, turns incoming frames into a stream of decoded values,
  and disconnects.
- `MockWebSocketClient`. This offline stand-in keeps a connected flag and
  replays a fixed list of canned values, checking each against the requested
  type.
- The pure parts around the client:
  - the raw string values of `EventStatus` and `OrderStatus`;
  - the required properties of `EventDTO` and `OrderDTO`;
  - the display title and colour of each status;
  - the server address of each `Environment`, and the default environment
    that the build flags select.

The files are:

- `wrappers.dfy`: `Option`, `Result`, and `Outcome`, which stands for a
  throwing call that returns nothing.
- `websocket_error.dfy`: `WebSocketError`, Swift's `Error`, and bytes.
- `connection_state.dfy`: `ConnectionState`, the task states, and the
  `didSet` map.
- `messages.dfy`: `AuthPayload` and the `WebSocketMessage` envelope.
- `streams.dfy`: a stream as its yielded values plus how it ended.
- `transport.dfy`: the transport task.
  - The network's behaviour is an input: the state `resume()` reaches, the
    events the server delivers, and whether a write fails.
- `websocket_service.dfy`: the service class, together with the functions that
  specify `send` and `receive` and the lemmas about them.
- `mock_websocket_client.dfy`: the mock class, its replay specification and the
  lemmas about it.
- `event_dto.dfy`, `order_dto.dfy`, `json.dfy`: the status enumerations, the
  record decoding and the JSON values it reads.
- `event_status_display.dfy`: titles and colours.
- `environment.dfy`: environments, base URLs and the default environment.

The JSON coders are generic in Swift. Each generic operation here takes the
coder specialised to its payload type, as a function that either succeeds or
fails. The same holds for `URL(string:)` and for Foundation's two UTF-8
conversions, which are constants of the service.

Four behaviours of the code are easy to misread, and the model follows the code:

- `send` wraps every failure after its "no task" check in `encodingFaild`.
  This includes the transport's own write error and the UTF-8 `serverError`,
  because the `catch` covers all three.
  - The source's doc comment says that `serverError` is thrown, but the code
    throws `encodingFaild(serverError(...))`.
- `receive` finishes the stream with the decoder's own error. It never wraps
  that error in `decodingFailed`, and nothing in the client raises
  `decodingFailed` at all.
- When `URL(string:)` rejects the address, `connect` does nothing without
  throwing. In that case `authenticate` fails with `disconnected`, which comes
  from `send`, and not with `connectionFailed`.
- `connectIfNeeded` tests the connection state, not the task. Suppose a task
  is stored whose state after `resume()` was canceling or completed. The
  state is then `disconnected`, `connect` keeps the stored task, and
  `authenticate` sends on that task.

## Model

| member | source | states |
|---|---|---|
| `Connection.StateOf` | src/WebSocket/WebSocketService.swift:17-34 | a task's state maps to connected exactly when running, to connecting exactly when suspended, to failed exactly for an unknown state, and to disconnected for canceling, completed or no task |
| `Service.WebSocketService.SetTask` | src/WebSocket/WebSocketService.swift:17-34 | assigning the task stores it and keeps `connectionState` equal to the map of that task's state at the assignment |
| `Service.WebSocketService.constructor` | src/WebSocket/WebSocketService.swift:40-69 | a new service holds no task and is disconnected |
| `Service.WebSocketService.Url` | src/WebSocket/WebSocketService.swift:45-47 | the URL is the environment's base URL, present exactly when it parses |
| `Service.WebSocketService.Connect` | src/WebSocket/WebSocketService.swift:86-95 | no-op when a task is stored or the URL does not parse; otherwise stores a fresh task to the URL, derives the state from the state after resume, and throws `connectionFailed` exactly when that state is not running, keeping the task stored |
| `Service.WebSocketService.ConnectIfNeeded` | src/WebSocket/WebSocketService.swift:98-101 | never replaces a stored task; opens a task only when none is stored and the URL parses, with the outcome of `connect` |
| `Service.SendAttempt` | src/WebSocket/WebSocketService.swift:126-134 | once a task exists, every failure is `encodingFaild` whose cause is the encoder's error, the UTF-8 `serverError`, or the transport's write error, in that order of checking; success exactly when all three steps succeed, writing the UTF-8 text as one text frame |
| `Service.WebSocketService.Send` | src/WebSocket/WebSocketService.swift:121-135 | no task: throws `disconnected` and writes nothing; otherwise the outcome of `SendAttempt`, with exactly the frame it writes appended to the task's sent frames |
| `Messages.AuthActionIsConstant` | src/Models/AuthPayload.swift:3-6 | an auth payload carries the token and always the action "authenticate" |
| `Service.WebSocketService.Authenticate` | src/WebSocket/WebSocketService.swift:109-112 | a stored task is never replaced; a failed connect is passed on unchanged with nothing sent; otherwise the outcome of sending `AuthPayload(token)`, with the frame it writes as the only new frame |
| `Service.AuthenticateNewService` | src/WebSocket/WebSocketService.swift:109-112 | a new service authenticating against a task that starts running ends up connected with exactly one frame written, the text of the encoded auth payload |
| `Service.AuthenticateAfterCompletedTask` | src/WebSocket/WebSocketService.swift:86-112 | a task already completed after resume makes `authenticate` throw `connectionFailed` with the state disconnected but the task kept; a second `authenticate` opens no new task and its write error comes back as `encodingFaild` |
| `Service.Payload` | src/WebSocket/WebSocketService.swift:153-165 | text frames give their UTF-8 bytes and binary frames their data; any other frame kind, or text without bytes, is `invalidMessage` |
| `Service.Step` | src/WebSocket/WebSocketService.swift:152-167 | a transport error and a decoder error pass through unwrapped; a bad frame gives `invalidMessage`; otherwise the decoded value |
| `Service.Received` | src/WebSocket/WebSocketService.swift:148-176 | the stream never yields more values than events, never finishes without an error, and stays open only after consuming every event |
| `Service.ReceivedInOrder` | src/WebSocket/WebSocketService.swift:150-168 | if every event decodes, the stream yields every decoded value in arrival order and stays open |
| `Service.ReceivedStopsAtFirstError` | src/WebSocket/WebSocketService.swift:150-173 | the first failing event ends the stream with its own error after exactly the values of the earlier events; later events make no difference |
| `Service.ReceivedErrorComesFromAnEvent` | src/WebSocket/WebSocketService.swift:167-171 | a failed stream's error is exactly the error one of the events produced; the loop adds no error of its own, so it never introduces `decodingFailed` |
| `Service.WebSocketService.Receive` | src/WebSocket/WebSocketService.swift:141-177 | no task: a stream that only finishes with `disconnected`; otherwise the stream `Received` specifies for the task's events; after a failure the task keeps exactly the events after the failing one, which were never read |
| `Service.WebSocketService.Disconnect` | src/WebSocket/WebSocketService.swift:180-183 | cancels the stored task, if any, clears it, and leaves the state `disconnected` |
| `Service.WebSocketService.Deinit` | src/WebSocket/WebSocketService.swift:72-74 | teardown has the effect of `disconnect` |
| `Service.DisconnectTwice` | src/WebSocket/WebSocketService.swift:180-183 | two disconnects in a row succeed and leave the service disconnected |
| `Mock.Replay` | src/WebSocket/Mock+WebSocketService.swift:48-59 | the replay yields at most the canned values and finishes either without error, having yielded all of them, or with `invalidMessage` |
| `Mock.ReplayAllMatching` | src/WebSocket/Mock+WebSocketService.swift:49-58 | the replay finishes without error exactly when every canned value has the requested type, and it then yields all of them in list order |
| `Mock.ReplayStopsAtFirstMismatch` | src/WebSocket/Mock+WebSocketService.swift:51-55 | the first value of another type finishes the stream with `invalidMessage` after exactly the values before it |
| `Mock.MockWebSocketClient.constructor` | src/WebSocket/Mock+WebSocketService.swift:5-15 | a new mock is not connected and holds the given canned list |
| `Mock.MockWebSocketClient.Connect` | src/WebSocket/Mock+WebSocketService.swift:17-19 | the mock's connect always succeeds and sets the flag |
| `Mock.MockWebSocketClient.Authenticate` | src/WebSocket/Mock+WebSocketService.swift:21-34 | authenticate leaves the mock connected and never throws, so the `disconnected` guard is unreachable |
| `Mock.MockWebSocketClient.Send` | src/WebSocket/Mock+WebSocketService.swift:36-39 | send succeeds and changes no state |
| `Mock.MockWebSocketClient.Receive` | src/WebSocket/Mock+WebSocketService.swift:41-61 | not connected: a stream that only finishes with `disconnected`; connected: exactly the replay of the canned list against the requested type |
| `Mock.ReceiveAcrossDisconnect` | src/WebSocket/Mock+WebSocketService.swift:41-65 | a new or disconnected mock receives only `disconnected`; after each `authenticate` it replays the same canned list from its start |
| `Mock.MockWebSocketClient.Disconnect` | src/WebSocket/Mock+WebSocketService.swift:63-65 | disconnect clears the flag, so a later receive fails with `disconnected` |
| `StatusDisplay.Title` | src/Models/Events/EventStatus+Display.swift:17-26 | every status's title is the one the documented status/title table gives it |
| `StatusDisplay.ColorOf` | src/Models/Events/EventStatus+Display.swift:39-48 | every status's colour is the one the documented status/colour table gives it |
| `StatusDisplay.MappingsMatchTables` | src/Models/Events/EventStatus+Display.swift:8-36 | both functions agree with every row of both documented tables |
| `StatusDisplay.MappingsInjective` | src/Models/Events/EventStatus+Display.swift:17-48 | different statuses have different titles and different colours |
| `EventModels.EventStatus.RawValue` | src/Models/Events/EventDTO.swift:12-19 | decoding a status's raw value gives back that status |
| `EventModels.EventStatusFromRawValue` | src/Models/Events/EventDTO.swift:12-19 | exactly the six raw strings decode |
| `EventModels.EventStatusCases` | src/Models/Events/EventDTO.swift:12-19 | there are exactly six statuses and their raw values are pairwise distinct |
| `EventModels.EventStatusRawValueInverse` | src/Models/Events/EventDTO.swift:12-19 | a string that decodes is the raw value of its status |
| `EventModels.EventStatusRejectsCaseName` | src/Models/Events/EventDTO.swift:15 | the case name "partiallyFilled" does not decode; only "partially_filled" does |
| `EventModels.DecodeEventDTO` | src/Models/Events/EventDTO.swift:3-10 | a record decodes exactly when all six properties are present and of their types, and its fields are those properties |
| `EventModels.EventDTORequiresEveryKey` | src/Models/Events/EventDTO.swift:3-10 | an object missing any one of the six keys does not decode |
| `OrderModels.OrderStatus.RawValue` | src/Models/Events/OrderDTO.swift:12-19 | decoding a status's raw value gives back that status |
| `OrderModels.OrderStatusFromRawValue` | src/Models/Events/OrderDTO.swift:12-19 | exactly the six raw strings decode |
| `OrderModels.OrderStatusCases` | src/Models/Events/OrderDTO.swift:12-19 | there are exactly six statuses and their raw values are pairwise distinct |
| `OrderModels.OrderStatusRawValueInverse` | src/Models/Events/OrderDTO.swift:12-19 | a string that decodes is the raw value of its status; "partiallyFilled" does not decode |
| `OrderModels.SameRawValuesAsEventStatus` | src/Models/Events/OrderDTO.swift:12-19 | order and event statuses accept exactly the same raw strings, case by case |
| `OrderModels.DecodeOrderDTO` | src/Models/Events/OrderDTO.swift:3-10 | a record decodes exactly when all six properties are present and of their types, and its fields are those properties |
| `OrderModels.OrderDTORequiresEveryKey` | src/Models/Events/OrderDTO.swift:3-10 | an object missing any one of the six keys does not decode |
| `Environments.Environment.BaseURL` | src/WebSocket/Environment.swift:6-12 | every base URL starts with "wss://" and ends with "/ws" |
| `Environments.BaseURLInjective` | src/WebSocket/Environment.swift:8-10 | the three base URLs are pairwise distinct |
| `Environments.DefaultEnvironment` | src/WebSocket/Environment.swift:16-24 | DEBUG selects dev even when TESTING is set; TESTING alone selects qa; otherwise prod; dev exactly when DEBUG |

## Left out

- The `WebSocketClient` protocol is not modelled as an interface, because traits are not available here. The service and the mock each declare the same four operations.
- The `shared` singleton, a global instance, is left out.
- `URLSession` and the transport's networking are not modelled. A task is reduced to the following:
  - its state;
  - the events delivered to it, in arrival order;
  - the frames written to it.
- The state `resume()` reaches, the incoming events and a write failure are inputs.
- Cancelling a task that has not completed moves it to canceling. Its later completion is not modelled, because the service drops the task as it cancels it.
- `JSONEncoder` and `JSONDecoder` are not modelled, and their `.default` configuration is not part of this model. Encoding and decoding are given functions that either succeed or fail.
  - `DecodeEventDTO` and `DecodeOrderDTO` assume that the coding keys are the property names, since a key strategy cannot be seen.
  - Dates are decoded by a given date strategy.
- `URL(string:)` and Foundation's UTF-8 conversions are given functions.
- async/await, `Task`, and the laziness and cancellation of `AsyncThrowingStream` are not modelled.
  - A stream is modelled as the values it yields plus how it ended.
  - `Receive` runs its loop over the events that have already arrived, and leaves the stream open when it has read them all.
  - The model runs the loop within the call. In the source, no termination handler stops the loop when the consumer stops listening; the loop ends only when the captured task throws, for instance after a later `disconnect` cancels it.
- The initialiser's default arguments are left out. `Service.WebSocketService.constructor` takes the environment explicitly; the source defaults it to `defaultEnvironment`, which `Environments.DefaultEnvironment` models, and defaults the session and coders to shared instances that are not modelled.
- `Service.WebSocketService.Deinit` is modelled as a method that callers invoke, because Dafny objects have no deinitialiser.
- The mock's `Task.sleep` delays and its `print` logging are timing and output only, so they are left out.
- `Mock.MockWebSocketClient.Receive` replaces Swift's `as? T` dynamic cast with equality of type names. It therefore does not model subtyping or bridging.
- SwiftUI `Color` rendering is left out. Colours are named values.
- The `WebSocketMessage` envelope is a datatype only. It has no behaviour in the source.
