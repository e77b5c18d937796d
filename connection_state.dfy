/** The connection-health value and the transport states it is derived from. */
module Connection {
  import opened Wrappers

  /** `ConnectionState`: the health the service reports to its callers. */
  datatype ConnectionState = Connected | Disconnected | Connecting | Failed

  /**
   * The states of a `URLSessionWebSocketTask`; `Unknown` stands for any case a
   * later SDK may add, which the source handles with `@unknown default`.
   */
  datatype TaskState = Running | Suspended | Canceling | Completed | Unknown

  /**
   * The `didSet` observer of `webSocketTask`: the connection state derived
   * from the stored task's state at the moment it is assigned (`None` when no
   * task is stored).
   */
  function StateOf(task: Option<TaskState>): (c: ConnectionState)
    ensures c == Connected <==> task == Some(Running)
    ensures c == Connecting <==> task == Some(Suspended)
    ensures c == Disconnected <==> task in {None, Some(Canceling), Some(Completed)}
    ensures c == Failed <==> task == Some(Unknown)
  {
    match task
    case None => Disconnected
    case Some(s) =>
      match s
      case Running => Connected
      case Canceling | Completed => Disconnected
      case Suspended => Connecting
      case Unknown => Failed
  }
}
