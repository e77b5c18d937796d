/** `Environment`: the deployment a client connects to, and its server address. */
module Environments {

  datatype Environment = Dev | QA | Prod {

    /** `baseURL`: the secure WebSocket address of the environment's server. */
    function BaseURL(): (u: string)
      ensures |u| >= 9 && u[..6] == "wss://" && u[|u| - 3..] == "/ws"
    {
      match this
      case Dev => "wss://dev.example.com/ws"
      case QA => "wss://qa.example.com/ws"
      case Prod => "wss://prod.example.com/ws"
    }
  }

  /** No two environments share a server address. */
  lemma BaseURLInjective(a: Environment, b: Environment)
    ensures a.BaseURL() == b.BaseURL() ==> a == b
  {
  }

  /**
   * `defaultEnvironment`: chosen at compile time by the build flags; DEBUG is
   * tested first, then TESTING.
   */
  function DefaultEnvironment(debug: bool, testing: bool): (e: Environment)
    ensures debug ==> e == Dev
    ensures !debug && testing ==> e == QA
    ensures !debug && !testing ==> e == Prod
    ensures e == Dev <==> debug
  {
    if debug then Dev
    else if testing then QA
    else Prod
  }
}
