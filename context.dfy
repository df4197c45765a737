/** The plugin context as the push task sees it: a log and the dispatch of
    `pushModule` to the active provider. The provider itself is not part
    of the model; what it answers is given as an input. */
module Context {
  import opened TaskTypes
  import opened Logging

  /** One `pushModule` request: the module name and the handle of the log
      entry handed to the provider. */
  datatype PushCall = PushCall(moduleName: string, logEntry: nat)

  class PluginContext {
    const log: Log
    /** Every `pushModule` request made through this context, in order. */
    var pushCalls: seq<PushCall>

    constructor (log: Log)
      ensures this.log == log && pushCalls == []
    {
      this.log := log;
      pushCalls := [];
    }

    /** Dispatches one push to the provider, which settles with `answer`:
        the call is recorded and the answer, value or error, is passed on
        as it is. */
    method PushModule(moduleName: string, logEntry: nat, answer: Outcome<PushResult>)
      returns (result: Outcome<PushResult>)
      modifies this
      ensures pushCalls == old(pushCalls) + [PushCall(moduleName, logEntry)]
      ensures result == answer
    {
      pushCalls := pushCalls + [PushCall(moduleName, logEntry)];
      result := answer;
    }
  }
}
