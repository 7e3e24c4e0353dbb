/**
 * What the agent replies to one inbound request. The request is checked in a
 * fixed order (a data chunk is present, it is JSON, its module is
 * registered); a request that passes is handed to the module, whose result is
 * forwarded with the request's debug chunks; a request error, whether raised
 * by a check or by the module, becomes the reply {"error": message}. Every
 * reply goes to the requester alone, under the response schema, with the
 * default timeout.
 */
module Dispatch {
  import opened CthunClient
  import opened ModuleRegistry

  /** Seconds the connector may take to send one reply. */
  const DefaultMsgTimeoutSec := 10

  /** What a module's performRequest yields: result data, or a request error. */
  datatype RequestOutcome = Result(data: Data) | RequestError(message: string)

  /** A module's performRequest for an action name and the whole parsed message. */
  type Perform = (Module, string, ParsedChunks) -> RequestOutcome

  /** The checks' verdict: the module to invoke, or the validation error's text. */
  datatype Validation = Accepted(target: Module) | Rejected(reason: string)

  function Validate(modules: Registry, msg: ParsedChunks): Validation
  {
    if !msg.hasData then Rejected("no data")
    else if msg.dataType != Json then Rejected("data is not in JSON format")
    else if msg.moduleName !in modules then Rejected("unknown module: " + msg.moduleName)
    else Accepted(modules[msg.moduleName])
  }

  /**
   * The checks run in order and the first that fails decides the text; each
   * text is produced by exactly one check, and a request passes all of them
   * exactly when it has JSON data naming a registered module.
   */
  lemma ValidationOrder(modules: Registry, msg: ParsedChunks)
    ensures Validate(modules, msg) == Rejected("no data") <==> !msg.hasData
    ensures Validate(modules, msg) == Rejected("data is not in JSON format") <==>
      msg.hasData && msg.dataType != Json
    ensures Validate(modules, msg) == Rejected("unknown module: " + msg.moduleName) <==>
      msg.hasData && msg.dataType == Json && msg.moduleName !in modules
    ensures Validate(modules, msg).Accepted? <==>
      msg.hasData && msg.dataType == Json && msg.moduleName in modules
    ensures Validate(modules, msg).Accepted? ==> Validate(modules, msg).target == modules[msg.moduleName]
  {
    var unknown := "unknown module: " + msg.moduleName;
    assert unknown[0] == 'u';
    assert "no data"[0] == 'n';
    assert "data is not in JSON format"[0] == 'd';
  }

  function DebugEntry(text: string): Data
  {
    map["debug_data" := JString(text)]
  }

  /** One {"debug_data": text} entry per debug chunk, in the same order. */
  function DebugEntries(debug: seq<string>): (entries: seq<Data>)
    ensures |entries| == |debug|
    ensures forall i :: 0 <= i < |debug| ==> entries[i] == DebugEntry(debug[i])
  {
    if debug == [] then [] else [DebugEntry(debug[0])] + DebugEntries(debug[1..])
  }

  /** Wraps each debug chunk into its own data container, appending one at a time. */
  method WrapDebug(debug: seq<string>) returns (entries: seq<Data>)
    ensures |entries| == |debug|
    ensures forall i :: 0 <= i < |debug| ==> entries[i] == DebugEntry(debug[i])
  {
    entries := [];
    for i := 0 to |debug|
      invariant |entries| == i
      invariant forall k :: 0 <= k < i ==> entries[k] == DebugEntry(debug[k])
    {
      entries := entries + [DebugEntry(debug[i])];
    }
  }

  function ErrorData(message: string): Data
  {
    map["error" := JString(message)]
  }

  /** The reply to a request error: only the error text, no debug entries. */
  function ErrorReply(msg: ParsedChunks, message: string): Outgoing
  {
    Outgoing([msg.sender], CthunResponseSchema, DefaultMsgTimeoutSec, ErrorData(message), [])
  }

  /** The reply forwarding a module's result, with the request's debug chunks. */
  function ResultReply(msg: ParsedChunks, data: Data): Outgoing
  {
    Outgoing([msg.sender], CthunResponseSchema, DefaultMsgTimeoutSec, data, DebugEntries(msg.debug))
  }

  /** The request error the handler catches, if any: a failed check or one raised by the module. */
  function CaughtError(modules: Registry, msg: ParsedChunks, perform: Perform): Option<string>
  {
    match Validate(modules, msg)
    case Rejected(reason) => Some(reason)
    case Accepted(m) =>
      match perform(m, msg.actionName, msg)
      case RequestError(message) => Some(message)
      case Result(_) => None
  }

  /** The one message the handler sends for a request. */
  function Reply(modules: Registry, msg: ParsedChunks, perform: Perform): (out: Outgoing)
    ensures out.targets == [msg.sender]
    ensures out.schema == CthunResponseSchema && out.timeout == DefaultMsgTimeoutSec
  {
    match Validate(modules, msg)
    case Rejected(reason) => ErrorReply(msg, reason)
    case Accepted(m) =>
      match perform(m, msg.actionName, msg)
      case Result(data) => ResultReply(msg, data)
      case RequestError(message) => ErrorReply(msg, message)
  }

  /**
   * A request that fails a check gets the same reply whatever the modules
   * would do: no module is consulted.
   */
  lemma RejectedRequestSkipsModules(modules: Registry, msg: ParsedChunks, p: Perform, q: Perform)
    requires Validate(modules, msg).Rejected?
    ensures Reply(modules, msg, p) == Reply(modules, msg, q)
    ensures Reply(modules, msg, p).data == ErrorData(Validate(modules, msg).reason)
  {
  }

  /**
   * The reply is the error reply exactly when a request error was caught;
   * otherwise it carries the module's result verbatim and one debug entry
   * per debug chunk, in order.
   */
  lemma ReplyContents(modules: Registry, msg: ParsedChunks, perform: Perform)
    ensures CaughtError(modules, msg, perform).Some? ==>
      var out := Reply(modules, msg, perform);
      out.data == ErrorData(CaughtError(modules, msg, perform).value) && out.debug == []
    ensures CaughtError(modules, msg, perform).None? ==>
      var out := Reply(modules, msg, perform);
      && Validate(modules, msg).Accepted?
      && var outcome := perform(modules[msg.moduleName], msg.actionName, msg);
      && outcome.Result?
      && out.data == outcome.data
      && |out.debug| == |msg.debug|
      && forall i :: 0 <= i < |msg.debug| ==> out.debug[i] == DebugEntry(msg.debug[i])
  {
  }
}
