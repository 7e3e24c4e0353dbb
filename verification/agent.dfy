/**
 * The agent: it owns the connector and the module registry, builds the
 * registry when it is constructed, and handles each inbound request by
 * sending exactly one reply to its sender.
 */
module CthunAgent {
  import opened CthunClient
  import opened ModuleRegistry
  import opened Dispatch
  import Summary

  /** The inbound request schema: `module` and `action` strings required, `params` an optional object. */
  function CncRequestSchema(): Schema
  {
    Schema(CthunRequestSchema, Json,
      [ Constraint("module", StringType, true),
        Constraint("action", StringType, true),
        Constraint("params", ObjectType, false) ])
  }

  /**
   * The schema admits exactly the JSON data holding a string `module` and a
   * string `action`, and an object as `params` if that field is present; so
   * every request the handler sees has a module name and an action name.
   */
  lemma CncRequestSchemaAdmits(data: Data)
    ensures Admits(CncRequestSchema(), data) <==>
      && "module" in data && data["module"].JString?
      && "action" in data && data["action"].JString?
      && ("params" in data ==> data["params"].JObject?)
  {
    var cs := CncRequestSchema().constraints;
    if Admits(CncRequestSchema(), data) {
      assert cs[0].field == "module";
      assert cs[1].field == "action";
      assert cs[2].field == "params";
    }
  }

  class Agent {
    const connector: Connector
    /** Module name to module; filled once, by the constructor. */
    var modules: Registry

    /**
     * Starts from an empty registry, registers the built-ins, then the
     * external modules found in the modules directory, then reports them.
     */
    constructor (catalog: Catalog, dir: ModulesDir, plural: nat -> string)
      ensures fresh(connector) && connector.sent == [] && connector.delivered == []
      ensures modules == BuildRegistry(catalog, dir)
    {
      connector := new Connector();
      modules := map[];
      new;
      LoadInternalModules(catalog);
      LoadExternalModulesFrom(dir);
      var _ := LogLoadedModules(plural);
    }

    method LoadInternalModules(catalog: Catalog)
      modifies this`modules
      ensures modules == LoadInternal(old(modules), catalog)
    {
      modules := modules["echo" := BuiltInModule(Echo, catalog(Echo))];
      modules := modules["inventory" := BuiltInModule(Inventory, catalog(Inventory))];
      modules := modules["ping" := BuiltInModule(Ping, catalog(Ping))];
      modules := modules["status" := BuiltInModule(Status, catalog(Status))];
    }

    /**
     * Walks the directory listing in order: every entry that is not a
     * directory and constructs is registered under its declared name; the
     * others are skipped. A path that is not a directory adds nothing.
     */
    method LoadExternalModulesFrom(dir: ModulesDir)
      modifies this`modules
      ensures dir.NotADirectory? ==> modules == old(modules)
      ensures dir.Directory? ==> modules == LoadEntries(old(modules), dir.entries)
      ensures old(modules).Keys <= modules.Keys
    {
      if dir.Directory? {
        var entries := dir.entries;
        var i := 0;
        while i < |entries|
          invariant 0 <= i <= |entries|
          invariant modules == LoadEntries(old(modules), entries[..i])
        {
          var f := entries[i];
          if !f.isDir {
            match f.load
            case Loaded(name, actions) =>
              modules := modules[name := ExternalModule(f.path, name, actions)];
            case Failed =>
          }
          assert entries[..i + 1][..i] == entries[..i];
          i := i + 1;
        }
        assert entries[..i] == entries;
        LoadEntriesKeepsKeys(old(modules), entries);
      }
    }

    /**
     * The line reported for every registered module, keyed by module name;
     * `plural` gives the suffix for an action count.
     */
    method LogLoadedModules(plural: nat -> string) returns (lines: map<string, string>)
      ensures lines.Keys == modules.Keys
      ensures forall name :: name in lines ==>
        lines[name] == Summary.LoadedLine(name, modules[name].actions, plural(|modules[name].actions|))
    {
      lines := map[];
      var pending := modules.Keys;
      while pending != {}
        invariant pending <= modules.Keys
        invariant lines.Keys == modules.Keys - pending
        invariant forall name :: name in lines ==>
          lines[name] == Summary.LoadedLine(name, modules[name].actions, plural(|modules[name].actions|))
        decreases pending
      {
        var name :| name in pending;
        var actions := modules[name].actions;
        var txt, actionsList := Summary.DescribeActions(actions);
        var txtSuffix := plural(|actions|);
        lines := lines[name := "Loaded '" + name + "' module - " + txt + txtSuffix + actionsList];
        pending := pending - {name};
      }
    }

    /**
     * Handles one request: runs the checks, invokes the module when they
     * pass, and makes exactly one send attempt, addressed to the sender; a
     * failed send is not retried and does not turn into an error reply.
     * `invoked` tells whether the module's performRequest was called.
     */
    method CncRequestCallback(msg: ParsedChunks, perform: Perform) returns (invoked: bool)
      modifies connector
      ensures connector.sent == old(connector.sent) + [Reply(modules, msg, perform)]
      ensures connector.delivered == old(connector.delivered) ||
              connector.delivered == old(connector.delivered) + [Reply(modules, msg, perform)]
      ensures invoked <==> Validate(modules, msg).Accepted?
    {
      invoked := false;
      var caught: Option<string> := None;
      if !msg.hasData {
        caught := Some("no data");
      } else if msg.dataType != Json {
        caught := Some("data is not in JSON format");
      } else if msg.moduleName !in modules {
        caught := Some("unknown module: " + msg.moduleName);
      } else {
        var modulePtr := modules[msg.moduleName];
        invoked := true;
        var outcome := perform(modulePtr, msg.actionName, msg);
        match outcome
        case RequestError(message) =>
          caught := Some(message);
        case Result(data) =>
          var debug := WrapDebug(msg.debug);
          assert debug == DebugEntries(msg.debug);
          // a connection error here is only logged
          var _ := connector.Send(Outgoing([msg.sender], CthunResponseSchema, DefaultMsgTimeoutSec, data, debug));
      }
      if caught.Some? {
        // a connection error here is only logged
        var _ := connector.Send(Outgoing([msg.sender], CthunResponseSchema, DefaultMsgTimeoutSec,
                                         ErrorData(caught.value), []));
      }
    }
  }

  /** The connector errors start-up can meet, with their what() text. */
  datatype ConnectorError = ConnectionConfigError(what: string) | ConnectionFatalError(what: string)

  /** Where start-up meets the error: building the connector, connecting, or monitoring. */
  datatype StartStep = Construct | Connect | Monitor

  /** A fatal_error with its message, or the connector error escaping untranslated. */
  datatype StartFailure = FatalError(message: string) | Escapes(error: ConnectorError)

  const CommsPhrase := "failed to configure the underlying communications"

  /** The translation of connector errors during start-up, with the connect message worded as intended. */
  function TranslateStartError(step: StartStep, e: ConnectorError): (r: StartFailure)
    ensures r.FatalError? <==>
      (e.ConnectionConfigError? && step != Monitor) || (e.ConnectionFatalError? && step != Construct)
    ensures r.Escapes? ==> r.error == e
  {
    match (step, e)
    case (Construct, ConnectionConfigError(what)) => FatalError("failed to configure the agent: " + what)
    case (Connect, ConnectionConfigError(_)) => FatalError(CommsPhrase + " layer")
    case (Connect, ConnectionFatalError(_)) => FatalError("failed to connect")
    case (Monitor, ConnectionFatalError(_)) => FatalError("failed to reconnect")
    case _ => Escapes(e)
  }

  /** The same translation as the code words it, with two string literals run together. */
  function TranslateStartErrorAsWritten(step: StartStep, e: ConnectorError): StartFailure
  {
    match (step, e)
    case (Connect, ConnectionConfigError(_)) => FatalError(CommsPhrase + "layer")
    case _ => TranslateStartError(step, e)
  }

  /** As written, "communications" runs straight into "layer". */
  lemma AsWrittenFusesWords(what: string)
    ensures var m := TranslateStartErrorAsWritten(Connect, ConnectionConfigError(what)).message;
      |m| > |CommsPhrase| && m[..|CommsPhrase|] == CommsPhrase && m[|CommsPhrase|] == 'l'
  {
  }

  /** As intended, the words stay separated: "communications layer". */
  lemma IntendedSeparatesWords(what: string)
    ensures var m := TranslateStartError(Connect, ConnectionConfigError(what)).message;
      |m| > |CommsPhrase| && m[..|CommsPhrase|] == CommsPhrase && m[|CommsPhrase|] == ' '
      && m[|CommsPhrase| + 1..] == "layer"
  {
  }
}
