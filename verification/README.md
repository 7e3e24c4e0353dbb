# cthun agent: request dispatcher and module registry

A Dafny model of the core of the cthun agent (`lib/src/agent.cc`). The agent
registers modules by name when it is constructed. It receives requests from
the broker, routes each one to the named module, and sends one reply back to
the requester.

- `wire.dfy` (module `CthunClient`) holds the boundary with the messaging
  client library. It has JSON values, the parsed inbound message
  (`ParsedChunks`), the outbound message (`Outgoing`), request schemas with
  what their constraint lists admit, and a `Connector` class. The connector
  records every send attempt in `sent` and every attempt that did not throw
  in `delivered`. Whether a send throws is chosen arbitrarily on each call.
- `registry.dfy` (module `ModuleRegistry`) holds module values and the
  modules-directory listing. Each entry has a path, a directory flag and a
  load outcome. The file also has the registry the agent builds, as
  functions, with lemmas on last-registration-wins, skipped entries and the
  built-ins.
- `summary.dfy` (module `Summary`) builds the per-module "Loaded ... module"
  text. It includes the action-list builder as a loop. It also proves that
  splitting the list at ", " gives back the action names, provided no name
  contains a comma.
- `dispatch.dfy` (module `Dispatch`) states the reply to one request as a
  function: the ordered checks, then the module's result or an error. It
  holds the lemmas about that reply and the loop that wraps debug chunks.
- `agent.dfy` (module `CthunAgent`) holds the `Agent` class. Its
  constructor, its two module-loading methods (`LoadExternalModulesFrom`
  walks the listing in a loop), the summary builder and the request
  callback change or read the agent's state. Each is proved against the
  functions above. The file also has the request schema constant and
  the translation of connector errors during start-up.

Any entry of the modules directory that is not itself a directory is a
candidate external module, not only regular files (`lib/src/agent.cc:124`).
A module error other than a request error is not caught by the callback
(`lib/src/agent.cc:228`).

## Model

| member | source | states |
|---|---|---|
| `CthunClient.Connector.Send` | lib/src/agent.cc:216-226 | every call is recorded as one attempt; a send that throws delivers nothing and is not retried |
| `ModuleRegistry.LoadEntriesKeys` | lib/src/agent.cc:123-137 | after loading, a name is registered iff it was already registered or some non-directory entry that constructs declares it |
| `ModuleRegistry.LoadEntriesKeepsKeys` | lib/src/agent.cc:123-137 | loading external modules never removes a registered name |
| `ModuleRegistry.LastLoadWins` | lib/src/agent.cc:123-129 | the last entry in listing order that loads a name decides the module registered under it |
| `ModuleRegistry.UnloadedNameKeepsModule` | lib/src/agent.cc:123-137 | a name that no entry loads keeps the module it had before |
| `ModuleRegistry.SkippedEntryChangesNothing` | lib/src/agent.cc:124-137 | a directory entry, or a candidate whose construction throws, can be dropped from the listing, wherever it stands, without changing the result |
| `ModuleRegistry.BuiltInUnlessShadowed` | lib/src/agent.cc:110-129 | the four built-in names are always registered; a built-in keeps its module unless a loadable external entry takes its name, in which case the last such entry in listing order decides the module |
| `ModuleRegistry.RegistryNames` | lib/src/agent.cc:110-143 | the registry names are exactly echo, inventory, ping and status plus the names declared by loadable entries; a modules path that is not a directory adds none |
| `Summary.JoinSnoc` | lib/src/agent.cc:151-159 | appending one action to a non-empty list adds ", " and the name |
| `Summary.SplitJoin` | lib/src/agent.cc:151-159 | the action list can be read back: splitting the joined names at ", " returns them in order when no name contains a comma |
| `Summary.DescribeActions` | lib/src/agent.cc:148-159 | with no action the text is "found no action" and the list is empty; otherwise the text is "action" and the list is ": " followed by the names joined with ", "; the list is empty iff there is no action |
| `Dispatch.ValidationOrder` | lib/src/agent.cc:187-201 | "no data" iff there is no data; "data is not in JSON format" iff there is data that is not JSON; "unknown module: " + name iff the data is JSON and the module is not registered; accepted iff all three checks pass, and then the registered module is the target |
| `Dispatch.DebugEntries` | lib/src/agent.cc:207-214 | one {"debug_data": text} entry per debug chunk, same length and same order |
| `Dispatch.WrapDebug` | lib/src/agent.cc:207-214 | the push_back loop yields one {"debug_data": text} entry per debug chunk, in order |
| `Dispatch.Reply` | lib/src/agent.cc:216-245 | every reply goes to the sender alone, under the response schema, with timeout 10 |
| `Dispatch.RejectedRequestSkipsModules` | lib/src/agent.cc:187-205 | a request that fails a check gets the same reply whatever performRequest would do, and that reply is {"error": reason} |
| `Dispatch.ReplyContents` | lib/src/agent.cc:204-245 | when a request error is caught, from a check or from the module, the reply is {"error": message} with no debug entries; otherwise the module was accepted, its result is sent verbatim, and one debug entry per debug chunk is attached in order |
| `CthunAgent.CncRequestSchemaAdmits` | lib/src/agent.cc:167-176 | the request schema admits exactly data with a string module, a string action and, if present, an object as params |
| `CthunAgent.Agent.constructor` | lib/src/agent.cc:56-68 | the registry starts empty and ends as built-ins followed by the directory's loadable entries; no message has been sent yet |
| `CthunAgent.Agent.LoadInternalModules` | lib/src/agent.cc:110-115 | echo, inventory, ping and status are assigned in that order over the existing registry |
| `CthunAgent.Agent.LoadExternalModulesFrom` | lib/src/agent.cc:117-144 | the listing is applied in order, skipping directories and failed candidates; a path that is not a directory leaves the registry unchanged; no name is removed |
| `CthunAgent.Agent.LogLoadedModules` | lib/src/agent.cc:146-165 | one "Loaded '<name>' module - <text><suffix><list>" line per registered module, built from the module's actions |
| `CthunAgent.Agent.CncRequestCallback` | lib/src/agent.cc:178-251 | exactly one send attempt per request, equal to `Reply`; a failed send neither retries nor sends an error reply; performRequest is called iff the checks pass |
| `CthunAgent.TranslateStartError` | lib/src/agent.cc:69-103 | connector errors become a fatal error exactly for a configuration error while constructing or connecting, and a fatal connection error while connecting or monitoring; any other error escapes unchanged |
| `CthunAgent.AsWrittenFusesWords` | lib/src/agent.cc:86-87 | as written, the configuration-failure message while connecting reads "...communicationslayer" |
| `CthunAgent.IntendedSeparatesWords` | lib/src/agent.cc:86-87 | as corrected, that message reads "...communications layer" |

## Left out

- getModulesDirPath (`lib/src/agent.cc:38-50`) resolves the path against the real filesystem. The constructor takes the modules directory's listing directly.
- Constructing an external module runs the executable to fetch its metadata. It is replaced by the entry's `load` outcome.
- The built-in modules' internals and every module's performRequest are outside this model. performRequest is a function parameter (`perform`). The built-ins' action names are a parameter (`catalog`).
- StringUtils::plural is not part of this model. It is a parameter (`plural`).
- `CthunAgent.Agent.LogLoadedModules`: the lines are returned as a map keyed by module name, so the model does not capture the order in which the registry's container iterates. The container's header is not part of this model.
- Logging calls are left out. Request ids appear only in log text.
- `CthunAgent.Agent.CncRequestCallback`: an exception from performRequest that is not a request error escapes the callback in the code. The model does not capture it, because `perform` returns either a result or a request error.
- Start-up I/O is left out: registering the callback, connecting and monitoring the connection. Only the translation of connector errors into fatal errors is modelled (`TranslateStartError`).
- Validating JSON messages against schemas is done by the client library. Only the schema value and what its constraint list admits are modelled. The parsed message carries `module` and `action` as strings, which that schema guarantees.
- Floating-point JSON values are not modelled.

## Findings

| source | as written | input that shows it | evidently intended | confidence | as-written member | corrected member |
|---|---|---|---|---|---|---|
| lib/src/agent.cc:86-87 | two adjacent string literals make the fatal message "failed to configure the underlying communicationslayer" | `connect()` throws a connection configuration error | "failed to configure the underlying communications layer" | high (not executed) | `CthunAgent.AsWrittenFusesWords` | `CthunAgent.TranslateStartError` |
