# Configuration compiler request layer — a Dafny model

This project models `Puppet::Indirector::Code::Configuration`. That class sits in front of Puppet's catalog interpreter. Given a node name (the key) it does four things in order:

1. It finds the node, using the client's certificate name instead of the key when the `node_name` setting is `cert`.
2. It merges in the server facts: `serverversion`, `servername` and `serverip`. These facts are gathered once, when the object is constructed.
3. It compiles the node with an interpreter that is created lazily and then reused.
4. It turns a `Puppet::Error` raised by the compile into a protocol fault with code 1.

The class also answers version queries, and it translates a configuration for local or remote callers.

The model is functional. The object's state is a `Service` value: the server facts, the `code` accessor, the interpreter once it exists, and a count of interpreters created. Each operation takes that state and returns the next state together with its answer. The collaborators arrive as parameters:

- node search: a key gives a node, `nil`, or a raised exception
- the interpreter's `compile` and `configuration_version`
- Facter, modelled as a `map<string, string>` where an absent name means `nil`
- what `Puppet::Parser::Interpreter.new` raises for given arguments, if anything
- the `node_name` and `trace` settings
- whether the caller is local

Each request in a run of many may see different collaborators and settings.
- the current time, as an integer number of seconds

Ruby's `nil` is `Options.None`, or `Facts.Nil` for a fact value. Ruby treats only `nil` and `false` as false. Facter answers a string or `nil`, so a fact whose value is the empty string counts as available and is kept.

Files:
- `options.dfy`: the `Option` type.
- `facts.dfy`: the server-fact table. It gives a declarative description (`IsServerFacts`), the constructor's computation (`SetServerFacts`), and a proof that the description pins the table down exactly.
- `nodes.dfy`: the node record and the merge of facts into its parameters.
- `configuration.dfy`: `find`, the compile-error boundary, `version`, `translate`, the lazy interpreter, and runs of many requests that keep the write-once state.

Edge behaviours of the code that the model keeps:
- When fqdn is nil, `servername` is always set. It is `"." + domain` when hostname is nil, because `[nil, domain].join(".")` renders nil as the empty string. When hostname and domain are both nil, the key is present with the value nil.
- A client name that matches no node also gets `now + 1000` from `version`, the same as a call with no client.
- The interpreter is created on first use and then kept. When creating it raises, nothing is kept and the next request tries again.
- The compile is always benchmarked, for local callers too (the `LAK:FIXME` at line 79). The benchmark itself is not modelled.

## Model

| member | source | states |
|---|---|---|
| Facts.SetServerFacts | lib/puppet/indirector/code/configuration.rb:122-147 | The table built at construction meets the full description `IsServerFacts`. A warning is issued exactly for each of fqdn and ipaddress that is nil. |
| Facts.ServerFactsDetermined | lib/puppet/indirector/code/configuration.rb:122-137 | Two tables that both meet the description for the same version and Facter answers are equal. Only serverversion, servername and serverip can appear, serverversion is always the version string, and serverip is present exactly when ipaddress is non-nil. |
| Facts.ServerFactsCharacterized | lib/puppet/indirector/code/configuration.rb:122-147 | A table meets the description if and only if it is the constructor's table. |
| Facts.FullyAnsweredExample | spec/unit/indirector/code/configuration.rb:110-123 | Version 1, fqdn my.server.com and ipaddress my.ip.address give serverversion "1", servername "my.server.com" and serverip "my.ip.address", and no other key. |
| Facts.HostAndDomainExample | lib/puppet/indirector/code/configuration.rb:139-146 | With fqdn nil, hostname h and domain example.com give servername "h.example.com". The only warning is for fqdn. |
| Facts.NothingAnsweredExample | lib/puppet/indirector/code/configuration.rb:139-146 | With no facts at all, servername is present with value nil, serverip is absent, and both fqdn and ipaddress are warned about. |
| Nodes.Merge | lib/puppet/indirector/code/configuration.rb:66-67 | The merged node keeps its name and environment. Every server fact is present with the fact's value, overriding a parameter of the same name (an assumption, see Left out). All other parameters are kept, and nothing else is added. |
| Nodes.EnrichedWithDetermined | lib/puppet/indirector/code/configuration.rb:66-67 | The merge description allows exactly one result node. |
| Nodes.MergeIdempotent | lib/puppet/indirector/code/configuration.rb:66-67 | Merging the same facts twice gives the same node as merging them once. |
| Configuration.New | lib/puppet/indirector/code/configuration.rb:38-40 | The constructor gathers the facts to the description and creates no interpreter. |
| Configuration.SetCode | lib/puppet/indirector/code/configuration.rb:14 | The `code=` accessor changes only the code. The facts and the interpreter stay as they were. |
| Configuration.InterpreterArgs | lib/puppet/indirector/code/configuration.rb:102-117 | The interpreter arguments hold `Code` exactly when code is set, with that code as its value, and hold nothing else. |
| Configuration.GetInterpreter | lib/puppet/indirector/code/configuration.rb:43-48 | An existing interpreter is returned unchanged and the state is untouched. Otherwise a new interpreter is made from the current code, kept, and counted. When creating it raises, the exception is returned and the state is untouched, so no interpreter is kept. |
| Configuration.EffectiveKey | lib/puppet/indirector/code/configuration.rb:17-21 | The search key is the client name exactly when `node_name` is "cert" and a client name is given. Otherwise it is the key. |
| Configuration.NotFoundMessageNamesKey | lib/puppet/indirector/code/configuration.rb:26-28 | The message "Could not find node '<key>'" is different for different keys, so it identifies the key. |
| Configuration.AddNodeData | lib/puppet/indirector/code/configuration.rb:65-68 | The node handed to the interpreter is the found node enriched with exactly the cached server facts. |
| Configuration.Rescue | lib/puppet/indirector/code/configuration.rb:85-95 | A configuration is returned unchanged. A Puppet::Error becomes a fault with code 1 and the error's message. There is a backtrace dump exactly when tracing and an error log line exactly when the caller is remote. Any other error passes through. |
| Configuration.Compile | lib/puppet/indirector/code/configuration.rb:82-98 | An interpreter exists afterwards exactly when one existed or creating one did not raise. A new one is built from the current code and is kept even when the compile then fails. With an interpreter, its compile outcome decides the result: a configuration is returned, a Puppet::Error becomes fault code 1 with its message, and any other error passes through. When creation raises, the same classification applies to that exception and the state is unchanged. A compile never reports a missing node, and the facts and code are untouched. |
| Configuration.Find | lib/puppet/indirector/code/configuration.rb:17-36 | A node is missing exactly when the search under the effective key returns nil. Then the error carries that key and the message "Could not find node '<key>'", and the state is unchanged. An exception from search passes through unchanged, with no compile. Otherwise the result is the compile of the found node merged with the cached facts. The facts are never changed. |
| Configuration.FindKeyChoice | lib/puppet/indirector/code/configuration.rb:17-21 | Outside "cert" mode the client name makes no difference to `find`. In "cert" mode a given client name makes the key argument irrelevant, and a client equal to the key answers like no client. |
| Configuration.FindSearchErrorPassesThrough | lib/puppet/indirector/code/configuration.rb:26-28 | An exception from node search, even a Puppet::Error, reaches the caller as raised and never as a fault, and the state is unchanged. |
| Configuration.FindMissingSkipsCompile | lib/puppet/indirector/code/configuration.rb:26-28 | When no node is found, the answer depends neither on creating an interpreter nor on compiling, and no interpreter is created. |
| Configuration.FindCreateFailureIsFault | lib/puppet/indirector/code/configuration.rb:83-95 | A Puppet::Error raised while creating the interpreter during `find` becomes fault code 1 with its message, and leaves the state as it was, so the next request tries again. |
| Configuration.FindResultIgnoresTraceAndLocal | lib/puppet/indirector/code/configuration.rb:85-95 | The trace setting and local or remote status change only the diagnostics, never the result or the state. |
| Configuration.Version | lib/puppet/indirector/code/configuration.rb:51-60 | A client name that resolves gets the interpreter's configuration version of the node as search returned it. An exception from search or from creating the interpreter passes through unconverted. Otherwise the answer is now + 1000, which is later than now, and the state is unchanged. |
| Configuration.Translate | lib/puppet/indirector/code/configuration.rb:152-158 | A local caller gets the configuration itself. A remote caller gets its encoding. |
| Configuration.NewValid | lib/puppet/indirector/code/configuration.rb:38-48 | A fresh object has no interpreter and holds the facts gathered by the constructor. |
| Configuration.StepPreserves | lib/puppet/indirector/code/configuration.rb:43-48 | One request keeps "at most one interpreter, the first one", leaves the facts alone, and never replaces an existing interpreter. |
| Configuration.RunPreserves | lib/puppet/indirector/code/configuration.rb:38-48 | Over any sequence of requests, each under its own settings and collaborators, the facts never change and at most one interpreter is created. Once created, the interpreter stays the same even if the code is set afterwards. |
| Configuration.CreationRetriedAfterFailure | lib/puppet/indirector/code/configuration.rb:43-48 | When creating the interpreter raises on one request and succeeds on a later one, the later request creates and keeps it from the code set at that time, and it is the first interpreter ever kept. |
| Configuration.FindAfterRunUsesConstructionFacts | spec/unit/indirector/code/configuration.rb:31-41 | After any number of earlier requests, under any settings, `find` merges exactly the facts gathered at construction. |

## Left out

- Logging and timing: the `benchmark` notice, the wording of the "Could not retrieve fact" warnings and of `Puppet.err`, and the unused string built at lines 73-76. Warnings appear only as the list of unavailable fact names. The compile error's log line and backtrace dump appear only as `Diagnostic` entries.
- `update_node_check` (lines 162-170): it writes a check-in time to a Rails database, so it is I/O. `version` does not model it.
- The remote branch of `translate`: YAML serialisation and `CGI.escape` belong to libraries outside this model. The encoding is a parameter.
- The clock: `now` is an integer number of seconds. The float time value and its truncation by `to_i` are not modelled.
- The `clientip` argument of `find` and `version`: the code never reads it.
- The internals of node search, Facter, `Puppet::Parser::Interpreter` and `Puppet.version`. The version string is taken as already converted by `to_s`.
- Nodes.Merge: `Node#merge` is not part of this model, and nothing shown says which side wins on a clash. The model assumes the server facts override a node parameter of the same name. An implementation that keeps the existing parameter instead would differ whenever a node already carries `servername`, `serverip` or `serverversion`.
- Nodes.Merge: `node.merge` updates the searched node in place, and `find` compiles that same node (lines 31-33). The model's merge returns a new node and its node search is a pure function, so a node that search returns again (for example to `version`) is taken to be unmerged.
- The order of the two "Could not retrieve fact" warnings: it follows the insertion order of the hash literal at lines 129-131, which Ruby guarantees only from version 1.9. The model states which facts are warned about, not their order.
- Configuration.Version: the interpreter's `configuration_version` is taken to always answer. An exception from it is not modelled.
- Concurrency: the code has none. Sharing one fact table is modelled as one immutable value.
- The integration test of the script compiler: it tests a different class through language evaluation and file fixtures.
