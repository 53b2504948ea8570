/**
 The configuration compiler's request layer: it resolves a node for a key,
 merges the cached server facts into it, asks the interpreter to compile it,
 and turns a compile error into a protocol fault; it also answers version
 queries and keeps one lazily created interpreter.

 The object's state (server facts, code snippet, interpreter) is a `Service`
 value; every operation takes the state and returns the next one together
 with its answer. The collaborators (node search, the interpreter's compile
 and configuration_version, the settings `node_name` and `trace`, whether
 the caller is local, and whether creating an interpreter raises) come in
 through `Env`.
 */
module Configuration {
  import opened Options
  import opened Facts
  import opened Nodes

  /** The fault code every compile error is reported with. */
  const CompileFaultCode: int := 1

  /** The `node_name` setting under which the client's certificate name replaces the key. */
  const CertNaming: string := "cert"

  /** How far past `now` the version answered to an unresolved client lies, in seconds. */
  const LocalVersionMargin: int := 1000

  /** The arguments key under which an inline code snippet reaches the interpreter. */
  const CodeArg: string := "Code"

  /** An interpreter object; `id` tells apart separately created ones, which
      Ruby would distinguish by object identity. */
  datatype Interpreter = Interpreter(id: nat, args: map<string, string>)

  /** The compiler object's state: the facts gathered at construction, the
      `code` accessor, the interpreter once created, and how many interpreters
      have been created so far. */
  datatype Service = Service(serverFacts: FactMap, code: Option<string>, interpreter: Option<Interpreter>, created: nat)

  /** An exception raised by a collaborator: a `Puppet::Error` with its
      message, or any other error. */
  datatype Failure = PuppetError(detail: string) | OtherError(detail: string)

  /** What `interpreter.compile(node)` does: returns a configuration or raises. */
  datatype CompileOutcome<C> = Compiled(config: C) | Raised(failure: Failure)

  /** What `Puppet::Node.search(key)` does: returns a node, returns `nil`, or raises. */
  datatype SearchOutcome = NodeFound(node: Node) | NoNode | SearchFailed(failure: Failure)

  /** What asking for the interpreter gives: the interpreter, or the exception
      `Puppet::Parser::Interpreter.new` raised while creating one. */
  datatype Obtained = Obtained(interpreter: Interpreter) | CreateFailed(failure: Failure)

  /** What `version` gives its caller: a version token, or an exception that
      passes through (it is not turned into a fault). */
  datatype VersionAnswer = Token(value: int) | VersionRaised(failure: Failure)

  /** What `find` gives its caller: the configuration; the `Puppet::Error`
      raised when no node is found, with the key that was searched and its
      message; the protocol fault a compile error becomes; or an exception that
      passes through untouched. */
  datatype FindResult<C> =
    | Found(config: C)
    | NodeMissing(key: string, message: string)
    | Fault(code: int, message: string)
    | Uncaught(failure: Failure)

  /** What a failed compile leaves behind besides the fault: a backtrace dump
      when tracing, an error log line when the caller is remote. */
  datatype Diagnostic = Backtrace(detail: string) | ErrorLog(detail: string)

  /** The collaborators and settings one request sees. `create` says what
      `Puppet::Parser::Interpreter.new` raises for given arguments, if anything.
      Each request may see a different one: whether the caller is local and
      what search answers change from call to call. */
  datatype Env<C> = Env(
    nodeName: string,
    trace: bool,
    local: bool,
    search: string -> SearchOutcome,
    create: map<string, string> -> Option<Failure>,
    compile: (Interpreter, Node) -> CompileOutcome<C>,
    configVersion: (Interpreter, Node) -> int)

  /** A state paired with an answer. */
  datatype Served<T> = Served(service: Service, value: T)

  /** The state and answer of one `find`, with the diagnostics it emitted. */
  datatype FindResponse<C> = FindResponse(service: Service, result: FindResult<C>, diagnostics: seq<Diagnostic>)

  /** The operations that leave state behind, for reasoning about many calls in a row. */
  datatype Request =
    | FindRequest(key: string, client: Option<string>)
    | VersionRequest(client: Option<string>, now: int)
    | SetCodeRequest(code: Option<string>)
    | InterpreterRequest

  // ---------------------------------------------------------------------------
  // Construction and the write-once state
  // ---------------------------------------------------------------------------

  /** The constructor: gathers the server facts and nothing else. */
  function New(version: string, p: Provider): (s: Service)
    ensures IsServerFacts(version, p, s.serverFacts)
    ensures s.interpreter.None? && s.created == 0 && s.code.None?
  {
    Service(SetServerFacts(version, p).facts, None, None, 0)
  }

  /** The `code=` accessor. */
  function SetCode(s: Service, code: Option<string>): (s': Service)
    ensures s'.code == code
    ensures s'.serverFacts == s.serverFacts && s'.interpreter == s.interpreter && s'.created == s.created
  {
    s.(code := code)
  }

  /** The arguments an interpreter is created with: the code snippet under
      `Code` when one is set (an empty string counts as set), and nothing
      otherwise. */
  function InterpreterArgs(code: Option<string>): (args: map<string, string>)
    ensures args.Keys <= {CodeArg}
    ensures CodeArg in args <==> code.Some?
    ensures code.Some? ==> args[CodeArg] == code.value
  {
    match code
    case None => map[]
    case Some(c) => map[CodeArg := c]
  }

  /** The `interpreter` accessor: the existing interpreter when there is one,
      otherwise a new one made from the current code, which is then kept. When
      creating it raises, nothing is kept, so the next call tries again. */
  function GetInterpreter(s: Service, create: map<string, string> -> Option<Failure>): (r: Served<Obtained>)
    ensures r.service.serverFacts == s.serverFacts && r.service.code == s.code
    ensures s.interpreter.Some? ==> r == Served(s, Obtained(s.interpreter.value))
    ensures s.interpreter.None? && create(InterpreterArgs(s.code)).None? ==>
              && r.value == Obtained(Interpreter(s.created, InterpreterArgs(s.code)))
              && r.service.interpreter == Some(r.value.interpreter)
              && r.service.created == s.created + 1
    ensures s.interpreter.None? && create(InterpreterArgs(s.code)).Some? ==>
              r == Served(s, CreateFailed(create(InterpreterArgs(s.code)).value))
  {
    match s.interpreter
    case Some(i) => Served(s, Obtained(i))
    case None =>
      var args := InterpreterArgs(s.code);
      match create(args)
      case Some(failure) => Served(s, CreateFailed(failure))
      case None =>
        var i := Interpreter(s.created, args);
        Served(s.(interpreter := Some(i), created := s.created + 1), Obtained(i))
  }

  /** The state invariant: either no interpreter has been created yet, or
      exactly one has, and it is the one kept. */
  ghost predicate Valid(s: Service)
  {
    || (s.interpreter.None? && s.created == 0)
    || (s.interpreter.Some? && s.created == 1 && s.interpreter.value.id == 0)
  }

  // ---------------------------------------------------------------------------
  // find
  // ---------------------------------------------------------------------------

  /** The key the node is searched under: the client's name replaces the key
      when, and only when, nodes are named by certificate and a client name is
      given. */
  function EffectiveKey(nodeName: string, key: string, client: Option<string>): (k: string)
    ensures k == key || (client.Some? && k == client.value)
    ensures nodeName == CertNaming && client.Some? ==> k == client.value
    ensures nodeName != CertNaming || client.None? ==> k == key
  {
    if nodeName == CertNaming && client.Some? then client.value else key
  }

  /** The message of the error raised when no node is found for `key`. */
  function NotFoundMessage(key: string): string
  {
    "Could not find node '" + key + "'"
  }

  /** The message quotes the key it was raised for, so different keys give
      different messages. */
  lemma NotFoundMessageNamesKey(a: string, b: string)
    ensures NotFoundMessage(a) == NotFoundMessage(b) <==> a == b
  {
    var prefix := "Could not find node '";
    if NotFoundMessage(a) == NotFoundMessage(b) {
      var m := NotFoundMessage(a);
      assert |prefix| == 21;
      assert m[21..|m| - 1] == a by {
        assert m == prefix + a + "'";
      }
      assert NotFoundMessage(b)[21..|NotFoundMessage(b)| - 1] == b by {
        assert NotFoundMessage(b) == prefix + b + "'";
      }
    }
  }

  /** The node the interpreter is given: the found node with the cached server facts merged in. */
  function AddNodeData(s: Service, n: Node): (r: Node)
    ensures EnrichedWith(n, s.serverFacts, r)
  {
    Merge(n, s.serverFacts)
  }

  /** The `rescue Puppet::Error` clause around the compile: a configuration is
      passed back unchanged; a `Puppet::Error` becomes a fault with code 1 and
      the error's message, after a backtrace dump when tracing and an error log
      line when the caller is remote; any other error passes through. */
  function Rescue<C>(service: Service, env: Env<C>, outcome: CompileOutcome<C>): (r: FindResponse<C>)
    ensures r.service == service
    ensures r.result.Found? <==> outcome.Compiled?
    ensures outcome.Compiled? ==> r.result.config == outcome.config
    ensures r.result.Fault? <==> outcome.Raised? && outcome.failure.PuppetError?
    ensures outcome.Raised? && outcome.failure.PuppetError? ==> r.result == Fault(CompileFaultCode, outcome.failure.detail)
    ensures outcome.Raised? && outcome.failure.OtherError? ==> r.result == Uncaught(outcome.failure)
    ensures r.result.Fault? ==> (Backtrace(r.result.message) in r.diagnostics <==> env.trace)
    ensures r.result.Fault? ==> (ErrorLog(r.result.message) in r.diagnostics <==> !env.local)
    ensures !r.result.Fault? ==> r.diagnostics == []
    ensures forall d :: d in r.diagnostics ==> r.result.Fault? && d.detail == r.result.message
  {
    match outcome
    case Compiled(config) => FindResponse(service, Found(config), [])
    case Raised(PuppetError(detail)) =>
      var dump := if env.trace then [Backtrace(detail)] else [];
      var log := if env.local then [] else [ErrorLog(detail)];
      FindResponse(service, Fault(CompileFaultCode, detail), dump + log)
    case Raised(OtherError(detail)) => FindResponse(service, Uncaught(OtherError(detail)), [])
  }

  /** Compiles a node inside the rescue clause. Both asking for the interpreter
      and the compile itself happen inside it, so an exception from creating
      the interpreter is handled like one from compiling, and leaves no
      interpreter behind; an interpreter created just before a failing compile
      is kept, since it is stored before `compile` is called. */
  function Compile<C>(s: Service, env: Env<C>, n: Node): (r: FindResponse<C>)
    ensures r.service.serverFacts == s.serverFacts && r.service.code == s.code
    ensures !r.result.NodeMissing?
    ensures s.interpreter.Some? ==> r.service == s
    ensures r.service.interpreter.Some? <==> s.interpreter.Some? || env.create(InterpreterArgs(s.code)).None?
    ensures s.interpreter.None? && r.service.interpreter.Some? ==>
              r.service.interpreter.value == Interpreter(s.created, InterpreterArgs(s.code))
    ensures r.service.interpreter.Some? ==>
              var outcome := env.compile(r.service.interpreter.value, n);
              && (r.result.Found? <==> outcome.Compiled?)
              && (outcome.Compiled? ==> r.result.config == outcome.config)
              && (r.result.Fault? <==> outcome.Raised? && outcome.failure.PuppetError?)
              && (outcome.Raised? && outcome.failure.PuppetError? ==> r.result == Fault(CompileFaultCode, outcome.failure.detail))
              && (outcome.Raised? && outcome.failure.OtherError? ==> r.result == Uncaught(outcome.failure))
    ensures r.service.interpreter.None? ==>
              var failure := env.create(InterpreterArgs(s.code)).value;
              && r.service == s
              && (failure.PuppetError? ==> r.result == Fault(CompileFaultCode, failure.detail))
              && (failure.OtherError? ==> r.result == Uncaught(failure))
    ensures r.result.Fault? ==> (Backtrace(r.result.message) in r.diagnostics <==> env.trace)
    ensures r.result.Fault? ==> (ErrorLog(r.result.message) in r.diagnostics <==> !env.local)
    ensures !r.result.Fault? ==> r.diagnostics == []
  {
    var got := GetInterpreter(s, env.create);
    match got.value
    case CreateFailed(failure) => Rescue(got.service, env, Raised(failure))
    case Obtained(i) => Rescue(got.service, env, env.compile(i, n))
  }

  /** `find`: search the node under the effective key, fail when there is none,
      otherwise merge in the server facts and compile. */
  function Find<C>(s: Service, env: Env<C>, key: string, client: Option<string>): (r: FindResponse<C>)
    ensures var k := EffectiveKey(env.nodeName, key, client);
      && (r.result.NodeMissing? <==> env.search(k).NoNode?)
      && (env.search(k).NoNode? ==>
            r.result.key == k && r.result.message == NotFoundMessage(k) && r.service == s && r.diagnostics == [])
      && (env.search(k).SearchFailed? ==>
            r.result == Uncaught(env.search(k).failure) && r.service == s && r.diagnostics == [])
      && (env.search(k).NodeFound? ==> r == Compile(s, env, Merge(env.search(k).node, s.serverFacts)))
    ensures r.service.serverFacts == s.serverFacts && r.service.code == s.code
  {
    var k := EffectiveKey(env.nodeName, key, client);
    match env.search(k)
    case NoNode => FindResponse(s, NodeMissing(k, NotFoundMessage(k)), [])
    case SearchFailed(failure) => FindResponse(s, Uncaught(failure), [])
    case NodeFound(n) => Compile(s, env, AddNodeData(s, n))
  }

  /** The key choice seen from outside: unless nodes are named by certificate
      the client name makes no difference to `find`, and when they are, a given
      client name makes the key argument irrelevant. */
  lemma FindKeyChoice<C>(s: Service, env: Env<C>, key: string, key': string, client: Option<string>, client': Option<string>)
    ensures env.nodeName != CertNaming ==> Find(s, env, key, client) == Find(s, env, key, client')
    ensures env.nodeName == CertNaming && client.Some? ==> Find(s, env, key, client) == Find(s, env, key', client)
    ensures env.nodeName == CertNaming ==> Find(s, env, key, None) == Find(s, env, key, Some(key))
  {
  }

  /** An exception from node search is outside the rescue clause: even a
      `Puppet::Error` reaches the caller as it was raised, never as a fault,
      and nothing is compiled. */
  lemma FindSearchErrorPassesThrough<C>(s: Service, env: Env<C>, key: string, client: Option<string>)
    requires env.search(EffectiveKey(env.nodeName, key, client)).SearchFailed?
    ensures Find(s, env, key, client).result == Uncaught(env.search(EffectiveKey(env.nodeName, key, client)).failure)
    ensures !Find(s, env, key, client).result.Fault?
    ensures Find(s, env, key, client).service == s
  {
  }

  /** When no node is found, no interpreter is created or asked: the answer
      is the same whatever creating or compiling would have done. */
  lemma FindMissingSkipsCompile<C>(s: Service, env: Env<C>, create: map<string, string> -> Option<Failure>,
                                   compile: (Interpreter, Node) -> CompileOutcome<C>, key: string, client: Option<string>)
    requires env.search(EffectiveKey(env.nodeName, key, client)).NoNode?
    ensures Find(s, env, key, client) == Find(s, env.(create := create, compile := compile), key, client)
    ensures var k := EffectiveKey(env.nodeName, key, client);
            Find(s, env, key, client).result == NodeMissing(k, NotFoundMessage(k))
    ensures Find(s, env, key, client).service.interpreter == s.interpreter
  {
  }

  /** A `Puppet::Error` raised while creating the interpreter becomes the same
      fault a compile error would, and no interpreter is kept, so the next
      request creates one afresh from the code set at that time. */
  lemma FindCreateFailureIsFault<C>(s: Service, env: Env<C>, key: string, client: Option<string>, detail: string)
    requires s.interpreter.None?
    requires env.search(EffectiveKey(env.nodeName, key, client)).NodeFound?
    requires env.create(InterpreterArgs(s.code)) == Some(PuppetError(detail))
    ensures Find(s, env, key, client).result == Fault(CompileFaultCode, detail)
    ensures Find(s, env, key, client).service == s
  {
  }

  /** The tracing setting and whether the caller is local change only the
      diagnostics, never the answer or the state. */
  lemma FindResultIgnoresTraceAndLocal<C>(s: Service, env: Env<C>, trace: bool, local: bool, key: string, client: Option<string>)
    ensures var r := Find(s, env, key, client);
            var r' := Find(s, env.(trace := trace, local := local), key, client);
            r.result == r'.result && r.service == r'.service
  {
  }

  // ---------------------------------------------------------------------------
  // version and translate
  // ---------------------------------------------------------------------------

  /** `version`: a client that resolves to a node gets the interpreter's
      configuration version for that node, as search returned it; an exception
      from searching or from creating the interpreter passes through, since
      `version` has no rescue clause. Otherwise the answer is the current time plus the margin,
      which is later than now, so a local freshness check always recompiles. */
  function Version<C>(s: Service, env: Env<C>, client: Option<string>, now: int): (r: Served<VersionAnswer>)
    ensures r.service.serverFacts == s.serverFacts && r.service.code == s.code
    ensures client.Some? && env.search(client.value).NodeFound? ==>
              var got := GetInterpreter(s, env.create);
              && (got.value.Obtained? ==>
                    r == Served(got.service, Token(env.configVersion(got.value.interpreter, env.search(client.value).node))))
              && (got.value.CreateFailed? ==> r == Served(s, VersionRaised(got.value.failure)))
    ensures client.Some? && env.search(client.value).SearchFailed? ==>
              r == Served(s, VersionRaised(env.search(client.value).failure))
    ensures client.None? || env.search(client.value).NoNode? ==>
              r == Served(s, Token(now + LocalVersionMargin)) && r.value.value > now
  {
    if client.None? then Served(s, Token(now + LocalVersionMargin))
    else
      match env.search(client.value)
      case NoNode => Served(s, Token(now + LocalVersionMargin))
      case SearchFailed(failure) => Served(s, VersionRaised(failure))
      case NodeFound(n) =>
        var got := GetInterpreter(s, env.create);
        match got.value
        case CreateFailed(failure) => Served(got.service, VersionRaised(failure))
        case Obtained(i) => Served(got.service, Token(env.configVersion(i, n)))
  }

  /** The configuration as sent back: the object itself to a local caller, an
      encoded text to a remote one. */
  datatype Translated<C> = Raw(config: C) | Encoded(text: string)

  /** `translate`; the encoding for remote callers is a parameter. */
  function Translate<C>(config: C, local: bool, encode: C -> string): (r: Translated<C>)
    ensures local <==> r.Raw?
    ensures r.Raw? ==> r.config == config
    ensures r.Encoded? ==> r.text == encode(config)
  {
    if local then Raw(config) else Encoded(encode(config))
  }

  // ---------------------------------------------------------------------------
  // Many calls in a row
  // ---------------------------------------------------------------------------

  /** The state after one request. */
  function Step<C>(s: Service, env: Env<C>, req: Request): Service
  {
    match req
    case FindRequest(key, client) => Find(s, env, key, client).service
    case VersionRequest(client, now) => Version(s, env, client, now).service
    case SetCodeRequest(code) => SetCode(s, code)
    case InterpreterRequest => GetInterpreter(s, env.create).service
  }

  /** The state after a sequence of requests, each made under its own
      collaborators and settings. */
  function Run<C>(s: Service, reqs: seq<(Env<C>, Request)>): Service
    decreases |reqs|
  {
    if |reqs| == 0 then s else Run(Step(s, reqs[0].0, reqs[0].1), reqs[1..])
  }

  /** A fresh compiler satisfies the invariant. */
  lemma NewValid(version: string, p: Provider)
    ensures Valid(New(version, p))
    ensures New(version, p).serverFacts == SetServerFacts(version, p).facts
  {
  }

  /** One request keeps the invariant, never touches the server facts, and
      never replaces an interpreter that exists. */
  lemma StepPreserves<C>(s: Service, env: Env<C>, req: Request)
    requires Valid(s)
    ensures Valid(Step(s, env, req))
    ensures Step(s, env, req).serverFacts == s.serverFacts
    ensures s.interpreter.Some? ==> Step(s, env, req).interpreter == s.interpreter
  {
  }

  /** Any number of requests: the server facts gathered at construction are
      the ones every request sees, at most one interpreter is ever created,
      and once created it is the one used from then on, whatever the code is
      set to later. */
  lemma {:induction false} RunPreserves<C>(s: Service, reqs: seq<(Env<C>, Request)>)
    requires Valid(s)
    ensures Valid(Run(s, reqs))
    ensures Run(s, reqs).serverFacts == s.serverFacts
    ensures Run(s, reqs).created <= 1
    ensures s.interpreter.Some? ==> Run(s, reqs).interpreter == s.interpreter
    decreases |reqs|
  {
    if |reqs| > 0 {
      StepPreserves(s, reqs[0].0, reqs[0].1);
      RunPreserves(Step(s, reqs[0].0, reqs[0].1), reqs[1..]);
    }
  }

  /** A failed creation is retried: when creating the interpreter raises on
      one request and succeeds on a later one, the later request creates it,
      from the code set at that time, and it is the first one ever kept. */
  lemma CreationRetriedAfterFailure<C>(s: Service, failing: Env<C>, working: Env<C>, code: Option<string>)
    requires Valid(s) && s.interpreter.None?
    requires failing.create(InterpreterArgs(s.code)).Some?
    requires working.create(InterpreterArgs(code)).None?
    ensures var after := Run(s, [(failing, InterpreterRequest), (failing, SetCodeRequest(code)), (working, InterpreterRequest)]);
            after.interpreter == Some(Interpreter(0, InterpreterArgs(code))) && after.created == 1
  {
    var s1 := Step(s, failing, InterpreterRequest);
    assert s1 == s;
    var s2 := Step(s1, failing, SetCodeRequest(code));
    var s3 := Step(s2, working, InterpreterRequest);
    var reqs := [(failing, InterpreterRequest), (failing, SetCodeRequest(code)), (working, InterpreterRequest)];
    assert Run(s, reqs) == Run(s1, reqs[1..]) == Run(s2, reqs[2..]) == Run(s3, reqs[3..]) == s3;
  }

  /** From construction on, every `find` merges exactly the facts gathered
      at construction, however many requests came before it. */
  lemma FindAfterRunUsesConstructionFacts<C>(version: string, p: Provider, reqs: seq<(Env<C>, Request)>, env: Env<C>, key: string, client: Option<string>)
    ensures var s := Run(New(version, p), reqs);
            var k := EffectiveKey(env.nodeName, key, client);
            env.search(k).NodeFound? ==>
              Find(s, env, key, client) == Compile(s, env, Merge(env.search(k).node, SetServerFacts(version, p).facts))
  {
    NewValid(version, p);
    RunPreserves(New(version, p), reqs);
  }
}
