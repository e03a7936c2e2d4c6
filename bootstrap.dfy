/**
 * The bootstrap function's own decisions (index.js:13-188): the merged and
 * resolved options, the CSP directive set attached when CSP is on, the
 * `applicationName` default, and whether the server starts now or is left
 * to the caller's `initialise` hook.
 */
module Bootstrap {
  import opened Wrappers
  import opened Options
  import opened Csp
  import opened Headers

  /**
   * The caller's `initialise` hook: absent, or present and either calling the
   * start function it is handed or not.
   */
  datatype InitialiseHook = NoHook | Hook(callsStart: bool)

  /** The argument `config_`: the fields the bootstrap reads. */
  datatype BaseConfig = BaseConfig(
    options: Option<Schema>,
    applicationName: Option<string>,
    initialise: InitialiseHook)

  /** A listening server, with the `config.port` value it was bound with. */
  datatype Server = Server(port: Option<Value>)

  /** Whether a server is listening once the bootstrap has returned (index.js:179-186). */
  predicate StartsListening(hook: InitialiseHook)
  {
    hook.NoHook? || hook.callsStart
  }

  /** `config.cspScriptSrc` and siblings: yargs' camel-case names for the `csp-*-src` options. */
  function CspSourcesOf(values: map<string, Value>): CspSources
  {
    CspSources(
      Lookup(values, "csp-script-src"),
      Lookup(values, "csp-child-src"),
      Lookup(values, "csp-style-src"),
      Lookup(values, "csp-font-src"))
  }

  /**
   * `config.etag` as the token the header middleware compares and sends. For
   * a string etag, the middleware's `etag != ""` test is exactly the
   * JavaScript truthiness of `config.etag`; a non-empty token always comes
   * from the `etag` option itself.
   */
  function EtagToken(values: map<string, Value>): (token: string)
    ensures Lookup(values, "etag").Some? && Lookup(values, "etag").value.Str? ==>
      (token != "" <==> Truthy(Lookup(values, "etag")))
    ensures token != "" ==> Lookup(values, "etag") == Some(Str(token))
  {
    match Lookup(values, "etag")
    case Some(Str(s)) => s
    case _ => ""
  }

  /** The directive set attached for the given option values, or none when CSP is off. */
  function Policy(values: map<string, Value>): (p: Option<map<string, seq<string>>>)
    ensures p.Some? <==> Truthy(Lookup(values, "csp"))
    ensures p.Some? ==> p.value == Directives(CspSourcesOf(values))
  {
    if Truthy(Lookup(values, "csp")) then Some(Directives(CspSourcesOf(values))) else None
  }

  /** The object the bootstrap fills in and returns. */
  class Config {
    var values: map<string, Value>
    var policy: Option<map<string, seq<string>>>
    var applicationName: string
    var server: Option<Server>
    var listenCalls: nat

    /** `config` as yargs returns it, before the bootstrap adds anything. */
    constructor (values: map<string, Value>)
      ensures this.values == values && policy == None && applicationName == ""
      ensures server == None && listenCalls == 0
    {
      this.values := values;
      policy := None;
      applicationName := "";
      server := None;
      listenCalls := 0;
    }

    /** The CSP step (index.js:86-114): build and attach the directive set when `config.csp` is truthy. */
    method AttachCsp()
      modifies this`policy
      ensures Truthy(Lookup(values, "csp")) ==> policy == Policy(values)
      ensures !Truthy(Lookup(values, "csp")) ==> policy == old(policy)
    {
      if Truthy(Lookup(values, "csp")) {
        var directives := BuildDirectives(CspSourcesOf(values));
        policy := Some(directives);
      }
    }

    /** The start function (index.js:174-177): listen on `config.port` and keep the server. */
    method Start()
      modifies this`server, this`listenCalls
      ensures server == Some(Server(Lookup(values, "port")))
      ensures listenCalls == old(listenCalls) + 1
    {
      server := Some(Server(Lookup(values, "port")));
      listenCalls := listenCalls + 1;
    }

    /**
     * index.js:155 and 179-186: record the application name, then hand the
     * start function to the `initialise` hook when there is one, and start
     * at once otherwise.
     */
    method Launch(given: BaseConfig)
      modifies this`applicationName, this`server, this`listenCalls
      ensures applicationName == ApplicationName(given.applicationName)
      ensures StartsListening(given.initialise) ==>
        server == Some(Server(Lookup(values, "port"))) && listenCalls == old(listenCalls) + 1
      ensures !StartsListening(given.initialise) ==>
        server == old(server) && listenCalls == old(listenCalls)
    {
      applicationName := ApplicationName(given.applicationName);
      match given.initialise
      case Hook(callsStart) =>
        if callsStart {
          Start();
        }
      case NoHook =>
        Start();
    }
  }

  /**
   * The bootstrap with an empty command line: merge the schemas and take the
   * defaults. When `help` is truthy the source prints usage and exits the
   * process (index.js:70-74); the model returns `null` there, standing for
   * "never returns". Otherwise it attaches CSP if enabled, names the
   * application and starts (or not). `clockToken` is the hex time stamp used
   * as the default etag.
   */
  method Bootstrap(given: BaseConfig, clockToken: string) returns (cfg: Config?)
    ensures cfg == null <==> Truthy(Lookup(Resolve(Merge(DefaultSchema(clockToken), given.options)), "help"))
    ensures cfg != null ==> fresh(cfg)
    ensures cfg != null ==> cfg.values == Resolve(Merge(DefaultSchema(clockToken), given.options))
    ensures cfg != null ==> cfg.policy == Policy(cfg.values)
    ensures cfg != null ==> cfg.applicationName == ApplicationName(given.applicationName)
    ensures cfg != null ==> (cfg.server.Some? <==> StartsListening(given.initialise))
    ensures cfg != null && StartsListening(given.initialise) ==>
      cfg.server == Some(Server(Lookup(cfg.values, "port")))
    ensures cfg != null ==> cfg.listenCalls == if StartsListening(given.initialise) then 1 else 0
  {
    var values := Resolve(Merge(DefaultSchema(clockToken), given.options));
    if Truthy(Lookup(values, "help")) {
      cfg := null;
      return;
    }
    var c := new Config(values);
    c.AttachCsp();
    c.Launch(given);
    cfg := c;
  }

  /**
   * With no caller options, CSP is on with `default-src` alone, the port is
   * 8080 and the etag is the clock token.
   */
  lemma ZeroConfig(clockToken: string)
    ensures var values := Resolve(Merge(DefaultSchema(clockToken), None));
      && Policy(values) == Some(map["default-src" := ["self", "unsafe-inline"]])
      && Lookup(values, "port") == Some(Num(8080))
      && EtagToken(values) == clockToken
  {
    var values := Resolve(Merge(DefaultSchema(clockToken), None));
    var o := CspSourcesOf(values);
    assert forall k :: k in OptionalDirectives ==> SourceFor(o, k) == None;
    OnlyDefaultWhenNothingSupplied(o);
  }

  /** The options the CSP test passes: a string default for each `csp-*-src`. */
  function CspTestOptions(): Schema
  {
    map[
      "csp-font-src" := OptionSpec(None, None, Some(Str("font-src-value")), None),
      "csp-style-src" := OptionSpec(None, None, Some(Str("style-src-value")), None),
      "csp-child-src" := OptionSpec(None, None, Some(Str("child-src-value")), None),
      "csp-script-src" := OptionSpec(None, None, Some(Str("script-src-value")), None)
    ]
  }

  /** An option the caller declares takes the caller's default. */
  lemma CallerDefaultWins(d: Schema, c: Schema, n: string, v: Value)
    requires n in c && c[n].default == Some(v)
    ensures Lookup(Resolve(Merge(d, Some(c))), n) == Some(v)
  {
  }

  /** An option the caller leaves alone keeps the built-in default. */
  lemma BuiltInDefaultKept(d: Schema, c: Schema, n: string, v: Value)
    requires n in d && n !in c && d[n].default == Some(v)
    ensures Lookup(Resolve(Merge(d, Some(c))), n) == Some(v)
  {
  }

  /** The directive set the CSP test expects: each test value after the two defaults. */
  function CspTestDirectives(): map<string, seq<string>>
  {
    map[
      "default-src" := ["self", "unsafe-inline"],
      "script-src" := ["self", "unsafe-inline", "script-src-value"],
      "child-src" := ["self", "unsafe-inline", "child-src-value"],
      "style-src" := ["self", "unsafe-inline", "style-src-value"],
      "font-src" := ["self", "unsafe-inline", "font-src-value"]
    ]
  }

  /** A directive given one non-empty string holds the two defaults and that string. */
  lemma StringSourceDirective(o: CspSources, k: string, v: string)
    requires k in OptionalDirectives && SourceFor(o, k) == Some(Str(v)) && v != ""
    ensures Directives(o)[k] == ["self", "unsafe-inline", v]
  {
  }

  /** The option values the CSP test's configuration resolves to. */
  lemma CspTestValues(clockToken: string)
    ensures var values := Resolve(Merge(DefaultSchema(clockToken), Some(CspTestOptions())));
      && Lookup(values, "csp") == Some(Flag(true))
      && Lookup(values, "csp-script-src") == Some(Str("script-src-value"))
      && Lookup(values, "csp-child-src") == Some(Str("child-src-value"))
      && Lookup(values, "csp-style-src") == Some(Str("style-src-value"))
      && Lookup(values, "csp-font-src") == Some(Str("font-src-value"))
  {
    var d, c := DefaultSchema(clockToken), CspTestOptions();
    BuiltInDefaultKept(d, c, "csp", Flag(true));
    CallerDefaultWins(d, c, "csp-script-src", Str("script-src-value"));
    CallerDefaultWins(d, c, "csp-child-src", Str("child-src-value"));
    CallerDefaultWins(d, c, "csp-style-src", Str("style-src-value"));
    CallerDefaultWins(d, c, "csp-font-src", Str("font-src-value"));
  }

  /** The directive set for any option values carrying the CSP test's four strings. */
  lemma CspTestPolicy(values: map<string, Value>)
    requires Lookup(values, "csp") == Some(Flag(true))
    requires Lookup(values, "csp-script-src") == Some(Str("script-src-value"))
    requires Lookup(values, "csp-child-src") == Some(Str("child-src-value"))
    requires Lookup(values, "csp-style-src") == Some(Str("style-src-value"))
    requires Lookup(values, "csp-font-src") == Some(Str("font-src-value"))
    ensures Policy(values) == Some(CspTestDirectives())
  {
    var o := CspSourcesOf(values);
    StringSourceDirective(o, "script-src", "script-src-value");
    StringSourceDirective(o, "child-src", "child-src-value");
    StringSourceDirective(o, "style-src", "style-src-value");
    StringSourceDirective(o, "font-src", "font-src-value");
    var d, e := Directives(o), CspTestDirectives();
    assert d.Keys == e.Keys;
    assert forall k :: k in d ==> d[k] == e[k];
    assert d == e;
  }

  /**
   * The CSP test's configuration: every supplied value ends up in its
   * directive, after `'self'` and `'unsafe-inline'`.
   */
  lemma CspTestScenario(clockToken: string)
    ensures Policy(Resolve(Merge(DefaultSchema(clockToken), Some(CspTestOptions())))) == Some(CspTestDirectives())
  {
    CspTestValues(clockToken);
    CspTestPolicy(Resolve(Merge(DefaultSchema(clockToken), Some(CspTestOptions()))));
  }

  /**
   * The etag test: with the etag option defaulting to `test`, a request
   * carrying `if-none-match: test` is answered 304 with an empty body.
   */
  method EtagTestScenario(clockToken: string) returns (status: int, body: string, nextCalls: nat)
    ensures status == 304 && body == "" && nextCalls == 0
  {
    var options := map["etag" := OptionSpec(None, None, Some(Str("test")), None)];
    var values := Resolve(Merge(DefaultSchema(clockToken), Some(options)));
    CallerDefaultWins(DefaultSchema(clockToken), options, "etag", Str("test"));
    var res := new Response(map[]);
    var req := Request("/index.js", map["if-none-match" := "test"]);
    HeaderMiddleware(EtagToken(values), req, res);
    status, body, nextCalls := res.status, res.body, res.nextCalled;
  }
}
