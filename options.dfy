/**
 * The option schema handed to yargs (index.js:18-68), the values it yields
 * when the command line is empty, and the `applicationName` default
 * (index.js:155).
 */
module Options {
  import opened Wrappers

  /** The JavaScript values an option can hold. */
  datatype Value = Num(n: int) | Str(s: string) | Flag(b: bool) | List(items: seq<string>)

  /** JavaScript truthiness of a possibly `undefined` value. */
  predicate Truthy(v: Option<Value>)
  {
    match v
    case None => false
    case Some(Num(n)) => n != 0
    case Some(Str(s)) => s != ""
    case Some(Flag(b)) => b
    case Some(List(_)) => true
  }

  /** One yargs option declaration: `{alias, description, default, type}`. */
  datatype OptionSpec = OptionSpec(
    alias: Option<string>,
    description: Option<string>,
    default: Option<Value>,
    kind: Option<string>)

  type Schema = map<string, OptionSpec>

  /** The names the built-in schema declares. */
  const DefaultNames: set<string> := {
    "port", "static", "cors", "csp", "csp-script-src", "csp-child-src",
    "csp-style-src", "csp-font-src", "compression", "etag", "help"
  }

  /**
   * The built-in schema. `clockToken` stands for `Date.now().toString(16)`,
   * the default etag computed when the function is called.
   */
  function DefaultSchema(clockToken: string): (d: Schema)
    ensures d.Keys == DefaultNames
    ensures d["port"].default == Some(Num(8080)) && d["port"].alias == Some("p")
    ensures d["static"].default == Some(Str(""))
    ensures d["cors"].default == Some(Flag(true)) && d["csp"].default == Some(Flag(true))
    ensures d["compression"].default == Some(Flag(false))
    ensures d["etag"].default == Some(Str(clockToken))
    ensures d["csp-script-src"].default == d["csp-child-src"].default == None
    ensures d["csp-style-src"].default == d["csp-font-src"].default == d["help"].default == None
  {
    map[
      "port" := OptionSpec(Some("p"), Some("Port where the service should run"), Some(Num(8080)), Some("number")),
      "static" := OptionSpec(None, Some("Path to static files to serve"), Some(Str("")), None),
      "cors" := OptionSpec(None, Some("Enable CORS or not"), Some(Flag(true)), None),
      "csp" := OptionSpec(None, Some("Enable CSP or not"), Some(Flag(true)), None),
      "csp-script-src" := OptionSpec(None, Some("Specify script src"), None, Some("array")),
      "csp-child-src" := OptionSpec(None, Some("Specify child src"), None, Some("array")),
      "csp-style-src" := OptionSpec(None, Some("Specify style src"), None, Some("array")),
      "csp-font-src" := OptionSpec(None, Some("Specify font src"), None, Some("array")),
      "compression" := OptionSpec(None, Some("Enable Compression or not"), Some(Flag(false)), None),
      "etag" := OptionSpec(None, Some("Enable Static ETAG or not"), Some(Str(clockToken)), None),
      "help" := OptionSpec(Some("h"), Some("Show Help"), None, None)
    ]
  }

  /**
   * `Object.assign(defaults, callerOptions || {})`: a caller entry replaces the
   * default entry of the same name as a whole; names the caller does not
   * mention keep their default entry.
   */
  function Merge(defaults: Schema, caller: Option<Schema>): (m: Schema)
    ensures m.Keys == defaults.Keys + caller.GetOr(map[]).Keys
    ensures forall n :: n in caller.GetOr(map[]) ==> m[n] == caller.value[n]
    ensures forall n :: n in defaults && n !in caller.GetOr(map[]) ==> m[n] == defaults[n]
  {
    defaults + caller.GetOr(map[])
  }

  /** Merging with no caller options leaves the defaults unchanged. */
  lemma MergeWithoutCallerOptions(defaults: Schema)
    ensures Merge(defaults, None) == defaults
    ensures Merge(defaults, Some(map[])) == defaults
  {
  }

  /**
   * The option values yargs produces when no command-line argument is given:
   * each declared option that has a default takes it; the others are absent.
   */
  function Resolve(schema: Schema): (values: map<string, Value>)
    ensures forall n :: n in values <==> n in schema && schema[n].default.Some?
    ensures forall n :: n in values ==> values[n] == schema[n].default.value
  {
    map n | n in schema && schema[n].default.Some? :: schema[n].default.value
  }

  /** Reading `config[name]`: `undefined` when the option has no value. */
  function Lookup(values: map<string, Value>, name: string): Option<Value>
  {
    if name in values then Some(values[name]) else None
  }

  /** `config_.applicationName || 'Unspecified'`. */
  function ApplicationName(given: Option<string>): (name: string)
    ensures name != ""
    ensures given.Some? && given.value != "" ==> name == given.value
    ensures (given == None || given == Some("")) ==> name == "Unspecified"
  {
    match given
    case Some(s) => if s != "" then s else "Unspecified"
    case None => "Unspecified"
  }
}
