# Express bootstrap helper: a verified model of its decision logic

The repository exports one bootstrap function (`index.js`). It merges a
caller's option schema into a built-in one and reads the options through
yargs. It then assembles an Express application with CSP, CORS, a header/ETag
middleware, optional compression and optional static files, and starts
listening, either at once or when the caller's `initialise` hook says so.
Almost all of that is handed to libraries. This project models the parts the
function decides for itself:

- **Options** (`options.dfy`): the built-in schema, the shallow
  `Object.assign` merge with the caller's schema, the values an empty command
  line yields, JavaScript truthiness, and the `applicationName` default.
- **Csp** (`csp.dfy`): the directive set. It is written twice: as a
  declarative function (`Directives`) and as the source's step-by-step map
  building (`BuildDirectives`), which is proved equal to it. A caller list is
  either an array (from the command line) or a plain string (a string default
  in the schema, as in the CSP test). A string counts as one element.
- **Headers** (`headers.dfy`): a `Response` class with a header map, `status`,
  `body`, `sendDate`, a `finished` flag and a `nextCalled` counter. Header names
  are stored lower-case, as Node stores them, which makes the compression
  filter's `content-encoding` lookup exact. Beside the class, at module level,
  are the per-request middleware, which acts on a `Response`, and the
  compression filter.
- **Bootstrap** (`bootstrap.dfy`): a `Config` class holding the resolved
  values, the attached CSP policy, the application name and the server. It has
  the CSP step, the start function and the start-or-defer dispatch; the
  bootstrap returns no config when `help` is set, as the process exits. There are also
  lemmas replaying the repository's own test scenarios (zero config, CSP, etag).
- **Strings** (`strings.dfy`): `indexOf` and ASCII lower-casing.

Inputs from outside are parameters. The clock-derived default etag
(`Date.now().toString(16)`) is `clockToken`. The caller's `initialise` hook is
`InitialiseHook`: absent, or present and either calling start or not.

The ETag exclusion is a substring test (`indexOf('/api') === -1`), not a
path-prefix test: `/static/api.js` gets no ETag
(`Headers.ApiAnywhereDisablesETag`). The `compression` option defaults to
`false`.

## Model

| member | source | states |
|---|---|---|
| `Strings.IndexOf` | index.js:133 | `indexOf` returns -1 exactly when the needle occurs nowhere; otherwise it returns an index where the needle occurs, with no occurrence before it |
| `Strings.IndexFrom` | index.js:133 | the search from a position returns either -1 or a position at or after it where the needle occurs, and there is no occurrence between the start position and the result |
| `Options.Truthy` | index.js:86 | JavaScript truthiness, as used by `if (config.csp)` here and by `config.etag &&` at index.js:125 and 133: `undefined`, `0`, `''` and `false` are falsy; arrays are truthy |
| `Options.DefaultSchema` | index.js:19-66 | the built-in schema declares exactly the eleven options. Defaults: port 8080 (alias `p`), static `''`, cors and csp `true`, compression `false`, etag the clock token. The other options have no default |
| `Options.Merge` | index.js:19-67 | the merged schema has the union of the names; each caller entry replaces the default entry as a whole; names the caller does not mention keep their default entry |
| `Options.MergeWithoutCallerOptions` | index.js:67 | absent caller options (`config_.options || {}`) and empty caller options both leave the defaults unchanged |
| `Options.Resolve` | index.js:18-68 | with no command-line arguments, an option has a value exactly when its entry has a default, and the value is that default |
| `Options.ApplicationName` | index.js:155 | the name is never empty; it is the caller's name when that is a non-empty string, and `'Unspecified'` when the name is absent or empty |
| `Csp.Supplied` | index.js:93-105 | `list && list.length > 0`: an array with an element or a non-empty string; numbers and booleans have no `length` and never pass |
| `Csp.Appended` | index.js:95 | `concat` appends an array's elements in order, or a non-empty string as one element, and never appends nothing |
| `Csp.Directives` | index.js:86-108 | `default-src` is always `['self','unsafe-inline']`; no keys besides `default-src` and the four optional directives; each optional directive is present if and only if its list is supplied (non-empty), and then holds the two defaults followed by the caller's values |
| `Csp.BuildDirectives` | index.js:88-108 | inserting the directives one `if` at a time produces exactly the declarative directive set |
| `Csp.SuppliedValuesKept` | index.js:93-108 | every supplied value appears in its directive, at its own position after the two defaults, and the directive starts with `default-src`'s value |
| `Csp.DefaultSrcFixed` | index.js:88-91 | `default-src` is the same for every caller input |
| `Csp.OnlyDefaultWhenNothingSupplied` | index.js:88-108 | with no list supplied, the directive set is `default-src` alone |
| `Headers.NotModified` | index.js:125 | the short-circuit test: the token is non-empty and the request's `if-none-match` header is present and equal to it |
| `Headers.Cacheable` | index.js:133 | the ETag test: the token is non-empty, the path is non-empty, and `indexOf('/api')` is -1 |
| `Headers.AddedHeaders` | index.js:133-140 | a request that passes through gets the three security headers with fixed values; it gets `ETag` (the token) and `Cache-Control: public, max-age=1800` if and only if the token is non-empty, the path is non-empty and the path does not contain `/api`; no other header is added |
| `Headers.CacheableIff` | index.js:133 | the ETag condition is a substring test: `/api` at any position of the path disables it |
| `Headers.ApiAnywhereDisablesETag` | index.js:133 | `/static/api.js` (not under `/api`) gets no ETag; `/index.js` does |
| `Headers.Response.SetHeader` | index.js:135 | `res.header` stores the value under the lower-cased name and keeps all stored names lower-case |
| `Headers.Response.Status` | index.js:127 | `res.status(304)` sets the status code |
| `Headers.Response.SendEmpty` | index.js:128 | `send()` with no argument leaves an empty body and finishes the response |
| `Headers.Response.End` | index.js:129 | `end()` finishes the response |
| `Headers.SetCacheHeaders` | index.js:135-136 | adds exactly the `etag` and `cache-control` entries |
| `Headers.SetSecurityHeaders` | index.js:138-140 | adds exactly the three security headers |
| `Headers.HeaderMiddleware` | index.js:122-143 | `sendDate` is false afterwards. With a non-empty token equal to `if-none-match`: status 304, empty body, response finished, no header added, `next` not called. Otherwise: exactly `AddedHeaders` is added, status and body are untouched, and `next` is called exactly once |
| `Headers.CompressionFilter` | index.js:150 | compression is chosen exactly when no stored header name lower-cases to `content-encoding` |
| `Headers.MiddlewareKeepsCompressionChoice` | index.js:122-153 | the header middleware never sets `content-encoding`, so it never changes the compression filter's answer |
| `Bootstrap.EtagToken` | index.js:125 | for a string etag, the middleware's non-empty test on the token holds exactly when `config.etag` is truthy; a non-empty token is always the `etag` option's own string value |
| `Bootstrap.StartsListening` | index.js:179-186 | a server is listening after the bootstrap exactly when there is no `initialise` hook, or the hook calls the start function |
| `Bootstrap.Policy` | index.js:86-114 | a directive set is attached if and only if `csp` is truthy, and it is then the directive set of the configured lists |
| `Bootstrap.Config.AttachCsp` | index.js:86-114 | with `csp` truthy the config holds the directive set built from its values; otherwise nothing is attached |
| `Bootstrap.Config.Start` | index.js:174-177 | the server is bound with `config.port` and stored on the config; one more listen call |
| `Bootstrap.Config.Launch` | index.js:174-186 | records the application name (index.js:155). Without an `initialise` hook it starts at once. With a hook, it starts only if the hook calls start; otherwise the server and listen count are unchanged |
| `Bootstrap.Bootstrap` | index.js:13-188 | when `help` resolves truthy the process exits and no config is returned (index.js:70-74). Otherwise the returned config holds the resolved merged options, the CSP policy exactly when CSP is on, and the defaulted application name. A server exists, from exactly one listen call, if and only if no hook was given or the hook called start, and it is bound with the resolved `port` value (index.js:176) |
| `Bootstrap.ZeroConfig` | indexTest.js:87-95 | with no caller options: CSP is on with `default-src` alone, port 8080, etag the clock token |
| `Bootstrap.CallerDefaultWins` | index.js:19-67 | an option the caller declares resolves to the caller's default |
| `Bootstrap.BuiltInDefaultKept` | index.js:19-67 | an option the caller leaves alone resolves to its built-in default |
| `Bootstrap.CspTestScenario` | indexTest.js:172-201 | the CSP test's four string defaults give each directive `['self','unsafe-inline', value]`, next to `default-src` |
| `Bootstrap.EtagTestScenario` | indexTest.js:138-156 | with the etag option defaulting to `test`, a request with `if-none-match: test` gets status 304, an empty body and no `next` call |

## Left out

- Command-line parsing by yargs is not modelled: argument values, aliases such as `-p`, camel-case expansion and type coercion. `Options.Resolve` is the empty command line, where each option takes its schema default. The usage text that `showHelp` prints is not modelled; the exit itself is `Bootstrap.Bootstrap` returning no config.
- The Express application is not modelled: `express()`, `app.disable`, the order of `app.use` registrations, `express.static`, and `app.listen` with its console message. They are framework and socket I/O; `Bootstrap.Config.Start` records only that a server was bound, and with which port value.
- The internals of `cors()`, `csp.extend` and `compression()` are left out, including the serialised `Content-Security-Policy` header, the CORS headers and the compression level and threshold. The model ends at the directive map and the filter predicate.
- The `setup` hook (index.js:160-163) is caller code with arbitrary effects on the config. It is not modelled.
- `config.express` and `config.app` (index.js:156-157) are framework handles. They are not modelled.
- The clock-derived default etag is the parameter `clockToken`.
- `Bootstrap.EtagToken`: a truthy non-string etag (a non-zero number, `true`, an array) is treated as absent. In the source it never equals a request header, but it is still sent as `ETag`. Falsy non-string values (`0`, `false`) send nothing in the source, as in the model.
- `Headers.HeaderMiddleware`: in the 304 branch the headers are left unchanged. Express's `send` also strips `Content-Type`, `Content-Length` and `Transfer-Encoding` on a 304, which is library behaviour not modelled here.
- `Bootstrap.Config.Launch`: an `initialise` hook that calls start more than once is not modelled. The hook either calls it once or never.
- `Options.Value`: numbers are integers only (`Num(n: int)`), so a fractional number is not represented. `NaN`, objects and arrays holding non-strings are not modelled either.
- `Headers.Response.SetHeader`: Node's `res.header` throws on an invalid header value, for example an etag containing a newline (index.js:135). The model stores every value.
- `Strings.Lower` lower-cases ASCII letters only. Header names are ASCII tokens.
