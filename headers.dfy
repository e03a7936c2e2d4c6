/**
 * The per-request header middleware (index.js:122-143) and the compression
 * filter (index.js:150). Outgoing headers are kept the way Node keeps them:
 * keyed by the lower-cased header name.
 */
module Headers {
  import opened Wrappers
  import opened Strings

  /** The parts of an incoming request the middleware reads. Node lower-cases incoming header names. */
  datatype Request = Request(path: string, headers: map<string, string>)

  /** Every stored header name is already lower-case, as in Node's header store. */
  predicate LowerCased(headers: map<string, string>)
  {
    forall n :: n in headers ==> Lower(n) == n
  }

  const CacheControlValue: string := "public, max-age=1800"

  /** The security headers set on every request that is not short-circuited, by stored name. */
  const SecurityHeaders: map<string, string> := map[
    "x-xss-protection" := "1; mode=block",
    "x-content-type-options" := "nosniff",
    "x-frame-options" := "SAMEORIGIN"
  ]

  /** `config.etag && req.headers['if-none-match'] === config.etag`. */
  predicate NotModified(etag: string, req: Request)
  {
    etag != "" && "if-none-match" in req.headers && req.headers["if-none-match"] == etag
  }

  /** `config.etag && req.path && req.path.indexOf('/api') === -1`. */
  predicate Cacheable(etag: string, req: Request)
  {
    etag != "" && req.path != "" && IndexOf(req.path, "/api") == -1
  }

  /** The headers the middleware adds when it passes the request on. */
  function AddedHeaders(etag: string, req: Request): (h: map<string, string>)
    ensures forall n :: n in SecurityHeaders ==> n in h && h[n] == SecurityHeaders[n]
    ensures ("etag" in h) <==> Cacheable(etag, req)
    ensures ("cache-control" in h) <==> Cacheable(etag, req)
    ensures "etag" in h ==> h["etag"] == etag && h["cache-control"] == CacheControlValue
    ensures forall n :: n in h ==> n in SecurityHeaders || n == "etag" || n == "cache-control"
  {
    if Cacheable(etag, req)
    then map["etag" := etag, "cache-control" := CacheControlValue] + SecurityHeaders
    else SecurityHeaders
  }

  /** The ETag test is a substring test: `/api` anywhere in the path disables it. */
  lemma CacheableIff(etag: string, req: Request)
    ensures Cacheable(etag, req) <==>
      etag != "" && req.path != "" && forall i :: 0 <= i <= |req.path| ==> !OccursAt(req.path, "/api", i)
  {
  }

  /** A path not under `/api` that still contains it gets no ETag. */
  lemma ApiAnywhereDisablesETag(etag: string)
    requires etag != ""
    ensures !Cacheable(etag, Request("/static/api.js", map[]))
    ensures Cacheable(etag, Request("/index.js", map[]))
  {
    assert OccursAt("/static/api.js", "/api", 7);
    MissingCharRulesOut("/index.js", "/api", 2);
  }

  /** A response under construction. */
  class Response {
    var headers: map<string, string>
    var status: int
    var body: string
    var sendDate: bool
    var finished: bool
    var nextCalled: nat

    ghost predicate Valid()
      reads this
    {
      LowerCased(headers)
    }

    /** A response as it reaches this middleware, carrying what earlier middleware set. */
    constructor (headers: map<string, string>)
      requires LowerCased(headers)
      ensures Valid()
      ensures this.headers == headers && status == 200 && body == ""
      ensures sendDate && !finished && nextCalled == 0
    {
      this.headers := headers;
      status := 200;
      body := "";
      sendDate := true;
      finished := false;
      nextCalled := 0;
    }

    /** `res.header(name, value)`: stored under the lower-cased name. */
    method SetHeader(name: string, value: string)
      requires Valid()
      modifies this`headers
      ensures Valid()
      ensures headers == old(headers)[Lower(name) := value]
    {
      LowerIdempotent(name);
      headers := headers[Lower(name) := value];
    }

    /** `res.status(code)`. */
    method Status(code: int)
      modifies this`status
      ensures status == code
    {
      status := code;
    }

    /** `res.send()` with no argument: an empty body, and the response is finished. */
    method SendEmpty()
      modifies this`body, this`finished
      ensures body == "" && finished
    {
      body := "";
      finished := true;
    }

    /** `res.end()`. */
    method End()
      modifies this`finished
      ensures finished
    {
      finished := true;
    }
  }

  /** The names the middleware writes, and the names they are stored under. */
  lemma StoredNames()
    ensures Lower("ETag") == Lower("etag") == "etag"
    ensures Lower("Cache-Control") == Lower("cache-control") == "cache-control"
    ensures Lower("X-XSS-Protection") == Lower("x-xss-protection") == "x-xss-protection"
    ensures Lower("X-Content-Type-Options") == Lower("x-content-type-options") == "x-content-type-options"
    ensures Lower("X-Frame-Options") == Lower("x-frame-options") == "x-frame-options"
  {
    StoredName("ETag", "etag");
    StoredName("Cache-Control", "cache-control");
    StoredName("X-XSS-Protection", "x-xss-protection");
    StoredName("X-Content-Type-Options", "x-content-type-options");
    StoredName("X-Frame-Options", "x-frame-options");
  }

  /** A written name and its stored form lower-case to the stored form. */
  lemma StoredName(written: string, stored: string)
    requires |written| == |stored|
    requires forall i :: 0 <= i < |written| ==> LowerChar(written[i]) == stored[i] && LowerChar(stored[i]) == stored[i]
    ensures Lower(written) == Lower(stored) == stored
  {
  }

  /** Map union is associative (later entries win either way). */
  lemma MapUnionAssoc(a: map<string, string>, b: map<string, string>, c: map<string, string>)
    ensures (a + b) + c == a + (b + c)
  {
  }

  /** `res.header('ETag', etag).header('Cache-Control', ...)` (index.js:135-136). */
  method SetCacheHeaders(res: Response, etag: string)
    requires res.Valid()
    modifies res`headers
    ensures res.Valid()
    ensures res.headers == old(res.headers) + map["etag" := etag, "cache-control" := CacheControlValue]
  {
    StoredNames();
    res.SetHeader("ETag", etag);
    res.SetHeader("Cache-Control", CacheControlValue);
  }

  /** The three `res.header` calls of index.js:138-140. */
  method SetSecurityHeaders(res: Response)
    requires res.Valid()
    modifies res`headers
    ensures res.Valid()
    ensures res.headers == old(res.headers) + SecurityHeaders
  {
    StoredNames();
    res.SetHeader("X-XSS-Protection", "1; mode=block");
    res.SetHeader("X-Content-Type-Options", "nosniff");
    res.SetHeader("X-Frame-Options", "SAMEORIGIN");
  }

  /**
   * The middleware. With a matching `if-none-match` it answers 304 with an
   * empty body, adds no header and does not call `next`; otherwise it adds the
   * security headers (and the ETag pair when the path qualifies) and calls
   * `next` once. `sendDate` is cleared either way.
   */
  method HeaderMiddleware(etag: string, req: Request, res: Response)
    requires res.Valid()
    modifies res
    ensures res.Valid()
    ensures !res.sendDate
    ensures NotModified(etag, req) ==>
      && res.status == 304 && res.body == "" && res.finished
      && res.headers == old(res.headers)
      && res.nextCalled == old(res.nextCalled)
    ensures !NotModified(etag, req) ==>
      && res.headers == old(res.headers) + AddedHeaders(etag, req)
      && res.status == old(res.status) && res.body == old(res.body)
      && res.finished == old(res.finished)
      && res.nextCalled == old(res.nextCalled) + 1
  {
    res.sendDate := false;
    if etag != "" && "if-none-match" in req.headers && req.headers["if-none-match"] == etag {
      res.Status(304);
      res.SendEmpty();
      res.End();
    } else {
      ghost var before := res.headers;
      if etag != "" && req.path != "" && IndexOf(req.path, "/api") == -1 {
        SetCacheHeaders(res, etag);
        SetSecurityHeaders(res);
        MapUnionAssoc(before, map["etag" := etag, "cache-control" := CacheControlValue], SecurityHeaders);
      } else {
        SetSecurityHeaders(res);
      }
      res.nextCalled := res.nextCalled + 1;
    }
  }

  /**
   * The compression filter: compress only when no `content-encoding` header
   * has been set yet, whatever the case of the name it was set under.
   */
  function CompressionFilter(headers: map<string, string>): (compress: bool)
    requires LowerCased(headers)
    ensures compress <==> forall n :: n in headers ==> Lower(n) != "content-encoding"
  {
    "content-encoding" !in headers
  }

  /**
   * The header middleware never sets `content-encoding`, so it never changes
   * the compression filter's answer.
   */
  lemma MiddlewareKeepsCompressionChoice(etag: string, req: Request, before: map<string, string>)
    requires LowerCased(before)
    ensures LowerCased(before + AddedHeaders(etag, req))
    ensures CompressionFilter(before + AddedHeaders(etag, req)) == CompressionFilter(before)
  {
    var added := AddedHeaders(etag, req);
    StoredNames();
    assert LowerCased(added);
    assert "content-encoding" !in added;
  }
}
