/**
 * middleware.go (and the identical Redirector in main.go): the gin
 * middlewares that run before every handler. Each is modelled as its
 * decision on one request: redirect and abort, or pass on; the headers it
 * sets; and, for the rate limiter, the limiter it consults and the cache
 * entry it leaves behind.
 */
module Middleware {
  import opened Wrappers
  import GoStrings
  import GoCache
  import Utils

  /** The deployment settings read from the environment at start-up. */
  datatype Config = Config(gcr: string, gcrDomain: string, customDomain: string)

  /** The parts of an incoming request the middlewares look at. */
  datatype Request = Request(host: string, path: string, rawQuery: string, requestURI: string)

  /** What a middleware does with the request. */
  datatype Action = Continue | RedirectAbort(status: int, location: string)

  /** http.StatusSeeOther */
  const SeeOther: int := 303

  /** "https://<domain><path>", with "?<query>" appended when there is a query. */
  function RedirectTarget(domain: string, path: string, rawQuery: string): (r: string)
    ensures GoStrings.HasPrefix(r, "https://" + domain + path)
    ensures rawQuery == "" ==> |r| == 8 + |domain| + |path|
    ensures rawQuery != "" ==>
      (|r| == 9 + |domain| + |path| + |rawQuery|
       && r[8 + |domain| + |path|] == '?' && r[9 + |domain| + |path|..] == rawQuery)
  {
    "https://" + domain + path + (if rawQuery != "" then "?" + rawQuery else "")
  }

  /**
   * Redirector: on Cloud Run (gcr == "YES"), a request addressed to the
   * Cloud Run domain is sent (303) to the same path and query on the custom
   * domain and aborted; every other request continues.
   */
  function Redirector(cfg: Config, req: Request): (a: Action)
    ensures a.RedirectAbort? <==> cfg.gcr == "YES" && req.host == cfg.gcrDomain
    ensures a.RedirectAbort? ==>
      a.status == SeeOther && a.location == RedirectTarget(cfg.customDomain, req.path, req.rawQuery)
  {
    if cfg.gcr == "YES" && req.host == cfg.gcrDomain then
      RedirectAbort(SeeOther, RedirectTarget(cfg.customDomain, req.path, req.rawQuery))
    else Continue
  }

  /** A redirect target taken apart again: host, path and query. */
  datatype Target = Target(host: string, path: string, rawQuery: string)

  /**
   * Reads an "https://host/path?query" location: the host runs to the first
   * '/', the path to the first '?' after it, and the rest is the query.
   */
  function ParseTarget(location: string): Option<Target> {
    if !GoStrings.HasPrefix(location, "https://") then None
    else
      var rest := location[8..];
      match GoStrings.Index(rest, "/")
      case None => None
      case Some(h) =>
        var pathAndQuery := rest[h..];
        match GoStrings.Index(pathAndQuery, "?")
        case None => Some(Target(rest[..h], pathAndQuery, ""))
        case Some(q) => Some(Target(rest[..h], pathAndQuery[..q], pathAndQuery[q + 1..]))
  }

  /**
   * The redirect loses nothing: from its location one reads back the custom
   * domain, the request path and its query (an empty query is simply not
   * written), given a domain without '/' or '?' and a path that starts with
   * '/' and holds no '?'. The path is the decoded URL path, which can hold a
   * '?' (a request for "/a%3Fb"); see RedirectDecodedQuestionMark.
   */
  lemma RedirectTargetParses(domain: string, path: string, rawQuery: string)
    requires '/' !in domain && '?' !in domain
    requires |path| > 0 && path[0] == '/' && '?' !in path
    ensures ParseTarget(RedirectTarget(domain, path, rawQuery)) == Some(Target(domain, path, rawQuery))
  {
    var suffix := if rawQuery != "" then "?" + rawQuery else "";
    var location := RedirectTarget(domain, path, rawQuery);
    assert location == "https://" + (domain + (path + suffix));
    var rest := location[8..];
    assert rest == domain + (path + suffix);
    GoStrings.IndexOfChar(domain, '/', path + suffix);
    assert rest[..|domain|] == domain;
    var pathAndQuery := rest[|domain|..];
    assert pathAndQuery == path + suffix;
    if rawQuery != "" {
      GoStrings.IndexOfChar(path, '?', suffix);
      assert pathAndQuery[..|path|] == path;
      assert pathAndQuery[|path| + 1..] == rawQuery;
    } else {
      assert pathAndQuery == path;
      GoStrings.NoIndexOfChar(path, '?');
    }
  }

  /**
   * The decoded path is written into the target without being escaped
   * again, so a '?' that was escaped in the request ("/a%3Fb") ends the
   * path in the target: path "/a?b" with no query is redirected to path
   * "/a" with query "b".
   */
  lemma RedirectDecodedQuestionMark()
    ensures ParseTarget(RedirectTarget("d", "/a?b", "")) == Some(Target("d", "/a", "b"))
  {
    var location := RedirectTarget("d", "/a?b", "");
    assert location == "https://" + ("d" + "/a?b");
    GoStrings.IndexOfChar("d", '/', "/a?b");
    GoStrings.IndexOfChar("/a", '?', "?b");
    assert location[8..][1..] == "/a" + "?b";
  }

  // ---------------------------------------------------------------------
  // Headers

  const ServiceWorkerAllowed: string := "Service-Worker-Allowed"
  const CacheControl: string := "Cache-Control"
  /** One day, for everything under /static/. */
  const StaticMaxAge: string := "max-age=86400"

  /**
   * Headers: every response may register a service worker for the whole
   * site, and responses under "/static/" may be cached for a day. Each
   * header set replaces the one already there; all others are kept.
   */
  function Headers(requestURI: string, header: map<string, string>): (h: map<string, string>)
    ensures ServiceWorkerAllowed in h && h[ServiceWorkerAllowed] == "/"
    ensures GoStrings.HasPrefix(requestURI, "/static/") ==> CacheControl in h && h[CacheControl] == StaticMaxAge
    ensures !GoStrings.HasPrefix(requestURI, "/static/") ==>
      (CacheControl in h <==> CacheControl in header)
      && (CacheControl in header ==> h[CacheControl] == header[CacheControl])
    ensures forall n :: n in header && n != ServiceWorkerAllowed && n != CacheControl ==> n in h && h[n] == header[n]
    ensures forall n :: n in h ==> n in header || n == ServiceWorkerAllowed || n == CacheControl
  {
    var h := header[ServiceWorkerAllowed := "/"];
    if GoStrings.HasPrefix(requestURI, "/static/") then h[CacheControl := StaticMaxAge] else h
  }

  /** Running the header middleware twice sets nothing new. */
  lemma HeadersIdempotent(requestURI: string, header: map<string, string>)
    ensures Headers(requestURI, Headers(requestURI, header)) == Headers(requestURI, header)
  {
  }

  // ---------------------------------------------------------------------
  // RateLimiter

  /** limiterSet's default lifetime for a limiter: 15 minutes. */
  const LimiterLifetime: int := 15 * 60 * Utils.Second

  /** `cache.New(15*time.Minute, 3*time.Minute)` for the limiters, empty at start-up. */
  method NewLimiterSet<L>() returns (limiterSet: GoCache.TtlCache<L>)
    ensures fresh(limiterSet)
    ensures limiterSet.items == map[] && limiterSet.defaultExpiration == LimiterLifetime
  {
    limiterSet := new GoCache.TtlCache<L>(LimiterLifetime);
  }

  /** The limiter a request with key `k` consults at `now`: the live cached one, else the new one. */
  function LimiterFor<L>(items: map<string, GoCache.Item<L>>, k: string, now: int, created: L): L {
    match GoCache.Lookup(items, k, now)
    case Some(l) => l
    case None => created
  }

  /** The limiters after that request: unchanged on a hit, the new limiter stored for `expire` on a miss. */
  function LimitersAfter<L>(items: map<string, GoCache.Item<L>>, k: string, now: int, created: L,
                            expire: int, default: int): map<string, GoCache.Item<L>>
  {
    if GoCache.Lookup(items, k, now).Some? then items
    else items[k := GoCache.Item(created, GoCache.ExpiryFor(expire, default, now))]
  }

  /**
   * RateLimiter, applied to one request whose key is `k`: looks up the
   * key's limiter, creating and caching one (`created`, for `expire`) when
   * none is live, and lets the request through exactly when that limiter
   * allows it; otherwise the request is aborted. Afterwards the key's live
   * limiter is the one consulted.
   */
  method RateLimiter<L>(limiterSet: GoCache.TtlCache<L>, k: string, now: int, created: L, expire: int,
                        allow: L -> bool) returns (next: bool)
    modifies limiterSet
    ensures next == allow(LimiterFor(old(limiterSet.items), k, now, created))
    ensures limiterSet.items == LimitersAfter(old(limiterSet.items), k, now, created, expire, limiterSet.defaultExpiration)
    ensures GoCache.Lookup(limiterSet.items, k, now) == Some(LimiterFor(old(limiterSet.items), k, now, created))
  {
    var limiter := limiterSet.Get(k, now);
    if limiter.None? {
      limiterSet.Set(k, created, expire, now);
      GoCache.StoredIsLive(old(limiterSet.items), k, created, expire, limiterSet.defaultExpiration, now);
      limiter := Some(created);
    }
    next := allow(limiter.value);
  }

  /**
   * A limiter created for a key with a positive lifetime is the one every
   * request with that key consults until the lifetime runs out: requests
   * in that window share one limiter instead of each getting a fresh one.
   */
  lemma LimiterShared<L>(items: map<string, GoCache.Item<L>>, k: string, now: int, created: L,
                         expire: int, default: int, later: int, other: L)
    requires GoCache.Lookup(items, k, now).None?
    requires expire > 0 && now <= later <= now + expire
    ensures LimiterFor(LimitersAfter(items, k, now, created, expire, default), k, later, other) == created
    ensures LimitersAfter(LimitersAfter(items, k, now, created, expire, default), k, later, other, expire, default)
            == LimitersAfter(items, k, now, created, expire, default)
  {
    GoCache.StoredThenLooked(items, k, created, expire, default, now, later);
  }
}
