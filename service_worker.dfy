/**
 * The service worker (sw.js).
 *
 * It routes every fetch to a caching strategy, keeps three named Cache
 * Storage buckets, purges stale buckets when it activates, drains the
 * offline-story queue on a background sync, and builds and answers push
 * notifications.
 *
 * The browser's Cache Storage is the class `CacheStorage`. The network is
 * `Network`: an oracle that answers each request and records the requests
 * it was sent. The database is the page's `Backend`, which the worker
 * opens with a schema of its own.
 */
module ServiceWorker {
  import opened JsValues
  import opened ObjectStore
  import opened DbHelper
  import BackgroundSync

  const CACHE_VERSION: string := "storyglow-v1"
  const STATIC_CACHE: string := CACHE_VERSION + "-static"
  const DYNAMIC_CACHE: string := CACHE_VERSION + "-dynamic"
  const API_CACHE: string := CACHE_VERSION + "-api"
  /** The prefix of every bucket name of the application. */
  const CACHE_PREFIX: string := "storyglow-"

  const API_ORIGIN: string := "https://story-api.dicoding.dev"
  const API_HOST: string := "story-api.dicoding.dev"
  const STORIES_ENDPOINT: string := API_ORIGIN + "/v1/stories"
  const SYNC_TAG: string := "sync-stories"

  // ----- the application's base URL -----

  /** `pathname.replace(/\/[^/]*$/, '/')`: drop what follows the last slash. */
  function Directory(pathname: string): string {
    match LastIndexOf(pathname, '/')
    case None => pathname
    case Some(i) => pathname[..i + 1]
  }

  /** `BASE_URL`: the worker's origin followed by the directory of its script path. */
  function BaseUrl(origin: string, pathname: string): (r: string)
    ensures StartsWith(r, origin)
    ensures '/' in pathname ==> EndsWith(r, "/") && StartsWith(pathname, r[|origin|..])
  {
    assert (origin + Directory(pathname))[..|origin|] == origin;
    origin + Directory(pathname)
  }

  /** The script `dir + file` of a directory `dir` has `origin + dir` as its base URL. */
  lemma BaseUrlOfScript(origin: string, dir: string, file: string)
    requires EndsWith(dir, "/") && '/' !in file
    ensures BaseUrl(origin, dir + file) == origin + dir
  {
    var p := dir + file;
    var n := |dir| - 1;
    assert p[n] == '/';
    assert p[n + 1..] == file;
    LastIndexOfAt(p, '/', n);
    assert p[..n + 1] == dir;
  }

  // ----- URLs -----

  /** The scheme of a serialized URL: what precedes its first colon. */
  function Scheme(url: string): string {
    match IndexOf(url, ':')
    case None => url
    case Some(i) => url[..i]
  }

  /** The characters that end a URL's authority. */
  const AUTHORITY_END: set<char> := {'/', '?', '#'}

  /** The longest prefix of `s` that has no character of `stops`. */
  function PrefixBefore(s: string, stops: set<char>): (r: string)
    ensures |r| <= |s| && r == s[..|r|]
    ensures forall i :: 0 <= i < |r| ==> r[i] !in stops
    ensures |r| < |s| ==> s[|r|] in stops
    decreases |s|
  {
    if |s| == 0 || s[0] in stops then ""
    else [s[0]] + PrefixBefore(s[1..], stops)
  }

  /** The authority (`user@host:port`) of a URL whose scheme is followed by `//`; empty otherwise. */
  function Authority(url: string): string {
    match IndexOf(url, ':')
    case None => ""
    case Some(i) =>
      var rest := url[i + 1..];
      if StartsWith(rest, "//") then PrefixBefore(rest[2..], AUTHORITY_END) else ""
  }

  /** `url.host`: the authority without its user information. */
  function HostPort(url: string): string {
    var a := Authority(url);
    match LastIndexOf(a, '@')
    case None => a
    case Some(i) => a[i + 1..]
  }

  /** `url.hostname`: the host without its port. */
  function Hostname(url: string): string {
    var hp := HostPort(url);
    match IndexOf(hp, ':')
    case None => hp
    case Some(i) => hp[..i]
  }

  /** `url.origin`: scheme, host and port of an http(s) URL; the opaque origin of any other. */
  function Origin(url: string): string {
    var scheme := Scheme(url);
    if scheme == "http" || scheme == "https" then scheme + "://" + HostPort(url) else "null"
  }

  lemma PrefixBeforeAt(s: string, stops: set<char>, n: nat)
    requires n <= |s| && (forall i :: 0 <= i < n ==> s[i] !in stops)
    requires n < |s| ==> s[n] in stops
    ensures PrefixBefore(s, stops) == s[..n]
  {
  }

  /** The `:port` part of a URL; empty for the default port. */
  function PortPart(port: string): string {
    if port == "" then "" else ":" + port
  }

  /** A host and port: no character of the host ends it, and no character of the port ends the authority. */
  ghost predicate HostChars(host: string) {
    forall i :: 0 <= i < |host| ==> host[i] !in {':', '/', '?', '#', '@'}
  }

  ghost predicate PortChars(port: string) {
    forall i :: 0 <= i < |port| ==> port[i] !in {'/', '?', '#', '@'}
  }

  /** The authority `host[:port]` has neither `@` nor a character that ends an authority. */
  lemma HostPortChars(host: string, port: string)
    requires HostChars(host) && PortChars(port)
    ensures var hp := host + PortPart(port);
      '@' !in hp && forall i :: 0 <= i < |hp| ==> hp[i] !in AUTHORITY_END
  {
    var hp := host + PortPart(port);
    forall i | 0 <= i < |hp|
      ensures hp[i] !in AUTHORITY_END && hp[i] != '@'
    {
      if i >= |host| {
        assert hp[i] == PortPart(port)[i - |host|];
        if i > |host| {
          assert hp[i] == port[i - |host| - 1];
        }
      }
    }
  }

  /** In `scheme:tail` the first colon ends the scheme. */
  lemma ColonAfterScheme(scheme: string, tail: string)
    requires ':' !in scheme
    ensures IndexOf(scheme + ":" + tail, ':') == Some(|scheme|)
    ensures (scheme + ":" + tail)[..|scheme|] == scheme && (scheme + ":" + tail)[|scheme| + 1..] == tail
  {
    var url := scheme + ":" + tail;
    assert url[..|scheme|] == scheme;
    IndexOfAt(url, ':', |scheme|);
  }

  /** After `//`, the authority `hp` runs until the rest begins. */
  lemma AuthorityAfterSlashes(hp: string, rest: string)
    requires forall i :: 0 <= i < |hp| ==> hp[i] !in AUTHORITY_END
    requires rest == "" || rest[0] in AUTHORITY_END
    ensures StartsWith("//" + hp + rest, "//")
    ensures PrefixBefore(("//" + hp + rest)[2..], AUTHORITY_END) == hp
  {
    var tail := ("//" + hp + rest)[2..];
    assert tail == hp + rest;
    PrefixBeforeAt(tail, AUTHORITY_END, |hp|);
    assert tail[..|hp|] == hp;
  }

  /** `scheme://authority` followed by a path, query or fragment has that scheme and authority. */
  lemma SchemeAndAuthority(scheme: string, hp: string, rest: string)
    requires ':' !in scheme
    requires forall i :: 0 <= i < |hp| ==> hp[i] !in AUTHORITY_END
    requires rest == "" || rest[0] in AUTHORITY_END
    ensures Scheme(scheme + "://" + hp + rest) == scheme
    ensures Authority(scheme + "://" + hp + rest) == hp
  {
    var tail := "//" + hp + rest;
    assert scheme + "://" + hp + rest == scheme + ":" + tail;
    ColonAfterScheme(scheme, tail);
    AuthorityAfterSlashes(hp, rest);
  }

  /** The hostname of `host[:port]` is the host. */
  lemma HostnameOfHostPort(host: string, port: string)
    requires HostChars(host)
    ensures var hp := host + PortPart(port);
      match IndexOf(hp, ':') case None => hp == host case Some(i) => hp[..i] == host
  {
    var hp := host + PortPart(port);
    if port != "" {
      assert hp[..|host|] == host;
      IndexOfAt(hp, ':', |host|);
    } else {
      assert hp == host;
    }
  }

  /** The serialized URL `scheme://host[:port]` followed by `rest`. */
  function Url(scheme: string, host: string, port: string, rest: string): string {
    scheme + "://" + (host + PortPart(port)) + rest
  }

  /**
   * A URL written as scheme, `://`, host, optional port and the rest parses
   * back into that scheme, host and port.
   */
  lemma UrlParts(scheme: string, host: string, port: string, rest: string)
    requires ':' !in scheme && HostChars(host) && PortChars(port)
    requires rest == "" || rest[0] in AUTHORITY_END
    ensures Scheme(Url(scheme, host, port, rest)) == scheme
    ensures HostPort(Url(scheme, host, port, rest)) == host + PortPart(port)
    ensures Hostname(Url(scheme, host, port, rest)) == host
    ensures (scheme == "http" || scheme == "https") ==>
      Origin(Url(scheme, host, port, rest)) == scheme + "://" + (host + PortPart(port))
  {
    HostPortChars(host, port);
    SchemeAndAuthority(scheme, host + PortPart(port), rest);
    HostnameOfHostPort(host, port);
  }

  // ----- routing -----

  datatype Strategy = NotHandled | NetworkFirst | CacheFirst

  /** The `fetch` handler's choice for a request URL. */
  function Route(url: string): Strategy {
    if !StartsWith(url, "http") then NotHandled
    else if Origin(url) == API_ORIGIN then NetworkFirst
    else CacheFirst
  }

  /** The origin of an http(s) URL is its scheme, host and port. */
  lemma UrlOrigin(scheme: string, host: string, port: string, rest: string)
    requires (scheme == "http" || scheme == "https") && HostChars(host) && PortChars(port)
    requires rest == "" || rest[0] in AUTHORITY_END
    ensures Origin(Url(scheme, host, port, rest)) == scheme + "://" + (host + PortPart(port))
  {
    UrlParts(scheme, host, port, rest);
  }

  /** An http(s) URL starts with `http`. */
  lemma UrlStartsWithHttp(scheme: string, host: string, port: string, rest: string)
    requires scheme == "http" || scheme == "https"
    ensures StartsWith(Url(scheme, host, port, rest), "http")
  {
    assert Url(scheme, host, port, rest)[..4] == scheme[..4] == "http";
  }

  /** Every request to the API's https origin goes network-first, images included. */
  lemma ApiRequestsGoNetworkFirst(rest: string)
    requires rest == "" || rest[0] in AUTHORITY_END
    ensures Route(API_ORIGIN + rest) == NetworkFirst
  {
    assert HostChars(API_HOST);
    UrlOrigin("https", API_HOST, "", rest);
    UrlStartsWithHttp("https", API_HOST, "", rest);
    ApiOriginParts();
  }

  lemma ApiOriginParts()
    ensures "https" + "://" + (API_HOST + PortPart("")) == API_ORIGIN
  {
  }

  /**
   * The port of a serialized URL: empty for the scheme's default port,
   * which serialization drops, and otherwise digits.
   */
  predicate SerializedPort(scheme: string, port: string) {
    && (forall i :: 0 <= i < |port| ==> '0' <= port[i] <= '9')
    && port != (if scheme == "https" then "443" else "80")
  }

  /**
   * An http(s) URL of any other origin goes cache-first: another host, the
   * API host over plain http, or the API host with an explicit port.
   */
  lemma OtherOriginsGoCacheFirst(scheme: string, host: string, port: string, rest: string)
    requires scheme == "http" || scheme == "https"
    requires HostChars(host) && SerializedPort(scheme, port)
    requires rest == "" || rest[0] in AUTHORITY_END
    requires scheme == "http" || host != API_HOST || port != ""
    ensures Route(Url(scheme, host, port, rest)) == CacheFirst
  {
    assert PortChars(port);
    UrlOrigin(scheme, host, port, rest);
    UrlStartsWithHttp(scheme, host, port, rest);
    OtherOrigin(scheme, host, port);
  }

  lemma OtherOrigin(scheme: string, host: string, port: string)
    requires scheme == "http" || scheme == "https"
    requires HostChars(host)
    requires scheme == "http" || host != API_HOST || port != ""
    ensures scheme + "://" + (host + PortPart(port)) != API_ORIGIN
  {
    var hp := host + PortPart(port);
    var o := scheme + "://" + hp;
    assert API_ORIGIN[4] == 's';
    if scheme == "http" {
      assert o[4] == ':';
    } else {
      assert API_ORIGIN[8..] == API_HOST;
      assert o[8..] == hp;
      if port != "" {
        assert hp[|host|] == ':';
        assert ':' !in API_HOST;
      }
    }
  }

  /** `request.url.includes` one of the four image extensions. */
  predicate IsImageUrl(url: string) {
    Contains(url, ".jpg") || Contains(url, ".jpeg") || Contains(url, ".png") || Contains(url, ".webp")
  }

  /** Whether cache-first stores a fetched 200 response: from the API host only images, from any other host everything. */
  predicate CachedByCacheFirst(url: string) {
    if Hostname(url) == API_HOST then IsImageUrl(url) else true
  }

  /**
   * Cache-first keeps API-host responses apart from images only for URLs
   * that reach it, which are the API host over plain http or with a port.
   */
  lemma ApiHostOverOtherOrigin(scheme: string, port: string, rest: string)
    requires scheme == "http" || scheme == "https"
    requires SerializedPort(scheme, port)
    requires rest == "" || rest[0] in AUTHORITY_END
    requires scheme == "http" || port != ""
    ensures var url := Url(scheme, API_HOST, port, rest);
      Route(url) == CacheFirst && (CachedByCacheFirst(url) <==> IsImageUrl(url))
  {
    assert HostChars(API_HOST) && PortChars(port);
    OtherOriginsGoCacheFirst(scheme, API_HOST, port, rest);
    UrlParts(scheme, API_HOST, port, rest);
  }

  // ----- requests, responses and Cache Storage -----

  /** A request: URL, method (`verb`), destination, and for uploads the `Authorization` header and the body. */
  datatype Request = Request(url: string, verb: string, destination: string, authorization: Option<string>, body: Value)

  /** The request `caches.match(url)` looks up for a bare URL. */
  function GetRequest(url: string): Request {
    Request(url, "GET", "", None, Undefined)
  }

  datatype Response = Response(status: int, contentType: string, body: string) {
    /** `response.ok` */
    predicate IsOk() {
      200 <= status <= 299
    }
  }

  /** What the network does with a request: it answers, or the fetch rejects. */
  datatype FetchOutcome = Fetched(response: Response) | NetworkError

  /** How a strategy's promise settles: with a response, with `undefined`, or rejected. */
  datatype Settled = Resolved(response: Response) | ResolvedEmpty | Rejected

  /** One bucket: request URL to stored response. */
  type Bucket = map<string, Response>

  /** The first bucket, in creation order, that holds the URL. */
  function FirstMatch(names: seq<string>, buckets: map<string, Bucket>, url: string): Option<Response>
    decreases |names|
  {
    if |names| == 0 then None
    else if names[0] in buckets && url in buckets[names[0]] then Some(buckets[names[0]][url])
    else FirstMatch(names[1..], buckets, url)
  }

  /** Any bucket holding the URL makes a lookup succeed. */
  lemma {:induction false} FirstMatchFinds(names: seq<string>, buckets: map<string, Bucket>, url: string, i: nat)
    requires i < |names| && names[i] in buckets && url in buckets[names[i]]
    ensures FirstMatch(names, buckets, url).Some?
    decreases i
  {
    if i > 0 && !(names[0] in buckets && url in buckets[names[0]]) {
      FirstMatchFinds(names[1..], buckets, url, i - 1);
    }
  }

  /** `caches.open(name)` on the bucket names: a missing bucket is created last. */
  function OpenNames(names: seq<string>, buckets: map<string, Bucket>, name: string): seq<string> {
    if name in buckets then names else names + [name]
  }

  /** `caches.open(name)` on the buckets: a missing bucket starts empty. */
  function OpenBuckets(buckets: map<string, Bucket>, name: string): (r: map<string, Bucket>)
    ensures name in r
  {
    if name in buckets then buckets else buckets[name := map[]]
  }

  /** `cache.put(request, response)`: only a GET request is stored; any other is refused. */
  function PutBuckets(buckets: map<string, Bucket>, name: string, req: Request, resp: Response): map<string, Bucket>
    requires name in buckets
  {
    if req.verb == "GET" then buckets[name := buckets[name][req.url := resp]] else buckets
  }

  /** The names without those in `dead`, in their order. */
  function Drop(names: seq<string>, dead: set<string>): (r: seq<string>)
    ensures forall n :: n in r <==> n in names && n !in dead
    decreases |names|
  {
    if |names| == 0 then []
    else (if names[0] in dead then [] else [names[0]]) + Drop(names[1..], dead)
  }

  ghost predicate Distinct(names: seq<string>) {
    forall i, j :: 0 <= i < j < |names| ==> names[i] != names[j]
  }

  lemma {:induction false} DropKeepsDistinct(names: seq<string>, dead: set<string>)
    requires Distinct(names)
    ensures Distinct(Drop(names, dead))
    decreases |names|
  {
    if |names| != 0 {
      DropKeepsDistinct(names[1..], dead);
      var rest := Drop(names[1..], dead);
      assert names[0] !in names[1..];
      assert names[0] !in rest;
    }
  }

  lemma {:induction false} DropTwice(names: seq<string>, a: set<string>, b: set<string>)
    ensures Drop(Drop(names, a), b) == Drop(names, a + b)
    decreases |names|
  {
    if |names| != 0 {
      DropTwice(names[1..], a, b);
      var head := if names[0] in a then [] else [names[0]];
      assert Drop(head + Drop(names[1..], a), b) == Drop(head, b) + Drop(Drop(names[1..], a), b) by {
        DropConcat(head, Drop(names[1..], a), b);
      }
      if names[0] !in a {
        assert Drop(head, b) == (if names[0] in b then [] else [names[0]]) + Drop([], b) by {
          assert head[1..] == [];
        }
      }
    }
  }

  lemma {:induction false} DropNothing(names: seq<string>)
    ensures Drop(names, {}) == names
    decreases |names|
  {
    if |names| != 0 {
      DropNothing(names[1..]);
    }
  }

  lemma {:induction false} DropConcat(s: seq<string>, t: seq<string>, dead: set<string>)
    ensures Drop(s + t, dead) == Drop(s, dead) + Drop(t, dead)
    decreases |s|
  {
    if |s| != 0 {
      assert (s + t)[1..] == s[1..] + t;
      DropConcat(s[1..], t, dead);
    } else {
      assert s + t == t;
    }
  }

  /** The browser's Cache Storage: named buckets in creation order. */
  class CacheStorage {
    /** `caches.keys()`: the bucket names, in creation order. */
    var names: seq<string>
    var buckets: map<string, Bucket>

    ghost predicate Valid()
      reads this
    {
      Distinct(names) && (forall n :: n in buckets <==> n in names)
    }

    constructor ()
      ensures Valid() && names == [] && buckets == map[]
    {
      names, buckets := [], map[];
    }

    /** `caches.match(request)`: only a GET request matches, in the first bucket that holds its URL. */
    function Match(req: Request): Option<Response>
      reads this
    {
      if req.verb != "GET" then None else FirstMatch(names, buckets, req.url)
    }

    /** `caches.open(name)` */
    method Open(name: string)
      requires Valid()
      modifies this
      ensures Valid()
      ensures names == OpenNames(old(names), old(buckets), name)
      ensures buckets == OpenBuckets(old(buckets), name)
    {
      if name !in buckets {
        names := names + [name];
        buckets := buckets[name := map[]];
      }
    }

    /** `cache.put(request, response)` on an open bucket. */
    method Put(name: string, req: Request, resp: Response)
      requires Valid() && name in buckets
      modifies this`buckets
      ensures Valid()
      ensures buckets == PutBuckets(old(buckets), name, req, resp)
    {
      if req.verb == "GET" {
        buckets := buckets[name := buckets[name][req.url := resp]];
      }
    }

    /** `caches.delete(name)`: whether the bucket existed; it no longer does. */
    method Delete(name: string) returns (found: bool)
      requires Valid()
      modifies this
      ensures Valid()
      ensures found == (name in old(buckets))
      ensures names == Drop(old(names), {name})
      ensures buckets == old(buckets) - {name}
    {
      found := name in buckets;
      DropKeepsDistinct(names, {name});
      names := Drop(names, {name});
      buckets := buckets - {name};
    }
  }

  /** A 200 GET response cache-first stored is found by the next lookup, which then needs no fetch. */
  lemma StoredResponseIsFound(names: seq<string>, buckets: map<string, Bucket>, name: string, req: Request, resp: Response)
    requires forall n :: n in buckets <==> n in names
    requires req.verb == "GET"
    ensures FirstMatch(OpenNames(names, buckets, name),
                       PutBuckets(OpenBuckets(buckets, name), name, req, resp), req.url).Some?
  {
    var ns := OpenNames(names, buckets, name);
    var i :| 0 <= i < |ns| && ns[i] == name;
    FirstMatchFinds(ns, PutBuckets(OpenBuckets(buckets, name), name, req, resp), req.url, i);
  }

  // ----- the two strategies -----

  /** The placeholder cache-first answers an image request with when the network fails. */
  const OFFLINE_IMAGE: Response := Response(200, "image/svg+xml",
    "<svg xmlns=\"http://www.w3.org/2000/svg\" width=\"400\" height=\"300\"><rect width=\"400\" height=\"300\" fill=\"#f0f0f0\"/><text x=\"50%\" y=\"50%\" text-anchor=\"middle\" fill=\"#999\" font-size=\"20\">Image Offline</text></svg>")

  /** Cache-first after a failed fetch: the placeholder for images, the offline page for documents, else the error. */
  function OfflineFallback(req: Request, offlinePage: Option<Response>): Settled {
    if req.destination == "image" then Resolved(OFFLINE_IMAGE)
    else if req.destination == "document" then
      match offlinePage
      case Some(page) => Resolved(page)
      case None => ResolvedEmpty
    else Rejected
  }

  /** What cache-first settles with: the cached copy, else the network's response, else the fallback. */
  function CacheFirstAnswer(req: Request, cached: Option<Response>, outcome: FetchOutcome, offlinePage: Option<Response>): Settled {
    match cached
    case Some(c) => Resolved(c)
    case None =>
      match outcome
      case Fetched(resp) => Resolved(resp)
      case NetworkError => OfflineFallback(req, offlinePage)
  }

  /** What network-first settles with: the network's response, whatever its status, else the cached copy, else the error. */
  function NetworkFirstAnswer(outcome: FetchOutcome, cached: Option<Response>): Settled {
    match outcome
    case Fetched(resp) => Resolved(resp)
    case NetworkError =>
      match cached
      case Some(c) => Resolved(c)
      case None => Rejected
  }

  /**
   * A failed fetch settles cache-first with a response whose type is
   * `image/svg+xml` for an image, with the cached offline page or
   * `undefined` for a document, and rejects for anything else.
   */
  lemma CacheFirstOffline(req: Request, offlinePage: Option<Response>)
    ensures var r := CacheFirstAnswer(req, None, NetworkError, offlinePage);
      && (req.destination == "image" ==> r.Resolved? && r.response.contentType == "image/svg+xml")
      && (req.destination == "document" ==> (r.Resolved? <==> offlinePage.Some?) && (r.ResolvedEmpty? <==> offlinePage.None?))
      && (req.destination != "image" && req.destination != "document" ==> r == Rejected)
  {
  }

  // ----- the worker -----

  /** A window client: its id and URL. */
  datatype Client = Client(id: nat, url: string)

  datatype Message = SyncComplete(count: nat)

  datatype Post = Post(client: Client, message: Message)

  /** `clients.forEach(c => c.postMessage(m))` */
  function Broadcast(clients: seq<Client>, m: Message): (r: seq<Post>)
    ensures |r| == |clients|
    ensures forall i :: 0 <= i < |clients| ==> r[i] == Post(clients[i], m)
  {
    seq(|clients|, i requires 0 <= i < |clients| => Post(clients[i], m))
  }

  /** The network: an oracle that answers each request, and the requests it was sent. */
  class Network {
    const respond: Request -> FetchOutcome
    var log: seq<Request>

    constructor (respond: Request -> FetchOutcome)
      ensures this.respond == respond && log == []
    {
      this.respond := respond;
      log := [];
    }

    /** `fetch(request)` */
    method Fetch(req: Request) returns (r: FetchOutcome)
      modifies this`log
      ensures log == old(log) + [req]
      ensures r == respond(req)
    {
      log := log + [req];
      r := respond(req);
    }
  }

  /** The bucket names activation deletes: the application's buckets that are not current. */
  predicate Stale(name: string) {
    StartsWith(name, CACHE_PREFIX) && name != STATIC_CACHE && name != DYNAMIC_CACHE && name != API_CACHE
  }

  /** `keys.filter(...)` with the activation filter. */
  function StaleNames(names: seq<string>): (r: seq<string>)
    ensures forall n :: n in r <==> n in names && Stale(n)
    decreases |names|
  {
    if |names| == 0 then []
    else (if Stale(names[0]) then [names[0]] else []) + StaleNames(names[1..])
  }

  /** The names a sequence holds. */
  function Members(s: seq<string>): set<string> {
    set n | n in s
  }

  /** Deleting one more stale bucket extends the deleted names by that one. */
  lemma PurgeStep(names0: seq<string>, buckets0: map<string, Bucket>, stale: seq<string>, i: nat,
                  names: seq<string>, buckets: map<string, Bucket>, names': seq<string>, buckets': map<string, Bucket>)
    requires i < |stale|
    requires names == Drop(names0, Members(stale[..i])) && buckets == buckets0 - Members(stale[..i])
    requires names' == Drop(names, {stale[i]}) && buckets' == buckets - {stale[i]}
    ensures names' == Drop(names0, Members(stale[..i + 1])) && buckets' == buckets0 - Members(stale[..i + 1])
  {
    DropTwice(names0, Members(stale[..i]), {stale[i]});
    assert stale[..i + 1] == stale[..i] + [stale[i]];
    assert Members(stale[..i + 1]) == Members(stale[..i]) + {stale[i]};
  }

  /**
   * Activation keeps exactly the buckets that are current or not the
   * application's, and keeps their order.
   */
  lemma PurgeKeeps(names: seq<string>, n: string)
    ensures n in Drop(names, set k | k in names && Stale(k))
        <==> n in names && (!StartsWith(n, CACHE_PREFIX) || n == STATIC_CACHE || n == DYNAMIC_CACHE || n == API_CACHE)
  {
  }

  /** The schema the worker's `onupgradeneeded` leaves: `pending-stories` keyed by `id`, with no key generator. */
  const SwPendingDef: StoreDef := StoreDef("id", false, map[])

  function SwUpgrade(s: Schema): Schema {
    if PENDING_STORIES in s then s else s[PENDING_STORIES := SwPendingDef]
  }

  /** What the worker's `openDB` fails with, if it fails. */
  function SwOpenError(available: bool, version: nat): Option<DbError> {
    if !available then Some(StorageUnavailable)
    else if version > DB_VERSION then Some(VersionError)
    else None
  }

  /**
   * A database the worker creates has no key generator and neither of the
   * page's two other stores; since it is then at the page's version, the
   * page's upgrade never runs and the page's `addPendingStory`, whose
   * records carry no `id`, fails with DataError.
   */
  lemma SwCreatedDatabase(storyData: Record, now: int, store: seq<Entry<Record>>, keyGen: int)
    requires "id" !in storyData && QueueOk(store, keyGen)
    ensures var s := SwUpgrade(map[]);
      && s.Keys == {PENDING_STORIES}
      && !s[PENDING_STORIES].autoIncrement
      && AddWithKeyPath(store, keyGen, s[PENDING_STORIES].autoIncrement, PendingRecord(storyData, now)) == Err(DataError)
  {
    assert Field(PendingRecord(storyData, now), "id") == Undefined;
  }

  /** The upload `syncOfflineStories` sends for a queued story: `Bearer ${story.token}` with `story.formData`. */
  function UploadRequest(story: Record): Request {
    Request(STORIES_ENDPOINT, "POST", "", Some("Bearer " + ToJsString(Field(story, "token"))), Field(story, "formData"))
  }

  /**
   * A story the page queued offline (sync-helper.js `saveOfflineStory`)
   * carries no `formData` field, so the worker's upload of it has an
   * undefined body; a story saved without a token is sent as `Bearer null`.
   */
  lemma PageQueuedStoryUpload(description: string, file: BackgroundSync.PhotoFile, location: Option<Record>,
                              savedToken: Option<string>, createdAt: string, now: int, keyGen: int)
    ensures var story := WithId(PendingRecord(BackgroundSync.OfflineStory(description, file, location, savedToken, createdAt), now), keyGen);
      && UploadRequest(story).body == Undefined
      && UploadRequest(story).authorization == Some("Bearer " + (if savedToken.Some? then savedToken.value else "null"))
  {
    var data := BackgroundSync.OfflineStory(description, file, location, savedToken, createdAt);
    assert "formData" !in data;
    assert "token" in data && data["token"] == StoredValue(savedToken);
  }

  function UploadRequests(stories: seq<Record>): (r: seq<Request>)
    ensures |r| == |stories|
    decreases |stories|
  {
    if |stories| == 0 then []
    else UploadRequests(stories[..|stories| - 1]) + [UploadRequest(stories[|stories| - 1])]
  }

  lemma UploadRequestsStep(stories: seq<Record>, i: nat)
    requires i < |stories|
    ensures UploadRequests(stories[..i + 1]) == UploadRequests(stories[..i]) + [UploadRequest(stories[i])]
  {
    assert stories[..i + 1][..i] == stories[..i];
  }

  /** The stories whose upload the API answered with `response.ok`. */
  function Delivered(respond: Request -> FetchOutcome): Record -> bool {
    (story: Record) => respond(UploadRequest(story)).Fetched? && respond(UploadRequest(story)).response.IsOk()
  }

  lemma DeliveredIs(respond: Request -> FetchOutcome, story: Record)
    ensures Delivered(respond)(story) == (respond(UploadRequest(story)).Fetched? && respond(UploadRequest(story)).response.IsOk())
  {
  }

  // ----- notifications -----

  const DEFAULT_TITLE: string := "\U{2728} StoryGlow"
  const DEFAULT_BODY: string := "Ada story baru! Klik untuk melihat."
  const UPDATE_BODY: string := "Ada update baru!"
  const DEFAULT_TAG: string := "storyglow-notification"

  /**
   * The push message as `event.data.json()` yields it: absent, not JSON,
   * `null` (reading a field of it throws), or a JSON value, whose fields
   * are `fields` (none for a JSON primitive or array).
   */
  datatype PushPayload = NoPayload | NotJson | JsonNull | JsonValue(fields: Record)

  datatype NoticeData = NoticeData(url: Value, storyId: Value)

  datatype Action = Action(action: string, title: string)

  datatype Notice = Notice(title: Value, body: Value, icon: Value, badge: string, tag: Value,
                           data: Option<NoticeData>, actions: seq<Action>, requireInteraction: bool, vibrate: seq<nat>)

  /** The `push` handler's notification: the defaults, or the payload's fields over per-field defaults. */
  function PushNotice(baseUrl: string, payload: PushPayload): (r: Notice)
    ensures Truthy(r.title) && Truthy(r.body) && Truthy(r.tag)
    ensures r.badge == baseUrl + "favicon.png"
    ensures r.data.Some? <==> payload.JsonValue?
    ensures r.data.Some? && baseUrl != "" ==> Truthy(r.data.value.url)
    ensures !payload.JsonValue? ==> r.title == Str(DEFAULT_TITLE) && r.body == Str(DEFAULT_BODY) && r.actions == []
    ensures !payload.JsonValue? ==> r.icon == Str(baseUrl + "favicon.png") && r.tag == Str(DEFAULT_TAG)
    ensures payload.JsonValue? ==>
      var f := payload.fields;
      && r.title == (if Truthy(Field(f, "title")) then Field(f, "title") else Str(DEFAULT_TITLE))
      && r.body == (if Truthy(Field(f, "body")) then Field(f, "body") else Str(UPDATE_BODY))
      && r.icon == (if Truthy(Field(f, "icon")) then Field(f, "icon") else Str(baseUrl + "favicon.png"))
      && r.tag == (if Truthy(Field(f, "tag")) then Field(f, "tag") else Str(DEFAULT_TAG))
      && r.data.value.url == (if Truthy(Field(f, "url")) then Field(f, "url") else Str(baseUrl))
      && r.data.value.storyId == (if Truthy(Field(f, "storyId")) then Field(f, "storyId") else Null)
      && |r.actions| == 2 && r.actions[0].action == "open" && r.actions[1].action == "close"
      && !r.requireInteraction && r.vibrate == [200, 100, 200]
  {
    var favicon := baseUrl + "favicon.png";
    match payload
    case JsonValue(data) =>
      Notice(Or(Field(data, "title"), Str(DEFAULT_TITLE)),
             Or(Field(data, "body"), Str(UPDATE_BODY)),
             Or(Field(data, "icon"), Str(favicon)),
             favicon,
             Or(Field(data, "tag"), Str(DEFAULT_TAG)),
             Some(NoticeData(Or(Field(data, "url"), Str(baseUrl)), Or(Field(data, "storyId"), Null))),
             [Action("open", "\U{1F440} Lihat"), Action("close", "\U{274C} Tutup")],
             false, [200, 100, 200])
    case _ =>
      Notice(Str(DEFAULT_TITLE), Str(DEFAULT_BODY), Str(favicon), favicon, Str(DEFAULT_TAG), None, [], false, [])
  }

  /** The URL a click opens: the story's detail page, else the notification's URL, else the application. */
  function ClickTarget(baseUrl: string, data: Option<NoticeData>): Value {
    var storyId := if data.Some? then data.value.storyId else Undefined;
    var url := if data.Some? then data.value.url else Undefined;
    if Truthy(storyId) then Str(baseUrl + "#/detail/" + ToJsString(storyId))
    else if Truthy(url) then url
    else Str(baseUrl)
  }

  /**
   * A click on a pushed notification opens the story it names, else the
   * URL it carries, else the application; one without a payload opens the application.
   */
  lemma PushThenClick(baseUrl: string, payload: PushPayload)
    requires baseUrl != ""
    ensures var target := ClickTarget(baseUrl, PushNotice(baseUrl, payload).data);
      && (!payload.JsonValue? ==> target == Str(baseUrl))
      && (payload.JsonValue? && Truthy(Field(payload.fields, "storyId")) ==>
            target == Str(baseUrl + "#/detail/" + ToJsString(Field(payload.fields, "storyId"))))
      && (payload.JsonValue? && !Truthy(Field(payload.fields, "storyId")) ==>
            target == Or(Field(payload.fields, "url"), Str(baseUrl)))
  {
  }

  /** What a notification click did. */
  datatype ClickOutcome =
    | Dismissed                              // the `close` action
    | Focused(index: nat, target: Value)     // focused that window and asked it to navigate
    | OpenedWindow(target: Value)
    | NoWindow                               // no matching window and no `openWindow`

  class Worker {
    const baseUrl: string
    const caches: CacheStorage
    const network: Network
    const db: Backend
    /** Messages posted to clients, in order. */
    var posted: seq<Post>

    constructor (origin: string, pathname: string, caches: CacheStorage, network: Network, db: Backend)
      ensures baseUrl == BaseUrl(origin, pathname)
      ensures this.caches == caches && this.network == network && this.db == db && posted == []
    {
      baseUrl := BaseUrl(origin, pathname);
      this.caches := caches;
      this.network := network;
      this.db := db;
      posted := [];
    }

    /** The cached offline page, as cache-first looks it up. */
    function OfflinePage(): Option<Response>
      reads this, caches
    {
      caches.Match(GetRequest(baseUrl + "offline.html"))
    }

    /**
     * What cache-first did: a hit answered from cache with no fetch; a miss
     * fetched once, and a 200 response opened the dynamic bucket and was
     * stored there when its URL qualifies; nothing else was written.
     */
    twostate predicate CacheFirstDone(req: Request, r: Settled)
      reads this, caches, network
    {
      && r == CacheFirstAnswer(req, old(caches.Match(req)), network.respond(req), old(OfflinePage()))
      && network.log == old(network.log) + (if old(caches.Match(req)).Some? then [] else [req])
      && if old(caches.Match(req)).None? && network.respond(req).Fetched? && network.respond(req).response.status == 200 then
           && caches.names == OpenNames(old(caches.names), old(caches.buckets), DYNAMIC_CACHE)
           && caches.buckets ==
                if CachedByCacheFirst(req.url)
                then PutBuckets(OpenBuckets(old(caches.buckets), DYNAMIC_CACHE), DYNAMIC_CACHE, req, network.respond(req).response)
                else OpenBuckets(old(caches.buckets), DYNAMIC_CACHE)
         else caches.names == old(caches.names) && caches.buckets == old(caches.buckets)
    }

    /**
     * What network-first did: it fetched once; a 200 response opened the
     * api bucket and was stored there; nothing else was written.
     */
    twostate predicate NetworkFirstDone(req: Request, r: Settled)
      reads this, caches, network
    {
      && r == NetworkFirstAnswer(network.respond(req), old(caches.Match(req)))
      && network.log == old(network.log) + [req]
      && if network.respond(req).Fetched? && network.respond(req).response.status == 200 then
           && caches.names == OpenNames(old(caches.names), old(caches.buckets), API_CACHE)
           && caches.buckets == PutBuckets(OpenBuckets(old(caches.buckets), API_CACHE), API_CACHE, req, network.respond(req).response)
         else caches.names == old(caches.names) && caches.buckets == old(caches.buckets)
    }

    /** `cacheFirstStrategy(request)` */
    method CacheFirstStrategy(req: Request) returns (r: Settled)
      requires caches.Valid()
      modifies caches, network`log
      ensures caches.Valid()
      ensures CacheFirstDone(req, r)
    {
      var cached := caches.Match(req);
      if cached.Some? {
        return Resolved(cached.value);
      }
      var outcome := network.Fetch(req);
      match outcome
      case Fetched(response) =>
        if response.status == 200 {
          caches.Open(DYNAMIC_CACHE);
          if Hostname(req.url) == API_HOST && IsImageUrl(req.url) {
            caches.Put(DYNAMIC_CACHE, req, response);
          } else if Hostname(req.url) != API_HOST {
            caches.Put(DYNAMIC_CACHE, req, response);
          }
        }
        return Resolved(response);
      case NetworkError =>
        if req.destination == "image" {
          return Resolved(OFFLINE_IMAGE);
        }
        if req.destination == "document" {
          var page := caches.Match(GetRequest(baseUrl + "offline.html"));
          if page.Some? {
            return Resolved(page.value);
          }
          return ResolvedEmpty;
        }
        return Rejected;
    }

    /** `networkFirstStrategy(request)` */
    method NetworkFirstStrategy(req: Request) returns (r: Settled)
      requires caches.Valid()
      modifies caches, network`log
      ensures caches.Valid()
      ensures NetworkFirstDone(req, r)
    {
      var outcome := network.Fetch(req);
      match outcome
      case Fetched(response) =>
        if response.status == 200 {
          caches.Open(API_CACHE);
          caches.Put(API_CACHE, req, response);
        }
        return Resolved(response);
      case NetworkError =>
        var cached := caches.Match(req);
        if cached.Some? {
          return Resolved(cached.value);
        }
        return Rejected;
    }

    /** The `fetch` handler: `None` when it leaves the request to the browser. */
    method OnFetch(req: Request) returns (r: Option<Settled>)
      requires caches.Valid()
      modifies caches, network`log
      ensures caches.Valid()
      ensures Route(req.url) == NotHandled ==> r == None && unchanged(caches) && unchanged(network)
      ensures Route(req.url) == NetworkFirst ==> r.Some? && NetworkFirstDone(req, r.value)
      ensures Route(req.url) == CacheFirst ==> r.Some? && CacheFirstDone(req, r.value)
    {
      if !StartsWith(req.url, "http") {
        return None;
      }
      if Origin(req.url) == API_ORIGIN {
        var s := NetworkFirstStrategy(req);
        return Some(s);
      }
      var s := CacheFirstStrategy(req);
      return Some(s);
    }

    /** The `activate` handler: delete every stale bucket. */
    method Activate()
      requires caches.Valid()
      modifies caches
      ensures caches.Valid()
      ensures caches.names == Drop(old(caches.names), set n | n in old(caches.names) && Stale(n))
      ensures caches.buckets == old(caches.buckets) - set n | n in old(caches.names) && Stale(n)
    {
      var stale := StaleNames(caches.names);
      ghost var names0, buckets0 := caches.names, caches.buckets;
      DropNothing(names0);
      assert Members(stale[..0]) == {};
      for i := 0 to |stale|
        invariant caches.Valid()
        invariant caches.names == Drop(names0, Members(stale[..i]))
        invariant caches.buckets == buckets0 - Members(stale[..i])
      {
        ghost var names, buckets := caches.names, caches.buckets;
        var _ := caches.Delete(stale[i]);
        PurgeStep(names0, buckets0, stale, i, names, buckets, caches.names, caches.buckets);
      }
      assert stale[..|stale|] == stale;
      assert Members(stale) == set n | n in names0 && Stale(n);
    }

    /** The worker's `openDB`: create the pending store if the database is new; no connection is kept. */
    method OpenDatabase() returns (r: Result<(), DbError>)
      requires db.Valid()
      modifies db
      ensures db.Valid()
      ensures r == (match SwOpenError(old(db.available), old(db.version)) case Some(e) => Err(e) case None => Ok(()))
      ensures r.Err? ==> unchanged(db)
      ensures r.Ok? ==> (db.version == DB_VERSION
        && db.schema == (if old(db.version) < DB_VERSION then SwUpgrade(old(db.schema)) else old(db.schema)))
      ensures unchanged(db`pending, db`keyGen, db`cached, db`appState, db`available)
    {
      if !db.available {
        return Err(StorageUnavailable);
      }
      if db.version > DB_VERSION {
        return Err(VersionError);
      }
      if db.version < DB_VERSION {
        db.schema := SwUpgrade(db.schema);
        db.version := DB_VERSION;
      }
      return Ok(());
    }

    /**
     * What `syncOfflineStories` did: when the database opened and has the
     * queue, it sent one upload per queued story in key order, deleted
     * exactly the stories the API answered with `ok`, and told every client
     * the number of stories it tried; otherwise it did nothing more.
     */
    twostate predicate SwSynced(clients: seq<Client>)
      reads this, db, network
    {
      var err := SwOpenError(old(db.available), old(db.version));
      && unchanged(db`keyGen, db`cached, db`appState, db`available)
      && (err.Some? ==> unchanged(db) && network.log == old(network.log) && posted == old(posted))
      && (err.None? ==>
            db.version == DB_VERSION &&
            db.schema == (if old(db.version) < DB_VERSION then SwUpgrade(old(db.schema)) else old(db.schema)))
      && (err.None? && PENDING_STORIES !in db.schema ==>
            db.pending == old(db.pending) && network.log == old(network.log) && posted == old(posted))
      && (err.None? && PENDING_STORIES in db.schema ==>
            && network.log == old(network.log) + UploadRequests(old(Values(db.pending)))
            && ToMap(db.pending) == KeepRejected(old(ToMap(db.pending)), Delivered(network.respond))
            && posted == old(posted) + Broadcast(clients, SyncComplete(|old(db.pending)|)))
    }

    /** `syncOfflineStories()`, with the window clients `clients.matchAll()` finds. */
    method SyncOfflineStories(clients: seq<Client>)
      requires db.Valid()
      modifies db, network`log, this`posted
      ensures db.Valid()
      ensures SwSynced(clients)
    {
      var connected := OpenDatabase();
      if connected.Err? {
        return;
      }
      if PENDING_STORIES !in db.schema {
        return;
      }
      var stories := Values(db.pending);
      UploadQueue(stories, db.pending);
      PostToAll(clients, SyncComplete(|stories|));
    }

    /** The story loop: upload each story; delete it when the answer is `ok`; a failure is caught and the loop goes on. */
    method UploadQueue(stories: seq<Record>, ghost entries: seq<Entry<Record>>)
      requires db.Valid() && db.pending == entries && stories == Values(entries)
      modifies db, network`log
      ensures db.Valid()
      ensures unchanged(db`keyGen, db`cached, db`appState, db`schema, db`version, db`available)
      ensures network.log == old(network.log) + UploadRequests(stories)
      ensures ToMap(db.pending) == KeepRejected(ToMap(entries), Delivered(network.respond))
    {
      ghost var delivered := Delivered(network.respond);
      assert StoreOk(entries, "id") && |stories| == |entries|;
      for i := 0 to |stories|
        invariant db.Valid()
        invariant unchanged(db`keyGen, db`cached, db`appState, db`schema, db`version, db`available)
        invariant ToMap(db.pending) == ToMap(entries) - AcceptedKeys(entries[..i], delivered)
        invariant network.log == old(network.log) + UploadRequests(stories[..i])
      {
        ghost var pending0, log0 := ToMap(db.pending), network.log;
        UploadOne(stories[i], entries, i);
        ValuesAt(entries, i);
        DrainMapStep(entries, delivered, i, pending0, ToMap(db.pending), delivered(stories[i]));
        UploadRequestsStep(stories, i);
      }
      assert stories[..|stories|] == stories;
      assert entries[..|stories|] == entries;
      RemovingAcceptedKeepsRejected(entries, delivered);
    }

    /** One turn of the story loop: upload the i-th queued story and delete it when the answer is `ok`. */
    method UploadOne(story: Record, ghost entries: seq<Entry<Record>>, ghost i: nat)
      requires db.Valid() && StoreOk(entries, "id") && i < |entries| && story == Values(entries)[i]
      modifies db, network`log
      ensures db.Valid()
      ensures unchanged(db`keyGen, db`cached, db`appState, db`schema, db`version, db`available)
      ensures network.log == old(network.log) + [UploadRequest(story)]
      ensures ToMap(db.pending) ==
        if Delivered(network.respond)(story) then old(ToMap(db.pending)) - {entries[i].key} else old(ToMap(db.pending))
    {
      QueuedStoryKey(entries, i);
      var outcome := network.Fetch(UploadRequest(story));
      DeliveredIs(network.respond, story);
      if outcome.Fetched? && outcome.response.IsOk() {
        match ToKey(Field(story, "id"))
        case Some(k) => db.DeletePending(k);
        case None =>
      }
    }

    /** `clients.forEach(client => client.postMessage(message))` */
    method PostToAll(clients: seq<Client>, m: Message)
      modifies this`posted
      ensures posted == old(posted) + Broadcast(clients, m)
    {
      for i := 0 to |clients|
        invariant posted == old(posted) + Broadcast(clients[..i], m)
      {
        posted := posted + [Post(clients[i], m)];
        assert Broadcast(clients[..i + 1], m) == Broadcast(clients[..i], m) + [Post(clients[i], m)];
      }
      assert clients[..|clients|] == clients;
    }

    /** The `sync` handler: only the `sync-stories` tag drains the queue. */
    method OnSync(tag: string, clients: seq<Client>)
      requires db.Valid()
      modifies db, network`log, this`posted
      ensures db.Valid()
      ensures tag != SYNC_TAG ==> unchanged(db) && unchanged(network) && unchanged(this)
      ensures tag == SYNC_TAG ==> SwSynced(clients)
    {
      if tag == SYNC_TAG {
        SyncOfflineStories(clients);
      }
    }

    /**
     * The `notificationclick` handler: nothing more for the `close` action;
     * otherwise focus the first window under the base URL and have it
     * navigate to the target, or else open a window on the target when
     * the platform can.
     */
    method OnNotificationClick(action: string, data: Option<NoticeData>, windows: seq<Client>, canOpenWindow: bool)
      returns (r: ClickOutcome)
      ensures action == "close" ==> r == Dismissed
      ensures action != "close" ==> (r.Focused? <==> exists i :: 0 <= i < |windows| && StartsWith(windows[i].url, baseUrl))
      ensures r.Focused? ==>
        && r.index < |windows| && StartsWith(windows[r.index].url, baseUrl)
        && (forall j :: 0 <= j < r.index ==> !StartsWith(windows[j].url, baseUrl))
        && r.target == ClickTarget(baseUrl, data)
      ensures action != "close" && !r.Focused? ==>
        r == if canOpenWindow then OpenedWindow(ClickTarget(baseUrl, data)) else NoWindow
    {
      if action == "close" {
        return Dismissed;
      }
      var target := ClickTarget(baseUrl, data);
      for i := 0 to |windows|
        invariant forall j :: 0 <= j < i ==> !StartsWith(windows[j].url, baseUrl)
      {
        if StartsWith(windows[i].url, baseUrl) {
          return Focused(i, target);
        }
      }
      if canOpenWindow {
        return OpenedWindow(target);
      }
      return NoWindow;
    }
  }
}
