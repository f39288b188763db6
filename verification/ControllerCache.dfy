// The controllers of a request, cached by database URL and encryption key (src/backend/container.ts). What the services
// are built of besides these two is shared by all requests.
module ControllerCache {
  import opened Json
  import opened Crypto

  // A header of the request, else the process environment; `None` when both are absent.
  datatype Request = Request(keyHeader: Option<string>, urlHeader: Option<string>)

  datatype Environment = Environment(key: Option<string>, url: Option<string>)

  datatype Controllers = Controllers(databaseUrl: string, crypto: Service)

  datatype Outcome = Ready(controllers: Controllers) | NotConfigured | EncryptionKeyInvalid

  function Either(header: Option<string>, fallback: Option<string>): string {
    match header
    case Some(text) => text
    case None => if fallback.Some? then fallback.value else ""
  }

  // The text a request comes with: that of its header, even if that is empty, and without one that of the environment.
  predicate Given(header: Option<string>, fallback: Option<string>, text: string) {
    header == Some(text) || (header == None && fallback == Some(text))
  }

  // A request that comes with both texts, neither of them empty, is served on that database under that key, if the key
  // decodes to 32 bytes.
  ghost predicate ServedAs(prim: Primitives, r: Outcome, url: string, key: string) {
    if |prim.fromBase64(key)| == 32
    then r.Ready? && r.controllers.databaseUrl == url &&
      r.controllers.crypto == Service(prim, prim.fromBase64(key), "default")
    else r == EncryptionKeyInvalid
  }

  predicate ComesWith(env: Environment, request: Request, url: string, key: string) {
    url != "" && key != "" && Given(request.urlHeader, env.url, url) && Given(request.keyHeader, env.key, key)
  }

  ghost predicate Complete(env: Environment, request: Request) { exists url, key :: ComesWith(env, request, url, key) }

  lemma EitherGiven(header: Option<string>, fallback: Option<string>, text: string)
    ensures Given(header, fallback, text) ==> Either(header, fallback) == text
    ensures Either(header, fallback) == text && text != "" ==> Given(header, fallback, text)
  {
  }

  // The outcome that a request calls for, whatever is cached.
  ghost predicate CalledFor(prim: Primitives, env: Environment, request: Request, r: Outcome) {
    && (r == NotConfigured <==> !Complete(env, request))
    && forall url, key :: ComesWith(env, request, url, key) ==> ServedAs(prim, r, url, key)
  }

  // What building afresh for a request comes to, told from the request and the environment.
  lemma BuildsExactly(prim: Primitives, env: Environment, request: Request)
    ensures CalledFor(prim, env, request, Build(prim, UrlOf(env, request), KeyOf(env, request)))
  {
    var url, key := UrlOf(env, request), KeyOf(env, request);
    EitherGiven(request.urlHeader, env.url, url);
    EitherGiven(request.keyHeader, env.key, key);
    forall text: string
      ensures Given(request.urlHeader, env.url, text) ==> url == text
      ensures Given(request.keyHeader, env.key, text) ==> key == text
    {
      EitherGiven(request.urlHeader, env.url, text);
      EitherGiven(request.keyHeader, env.key, text);
    }
    assert url != "" && key != "" ==> ComesWith(env, request, url, key);
    hide Given, UrlOf, KeyOf;
  }

  lemma PlainGiven(env: Environment, request: Request)
    ensures ':' !in KeyOf(env, request) <==> forall key :: Given(request.keyHeader, env.key, key) ==> ':' !in key
  {
    forall key: string ensures Given(request.keyHeader, env.key, key) ==> KeyOf(env, request) == key {
      EitherGiven(request.keyHeader, env.key, key);
    }
    EitherGiven(request.keyHeader, env.key, KeyOf(env, request));
  }

  function KeyOf(env: Environment, request: Request): string { Either(request.keyHeader, env.key) }

  function UrlOf(env: Environment, request: Request): string { Either(request.urlHeader, env.url) }

  // Building the controllers of a request afresh.
  function Build(prim: Primitives, url: string, key: string): Outcome {
    if key == "" || url == "" then NotConfigured
    else match CreateService(prim, prim.fromBase64(key), "default")
      case Err(_) => EncryptionKeyInvalid
      case Ok(crypto) => Ready(Controllers(url, crypto))
  }

  function CacheKey(url: string, key: string): string {
    url + "::" + key
  }

  // The separator may occur in either text; two pairs share a cache key just when a piece can be moved across it.
  lemma CollideExactly(url: string, key: string, url': string, key': string)
    ensures CacheKey(url, key) == CacheKey(url', key') <==>
            || (exists x :: key == x + key' && url' + "::" == url + "::" + x)
            || (exists x :: key' == x + key && url + "::" == url' + "::" + x)
  {
    if CacheKey(url, key) == CacheKey(url', key') {
      if |key| >= |key'| { Overlap(url, key, url', key'); } else { Overlap(url', key', url, key); }
    }
    forall x | key == x + key' && url' + "::" == url + "::" + x ensures CacheKey(url, key) == CacheKey(url', key') {
      assert CacheKey(url', key') == (url' + "::") + key' == url + "::" + (x + key');
    }
    forall x | key' == x + key && url + "::" == url' + "::" + x ensures CacheKey(url, key) == CacheKey(url', key') {
      assert CacheKey(url, key) == (url + "::") + key == url' + "::" + (x + key);
    }
  }

  lemma Overlap(url: string, key: string, url': string, key': string)
    requires CacheKey(url, key) == CacheKey(url', key') && |key| >= |key'|
    ensures var x := key[..|key| - |key'|]; key == x + key' && url' + "::" == url + "::" + x
  {
    var text, n := CacheKey(url, key), |key| - |key'|;
    assert text == (url + "::" + key[..n]) + key[n..];
    assert text == (url' + "::") + key';
    assert key[n..] == text[|text| - |key'|..] == key';
    assert url + "::" + key[..n] == text[..|text| - |key'|] == url' + "::";
  }

  // The alphabet of RFC 4648, section 4, has no colon. Without one in the keys the cache key determines the pair,
  // even if the URL contains the separator.
  lemma PlainKeysInjective(url: string, key: string, url': string, key': string)
    requires CacheKey(url, key) == CacheKey(url', key') && ':' !in key && ':' !in key'
    ensures url == url' && key == key'
  {
    if |key| >= |key'| { NothingMoves(url, key, url', key'); } else { NothingMoves(url', key', url, key); }
  }

  lemma NothingMoves(url: string, key: string, url': string, key': string)
    requires CacheKey(url, key) == CacheKey(url', key') && |key| >= |key'| && ':' !in key
    ensures url == url' && key == key'
  {
    Overlap(url, key, url', key');
    var x := key[..|key| - |key'|];
    MovedPiece(url, x, url');
    assert x == "" by { assert ':' !in x; }
    assert (url + "::")[..|url|] == url && (url' + "::")[..|url'|] == url';
  }

  lemma MovedPiece(url: string, x: string, url': string)
    requires url' + "::" == url + "::" + x
    ensures x == "" || ':' in x
  {
    if x != "" { assert x[|x| - 1] == (url + "::" + x)[|url'| + 1] == (url' + "::")[|url'| + 1] == ':'; }
  }

  class ControllersFactory {
    const prim: Primitives
    const env: Environment
    var cache: map<string, Controllers>
    ghost var built: set<(string, string)>  // the pairs controllers were built for

    constructor (prim: Primitives, env: Environment)
      ensures Valid() && this.prim == prim && this.env == env && cache == map[] && built == {}
    {
      this.prim, this.env := prim, env;
      cache, built := map[], {};
    }

    // Every cached set was built afresh for a pair with that cache key.
    ghost predicate Valid()
      reads this
    {
      forall k :: k in cache ==>
        exists p :: p in built && CacheKey(p.0, p.1) == k && Build(prim, p.0, p.1) == Ready(cache[k])
    }

    ghost predicate PlainKeys()
      reads this
    {
      forall p :: p in built ==> ':' !in p.1
    }

    method ForRequest(request: Request) returns (r: Outcome)
      requires Valid()
      modifies this
      ensures Valid()
      ensures var url, key := UrlOf(env, request), KeyOf(env, request);
        && (!r.Ready? ==> cache == old(cache) && built == old(built) && r == Build(prim, url, key))
        && (r.Ready? ==> cache == old(cache)[CacheKey(url, key) := r.controllers] && built <= old(built) + {(url, key)})
        && (old(PlainKeys()) && ':' !in key ==> r == Build(prim, url, key) && PlainKeys())
      ensures r == NotConfigured <==> !Complete(env, request)
      ensures old(PlainKeys()) ==>
                forall url, key :: ComesWith(env, request, url, key) && ':' !in key ==> ServedAs(prim, r, url, key)
    {
      BuildsExactly(prim, env, request);
      forall text: string | Given(request.keyHeader, env.key, text) ensures KeyOf(env, request) == text {
        EitherGiven(request.keyHeader, env.key, text);
      }
      var url, key := UrlOf(env, request), KeyOf(env, request);
      if key == "" || url == "" { return NotConfigured; }
      var cacheKey := CacheKey(url, key);
      if cacheKey in cache {
        if PlainKeys() && ':' !in key { SamePair(prim, built, cache, url, key); }
        return Ready(cache[cacheKey]);
      }
      var crypto := CreateService(prim, prim.fromBase64(key), "default");
      match crypto
      case Err(_) => r := EncryptionKeyInvalid;
      case Ok(service) =>
        var controllers := Controllers(url, service);
        ghost var before := cache;
        cache := cache[cacheKey := controllers];
        built := built + {(url, key)};
        r := Ready(controllers);
        forall k | k in cache
          ensures exists p :: p in built && CacheKey(p.0, p.1) == k && Build(prim, p.0, p.1) == Ready(cache[k]) {
          if k == cacheKey {
            assert (url, key) in built;
          } else {
            var p :| p in old(built) && CacheKey(p.0, p.1) == k && Build(prim, p.0, p.1) == Ready(before[k]);
            assert p in built;
          }
        }
    }
  }

  lemma SamePair(prim: Primitives, built: set<(string, string)>, cache: map<string, Controllers>, url: string,
          key: string)
    requires CacheKey(url, key) in cache && ':' !in key && forall p :: p in built ==> ':' !in p.1
    requires exists p ::
               p in built && CacheKey(p.0, p.1) == CacheKey(url, key) &&
               Build(prim, p.0, p.1) == Ready(cache[CacheKey(url, key)])
    ensures Build(prim, url, key) == Ready(cache[CacheKey(url, key)])
  {
    var p :| p in built && CacheKey(p.0, p.1) == CacheKey(url, key) &&
        Build(prim, p.0, p.1) == Ready(cache[CacheKey(url, key)]);
    PlainKeysInjective(p.0, p.1, url, key);
  }

  // Over any sequence of requests with plain keys the cache cannot be told from building afresh.
  method Answer(factory: ControllersFactory, requests: seq<Request>) returns (outcomes: seq<Outcome>)
    requires factory.Valid() && factory.PlainKeys()
    requires forall k, key :: 0 <= k < |requests| && Given(requests[k].keyHeader, factory.env.key, key) ==> ':' !in key
    modifies factory
    ensures factory.Valid() && factory.PlainKeys()
    ensures |outcomes| == |requests|
    ensures forall k :: 0 <= k < |requests| ==>
              outcomes[k] == Build(factory.prim, UrlOf(factory.env, requests[k]), KeyOf(factory.env, requests[k]))
    ensures forall k :: 0 <= k < |requests| ==> CalledFor(factory.prim, factory.env, requests[k], outcomes[k])
  {
    hide CalledFor, Given, Build, UrlOf, KeyOf;
    outcomes := [];
    for k := 0 to |requests|
      invariant factory.Valid() && factory.PlainKeys() && |outcomes| == k
      invariant forall j :: 0 <= j < k ==>
                  outcomes[j] == Build(factory.prim, UrlOf(factory.env, requests[j]), KeyOf(factory.env, requests[j]))
      invariant forall j :: 0 <= j < k ==> CalledFor(factory.prim, factory.env, requests[j], outcomes[j])
    {
      BuildsExactly(factory.prim, factory.env, requests[k]);
      PlainGiven(factory.env, requests[k]);
      var r := factory.ForRequest(requests[k]);
      outcomes := outcomes + [r];
    }
  }
}
