/** The current client, src/DirectApi.php: each call clears the call state,
    builds and re-encodes the request envelope, answers it from the cache or
    from the transport, classifies the decoded response and stores its `data`
    and the rest of it on the client. */
module DirectApi {
  import opened Php
  import opened JsonValue
  import opened Protocol

  /** __CLASS__ inside the client: the first part of every cache key. */
  const ClassName: Bytes := Ascii("g1k\\direct\\DirectApi")
  const DefaultCachePrefix: Bytes := Ascii("_directApi")
  const DefaultCachingDuration: int := 300

  /** A cache key: the array [__CLASS__, cachePrefix, serialized envelope]. */
  datatype CacheKey = CacheKey(owner: Bytes, prefix: Bytes, body: Bytes)

  /** What the cache holds under a key: the decoded response and the duration
      it was stored for. */
  datatype CacheEntry = CacheEntry(value: Json, duration: int)

  type Store = map<CacheKey, CacheEntry>

  /** getCacheKey */
  function GetCacheKey(prefix: Bytes, body: Bytes): CacheKey {
    CacheKey(ClassName, prefix, body)
  }

  /** The cache's get returns false for a missing key, so a stored false reads
      as a miss as well. */
  predicate CacheHit(store: Store, key: CacheKey) {
    key in store && store[key].value != Bool(false)
  }

  /** The configuration a call reads. */
  datatype Settings = Settings(apiUrl: Bytes, clientId: Json, locale: Json, token: Json, login: Json,
                               caching: bool, cachingDuration: int, cachePrefix: Bytes)

  /** The call state: _data, _result, _error, _errorStr and _errorDetail. */
  datatype CallState = CallState(data: Json, result: Json, error: Json, errorStr: Json, errorDetail: Json)

  /** apiQuery returns the client itself or throws. */
  datatype Outcome = ReturnsClient | Throws(failure: Failure)

  /** What one call does: the new call state and cache, the bodies it posted
      to the transport, and how it ended. */
  datatype Step = Step(state: CallState, store: Store, posted: seq<Bytes>, outcome: Outcome)

  /** How a call treats the response it has in hand: the new call state and
      how the call ends. */
  datatype Reaction = Reaction(state: CallState, outcome: Outcome)

  /** The state after clear(): errors and data reset, _result kept. */
  function Cleared(st: CallState): CallState {
    st.(data := Null, error := Null, errorStr := Null, errorDetail := Null)
  }

  /** The serialized request: the envelope, re-encoded by utf8, then encoded. */
  function RequestBody(s: Settings, name: Bytes, params: Json, codec: Codec): Bytes {
    codec.encode(Utf8(Envelope(name, params, s.locale, s.clientId, s.token)))
  }

  /** The decoded response of a call, or the transport failure. */
  datatype Fetch =
    | Fetched(value: Json, store: Store, posted: seq<Bytes>)
    | FetchFailed(reason: Bytes, posted: seq<Bytes>)

  /** The cache lookup, or the transport on a miss; with caching on, a fetched
      response is stored under the request's key whatever it is. */
  function FetchResponse(s: Settings, store: Store, body: Bytes, transport: Bytes -> Reply, codec: Codec): Fetch {
    var key := GetCacheKey(s.cachePrefix, body);
    if s.caching && CacheHit(store, key) then Fetched(store[key].value, store, [])
    else
      match transport(body)
      case Failed(reason) => FetchFailed(reason, [body])
      case Received(raw) =>
        var value := codec.decode(raw);
        Fetched(value, if s.caching then store[key := CacheEntry(value, s.cachingDuration)] else store, [body])
  }

  /** The message of the exception for a false response: the request part is
      the method followed by the encoded parameters. */
  function EmptyResponseMessage(apiUrl: Bytes, name: Bytes, params: Json, login: Json, codec: Codec): (r: Message)
    ensures MessageText(r)
         == CannotOpen + apiUrl + Ascii(". (") + name + codec.encode(params) + Ascii(")") + LoginLabel + ToPhpString(login)
  {
    CannotOpenAddress(apiUrl, name + codec.encode(params), login)
  }

  /** The message of the exception for a fatal error pair: it ends with the
      method and the encoded parameters. */
  function FatalMessage(name: Bytes, errorFull: Bytes, login: Json, params: Json, codec: Codec): (r: Message)
    ensures MessageText(r) == RequestLabel + name + Ascii(": ") + errorFull + LoginSuffix(login) + name + codec.encode(params)
  {
    RequestError(name, errorFull, login, name + codec.encode(params))
  }

  /** The end of a call that did not throw before it: _data from the `data`
      key, then the unset of `data`, which PHP refuses for scalars. */
  function Finish(st: CallState, response: Json): Reaction {
    var withData := st.(data := Field(response, DataKey));
    if CanUnset(response) then
      Reaction(withData.(result := Unset(response, DataKey)), ReturnsClient)
    else
      Reaction(withData, Throws(OffsetError))
  }

  /** What apiQuery does with an error pair it found in the response: the
      pair is stored, and a fatal one throws while any other one makes the
      response false. */
  function ErrorReaction(s: Settings, cleared: CallState, verdict: Verdict, name: Bytes, params: Json, codec: Codec): Reaction
    requires !verdict.Pass?
  {
    var failed := cleared.(error := verdict.code, errorStr := verdict.str);
    if verdict.Fatal? then
      var full := ErrorFull(failed.error, failed.errorStr, failed.errorDetail);
      Reaction(failed, Throws(RemoteFatal(FatalMessage(name, full, s.login, params, codec))))
    else
      Finish(failed, Bool(false))
  }

  /** What apiQuery does with a fetched response, starting from the cleared
      state: a false response throws, an error pair goes to ErrorReaction,
      and the rest goes to Finish. */
  function Answer(s: Settings, cleared: CallState, response: Json, name: Bytes, params: Json, codec: Codec): Reaction
  {
    if !Truthy(response) then
      Reaction(cleared, Throws(EmptyResponse(EmptyResponseMessage(s.apiUrl, name, params, s.login, codec))))
    else if Classify(response).Pass? then
      Finish(cleared, response)
    else
      ErrorReaction(s, cleared, Classify(response), name, params, codec)
  }

  /** apiQuery(name, params) as a function of the client's state. */
  function Query(s: Settings, st: CallState, store: Store, name: Bytes, params: Json,
                 transport: Bytes -> Reply, codec: Codec): Step
  {
    match FetchResponse(s, store, RequestBody(s, name, params, codec), transport, codec)
    case FetchFailed(reason, posted) => Step(Cleared(st), store, posted, Throws(TransportError(reason)))
    case Fetched(response, newStore, posted) =>
      var r := Answer(s, Cleared(st), response, name, params, codec);
      Step(r.state, newStore, posted, r.outcome)
  }

  // ---------------------------------------------------------------------------
  // Properties of a call

  /** Whatever happens, a call starts from a cleared state: a call that throws
      leaves _data null and _errorDetail null, keeps the previous _result, and
      sets the error fields only for a fatal error pair. */
  lemma ThrowKeepsResult(s: Settings, st: CallState, store: Store, name: Bytes, params: Json,
                         transport: Bytes -> Reply, codec: Codec)
    requires Query(s, st, store, name, params, transport, codec).outcome.Throws?
    ensures var step := Query(s, st, store, name, params, transport, codec);
      && step.state.data == Null && step.state.errorDetail == Null
      && step.state.result == st.result
      && (!step.outcome.failure.RemoteFatal? ==> step.state.error == Null && step.state.errorStr == Null)
  {
    var f := FetchResponse(s, store, RequestBody(s, name, params, codec), transport, codec);
    if f.Fetched? && Truthy(f.value) && !Classify(f.value).Fatal? {
      var v := Classify(f.value);
      var response := if v.Pass? then f.value else Bool(false);
      assert !CanUnset(response);
    }
  }

  /** A false response (null, false, 0, "", "0", an empty array or an empty
      object) makes the call throw a message naming the API URL, the method,
      the encoded parameters and the login; the call state stays cleared. */
  lemma EmptyResponseThrows(s: Settings, st: CallState, store: Store, name: Bytes, params: Json,
                            transport: Bytes -> Reply, codec: Codec)
    requires var f := FetchResponse(s, store, RequestBody(s, name, params, codec), transport, codec);
      f.Fetched? && !Truthy(f.value)
    ensures var step := Query(s, st, store, name, params, transport, codec);
      && step.state == Cleared(st)
      && step.outcome == Throws(EmptyResponse(EmptyResponseMessage(s.apiUrl, name, params, s.login, codec)))
      && Contains(MessageText(step.outcome.failure.message), s.apiUrl)
      && Contains(MessageText(step.outcome.failure.message), name)
      && Contains(MessageText(step.outcome.failure.message), codec.encode(params))
      && Contains(MessageText(step.outcome.failure.message), ToPhpString(s.login))
  {
    EmptyResponseMessageNames(s.apiUrl, name, params, s.login, codec);
  }

  /** The message for a false response names the API URL, the method, the
      encoded parameters and the login. */
  lemma EmptyResponseMessageNames(apiUrl: Bytes, name: Bytes, params: Json, login: Json, codec: Codec)
    ensures var text := MessageText(EmptyResponseMessage(apiUrl, name, params, login, codec));
      && Contains(text, apiUrl) && Contains(text, name) && Contains(text, codec.encode(params))
      && Contains(text, ToPhpString(login))
  {
    var enc := codec.encode(params);
    var text := MessageText(EmptyResponseMessage(apiUrl, name, params, login, codec));
    CannotOpenNames(apiUrl, name + enc, login);
    ContainsItself(name);
    ContainsInLeft(name, enc, name);
    ContainsTransitive(text, name + enc, name);
    ContainsItself(enc);
    ContainsInRight(name, enc, enc);
    ContainsTransitive(text, name + enc, enc);
  }

  /** A fatal error pair is stored in _error and _errorStr, and the call
      throws "Запрос {method}: " + getErrorFull() + the login part + the method
      and the encoded parameters; the message names the method and the error
      string. */
  lemma FatalErrorThrows(s: Settings, st: CallState, store: Store, name: Bytes, params: Json,
                         transport: Bytes -> Reply, codec: Codec)
    requires var f := FetchResponse(s, store, RequestBody(s, name, params, codec), transport, codec);
      f.Fetched? && Truthy(f.value) && Classify(f.value).Fatal?
    ensures var f := FetchResponse(s, store, RequestBody(s, name, params, codec), transport, codec);
      var code, str := Classify(f.value).code, Classify(f.value).str;
      var step := Query(s, st, store, name, params, transport, codec);
      && step.state == Cleared(st).(error := code, errorStr := str)
      && step.outcome == Throws(RemoteFatal(FatalMessage(name, ErrorFull(code, str, Null), s.login, params, codec)))
      && Contains(MessageText(step.outcome.failure.message), name)
      && Contains(MessageText(step.outcome.failure.message), ToPhpString(str))
      && Contains(MessageText(step.outcome.failure.message), codec.encode(params))
  {
    var f := FetchResponse(s, store, RequestBody(s, name, params, codec), transport, codec);
    FatalMessageNames(name, Classify(f.value).code, Classify(f.value).str, s.login, params, codec);
  }

  /** The fatal message names the method, the error string and the encoded
      parameters. */
  lemma FatalMessageNames(name: Bytes, code: Json, str: Json, login: Json, params: Json, codec: Codec)
    ensures var text := MessageText(FatalMessage(name, ErrorFull(code, str, Null), login, params, codec));
      Contains(text, name) && Contains(text, ToPhpString(str)) && Contains(text, codec.encode(params))
  {
    var full, enc := ErrorFull(code, str, Null), codec.encode(params);
    var text := MessageText(FatalMessage(name, full, login, params, codec));
    RequestErrorNames(name, full, login, name + enc);
    ErrorFullNamesString(code, str, Null);
    ContainsTransitive(text, full, ToPhpString(str));
    ContainsItself(enc);
    ContainsInRight(name, enc, enc);
    ContainsTransitive(text, name + enc, enc);
  }

  /** A non-fatal error pair (the "no statistics" sentinel, or a code outside
      the fatal set) does not throw: the pair stays readable, _data is null,
      _result is false and the call returns the client. */
  lemma SuppressedErrorReturnsClient(s: Settings, st: CallState, store: Store, name: Bytes, params: Json,
                                     transport: Bytes -> Reply, codec: Codec)
    requires var f := FetchResponse(s, store, RequestBody(s, name, params, codec), transport, codec);
      f.Fetched? && Truthy(f.value) && Classify(f.value).Suppressed?
    ensures var f := FetchResponse(s, store, RequestBody(s, name, params, codec), transport, codec);
      var step := Query(s, st, store, name, params, transport, codec);
      && step.outcome == ReturnsClient
      && step.state == CallState(Null, Bool(false), Classify(f.value).code, Classify(f.value).str, Null)
  {
  }

  /** A response without an error pair that is an array sets _data to its
      `data` (null when absent) and _result to the response without `data`:
      every other key reads as in the response. */
  lemma SuccessStoresDataAndResult(s: Settings, st: CallState, store: Store, name: Bytes, params: Json,
                                   transport: Bytes -> Reply, codec: Codec, other: Bytes)
    requires var f := FetchResponse(s, store, RequestBody(s, name, params, codec), transport, codec);
      f.Fetched? && Truthy(f.value) && Classify(f.value).Pass? && (f.value.Obj? || f.value.Arr?)
    requires other != DataKey
    ensures var f := FetchResponse(s, store, RequestBody(s, name, params, codec), transport, codec);
      var step := Query(s, st, store, name, params, transport, codec);
      && step.outcome == ReturnsClient
      && step.state == CallState(Field(f.value, DataKey), Unset(f.value, DataKey), Null, Null, Null)
      && Field(step.state.result, DataKey) == Null
      && Field(step.state.result, other) == Field(f.value, other)
  {
    var f := FetchResponse(s, store, RequestBody(s, name, params, codec), transport, codec);
    UnsetSpec(f.value, DataKey, other);
  }

  /** A true scalar response (true, a non-zero number, a non-empty string)
      without an error pair ends in PHP's error for unsetting a key of a
      scalar, after _data was set to null. */
  lemma ScalarResponseFails(s: Settings, st: CallState, store: Store, name: Bytes, params: Json,
                            transport: Bytes -> Reply, codec: Codec)
    requires var f := FetchResponse(s, store, RequestBody(s, name, params, codec), transport, codec);
      f.Fetched? && Truthy(f.value) && !f.value.Obj? && !f.value.Arr?
    ensures var step := Query(s, st, store, name, params, transport, codec);
      step.outcome == Throws(OffsetError) && step.state == Cleared(st)
  {
  }

  // ---------------------------------------------------------------------------
  // Properties of the cache

  /** On a cache hit the transport is not consulted: the call handles the
      cached value, so any two transports give the same call, which posts
      nothing and leaves the cache as it was. */
  lemma CacheHitSkipsTransport(s: Settings, st: CallState, store: Store, name: Bytes, params: Json,
                               t1: Bytes -> Reply, t2: Bytes -> Reply, codec: Codec)
    requires s.caching && CacheHit(store, GetCacheKey(s.cachePrefix, RequestBody(s, name, params, codec)))
    ensures Query(s, st, store, name, params, t1, codec) == Query(s, st, store, name, params, t2, codec)
    ensures Query(s, st, store, name, params, t1, codec).posted == []
    ensures Query(s, st, store, name, params, t1, codec).store == store
    ensures var cached := store[GetCacheKey(s.cachePrefix, RequestBody(s, name, params, codec))].value;
      var r := Answer(s, Cleared(st), cached, name, params, codec);
      Query(s, st, store, name, params, t1, codec) == Step(r.state, store, [], r.outcome)
  {
  }

  /** On a miss the transport is called once with the serialized envelope, and
      the decoded response, whatever it is (null or an error pair included),
      is stored under [__CLASS__, cachePrefix, body] for cachingDuration. */
  lemma CacheMissStoresResponse(s: Settings, st: CallState, store: Store, name: Bytes, params: Json,
                                transport: Bytes -> Reply, codec: Codec)
    requires s.caching
    requires !CacheHit(store, GetCacheKey(s.cachePrefix, RequestBody(s, name, params, codec)))
    requires transport(RequestBody(s, name, params, codec)).Received?
    ensures var body := RequestBody(s, name, params, codec);
      var step := Query(s, st, store, name, params, transport, codec);
      && step.posted == [body]
      && step.store == store[CacheKey(ClassName, s.cachePrefix, body)
                              := CacheEntry(codec.decode(transport(body).raw), s.cachingDuration)]
      && var r := Answer(s, Cleared(st), codec.decode(transport(body).raw), name, params, codec);
         step.state == r.state && step.outcome == r.outcome
  {
  }

  /** Without caching every call posts its body once and the cache is not
      touched; a transport failure throws and stores nothing either way. */
  lemma TransportIsUsedWithoutCaching(s: Settings, st: CallState, store: Store, name: Bytes, params: Json,
                                      transport: Bytes -> Reply, codec: Codec)
    ensures var body := RequestBody(s, name, params, codec);
      var step := Query(s, st, store, name, params, transport, codec);
      && (!s.caching ==> step.posted == [body] && step.store == store)
      && (!s.caching && transport(body).Received? ==>
            var r := Answer(s, Cleared(st), codec.decode(transport(body).raw), name, params, codec);
            step.state == r.state && step.outcome == r.outcome)
      && (transport(body).Failed? && !(s.caching && CacheHit(store, GetCacheKey(s.cachePrefix, body))) ==>
            step.outcome == Throws(TransportError(transport(body).reason))
            && step.store == store && step.state == Cleared(st))
  {
  }

  /** The cache a call leaves and the bodies it posts are those of its fetch,
      whatever the response. */
  lemma QueryFollowsFetch(s: Settings, st: CallState, store: Store, name: Bytes, params: Json,
                          transport: Bytes -> Reply, codec: Codec)
    ensures var f := FetchResponse(s, store, RequestBody(s, name, params, codec), transport, codec);
      var step := Query(s, st, store, name, params, transport, codec);
      && step.posted == f.posted
      && step.store == if f.Fetched? then f.store else store
  {
  }

  /** After a call that found a response other than false, the same call
      again, within the cache's lifetime, is answered from the cache without
      posting anything: it handles the cached value, which is the response
      the first call received when that call missed the cache. */
  lemma RepeatedCallHitsCache(s: Settings, st1: CallState, st2: CallState, store: Store, name: Bytes, params: Json,
                              t1: Bytes -> Reply, t2: Bytes -> Reply, codec: Codec)
    requires s.caching
    requires var body := RequestBody(s, name, params, codec);
      t1(body).Received? && codec.decode(t1(body).raw) != Bool(false)
    ensures var key := GetCacheKey(s.cachePrefix, RequestBody(s, name, params, codec));
      var first := Query(s, st1, store, name, params, t1, codec);
      var second := Query(s, st2, first.store, name, params, t2, codec);
      && key in first.store
      && (!CacheHit(store, key) ==> first.store[key].value == codec.decode(t1(RequestBody(s, name, params, codec)).raw))
      && var r := Answer(s, Cleared(st2), first.store[key].value, name, params, codec);
         second == Step(r.state, first.store, [], r.outcome)
  {
    QueryFollowsFetch(s, st1, store, name, params, t1, codec);
    var first := Query(s, st1, store, name, params, t1, codec);
    var key := GetCacheKey(s.cachePrefix, RequestBody(s, name, params, codec));
    assert CacheHit(first.store, key);
    CacheHitSkipsTransport(s, st2, first.store, name, params, t2, t2, codec);
  }

  /** With an encoder that is injective on well-formed values, two calls with
      well-formed values share a cache key exactly when they agree on the
      prefix, the method, the parameters, the locale, the application id and
      the token. */
  /** After clear() the data and the error fields are null, so getErrorFull
      gives two spaces; _result is kept, and a second clear() changes nothing. */
  lemma ClearedSpec(st: CallState)
    ensures var c := Cleared(st);
      && c.data == Null && c.result == st.result && Cleared(c) == c
      && ErrorFull(c.error, c.errorStr, c.errorDetail) == Ascii("  ")
  {
  }

  /** A call posts to the transport exactly when caching is off or the cache
      has no usable entry; a stored false is such a miss and is fetched again. */
  lemma FetchPostsUnlessCacheHit(s: Settings, store: Store, body: Bytes, transport: Bytes -> Reply, codec: Codec)
    ensures var key := GetCacheKey(s.cachePrefix, body);
      var f := FetchResponse(s, store, body, transport, codec);
      && (f.posted == [] <==> s.caching && CacheHit(store, key))
      && (f.posted != [] ==> f.posted == [body])
      && (s.caching && key in store && store[key].value == Bool(false) && transport(body).Received? ==>
            f.Fetched? && f.store[key] == CacheEntry(codec.decode(transport(body).raw), s.cachingDuration))
  {
  }

  /** With an injective encoder, two calls post the same body exactly when
      they send the same method, parameters, locale, application and token. */
  lemma RequestBodyIdentifiesCall(s1: Settings, name1: Bytes, params1: Json,
                                  s2: Settings, name2: Bytes, params2: Json, codec: Codec)
    requires Injective(codec.encode)
    requires WellFormed(params1) && WellFormed(s1.locale) && WellFormed(s1.clientId) && WellFormed(s1.token)
    requires WellFormed(params2) && WellFormed(s2.locale) && WellFormed(s2.clientId) && WellFormed(s2.token)
    ensures RequestBody(s1, name1, params1, codec) == RequestBody(s2, name2, params2, codec)
        <==> && name1 == name2 && params1 == params2
             && s1.locale == s2.locale && s1.clientId == s2.clientId && s1.token == s2.token
  {
    EnvelopeWellFormed(name1, params1, s1.locale, s1.clientId, s1.token);
    EnvelopeWellFormed(name2, params2, s2.locale, s2.clientId, s2.token);
    RequestInjective(name1, params1, s1.locale, s1.clientId, s1.token, name2, params2, s2.locale, s2.clientId, s2.token);
  }

  lemma CacheKeyIdentifiesRequest(s1: Settings, name1: Bytes, params1: Json,
                                  s2: Settings, name2: Bytes, params2: Json, codec: Codec)
    requires Injective(codec.encode)
    requires WellFormed(params1) && WellFormed(s1.locale) && WellFormed(s1.clientId) && WellFormed(s1.token)
    requires WellFormed(params2) && WellFormed(s2.locale) && WellFormed(s2.clientId) && WellFormed(s2.token)
    ensures GetCacheKey(s1.cachePrefix, RequestBody(s1, name1, params1, codec))
         == GetCacheKey(s2.cachePrefix, RequestBody(s2, name2, params2, codec))
        <==> && s1.cachePrefix == s2.cachePrefix && name1 == name2 && params1 == params2
             && s1.locale == s2.locale && s1.clientId == s2.clientId && s1.token == s2.token
  {
    RequestBodyIdentifiesCall(s1, name1, params1, s2, name2, params2, codec);
  }

  // ---------------------------------------------------------------------------
  // The component

  class Client {
    var clientId: Json
    var locale: Json
    /** _apiUrl and _authorizeLink: chosen once, by init. */
    const apiUrl: Bytes
    const authorizeLink: Bytes
    /** _token and _login */
    var token: Json
    var login: Json
    /** _cache, cachingDuration and cachePrefix */
    var caching: bool
    var cachingDuration: int
    var cachePrefix: Bytes
    /** _data, _result, _error, _errorStr and _errorDetail */
    var data: Json
    var result: Json
    var error: Json
    var errorStr: Json
    var errorDetail: Json
    /** The application's cache component. */
    var store: Store
    /** The JSON library. */
    const codec: Codec
    /** The bodies posted to the transport so far. */
    ghost var posted: seq<Bytes>

    function Config(): Settings
      reads this
    {
      Settings(apiUrl, clientId, locale, token, login, caching, cachingDuration, cachePrefix)
    }

    function State(): CallState
      reads this
    {
      CallState(data, result, error, errorStr, errorDetail)
    }

    /** Construction with its configuration, then init(): the API URL by the
        sandbox flag, the authorization link from the response type and the
        client id, and the application's language when no locale is set. */
    constructor (clientId: Json, locale: Json, responseType: Json, useSandbox: bool, appLanguage: Json,
                 cache: Store, codec: Codec)
      requires IsScalar(responseType) && IsScalar(clientId)
      ensures apiUrl == ApiUrl(useSandbox) && authorizeLink == AuthorizeLink(responseType, clientId)
      ensures this.clientId == clientId && this.locale == (if Truthy(locale) then locale else appLanguage)
      ensures token == Null && login == Null
      ensures !caching && cachingDuration == DefaultCachingDuration && cachePrefix == DefaultCachePrefix
      ensures State() == CallState(Null, Null, Null, Null, Null)
      ensures store == cache && this.codec == codec && posted == []
    {
      this.clientId, this.locale := clientId, locale;
      apiUrl := ApiUrl(useSandbox);
      authorizeLink := AuthorizeLink(responseType, clientId);
      if !Truthy(locale) {
        this.locale := appLanguage;
      }
      token, login := Null, Null;
      caching, cachingDuration, cachePrefix := false, DefaultCachingDuration, DefaultCachePrefix;
      data, result, error, errorStr, errorDetail := Null, Null, Null, Null, Null;
      store, this.codec, posted := cache, codec, [];
    }

    /** getAuthorizeUrl(state) */
    method GetAuthorizeUrl(state: Bytes) returns (url: Bytes)
      ensures url == AuthorizeUrl(authorizeLink, state)
    {
      url := AuthorizeUrl(authorizeLink, state);
    }

    /** cache(d): turns caching on; a true duration replaces the current one. */
    method Cache(duration: int)
      modifies this`caching, this`cachingDuration
      ensures caching
      ensures cachingDuration == if duration != 0 then duration else old(cachingDuration)
    {
      caching := true;
      if duration != 0 {
        cachingDuration := duration;
      }
    }

    method SetToken(t: Json)
      modifies this`token
      ensures token == t
    {
      token := t;
    }

    method SetLogin(l: Json)
      modifies this`login
      ensures login == l
    {
      login := l;
    }

    method SetData(d: Json)
      modifies this`data
      ensures data == d
    {
      data := d;
    }

    method SetResult(r: Json)
      modifies this`result
      ensures result == r
    {
      result := r;
    }

    method SetError(e: Json)
      modifies this`error
      ensures error == e
    {
      error := e;
    }

    method SetErrorStr(e: Json)
      modifies this`errorStr
      ensures errorStr == e
    {
      errorStr := e;
    }

    method GetApiUrl() returns (url: Bytes)
      ensures url == apiUrl
    {
      url := apiUrl;
    }

    method GetData() returns (d: Json)
      ensures d == data
    {
      d := data;
    }

    /** getResult returns _data, not _result. */
    method GetResult() returns (r: Json)
      ensures r == data
    {
      r := data;
    }

    method GetError() returns (e: Json)
      ensures e == error
    {
      e := error;
    }

    method GetErrorStr() returns (e: Json)
      ensures e == errorStr
    {
      e := errorStr;
    }

    method GetLogin() returns (l: Json)
      ensures l == login
    {
      l := login;
    }

    method GetErrorFull() returns (full: Bytes)
      ensures full == ErrorFull(error, errorStr, errorDetail)
    {
      full := ErrorFull(error, errorStr, errorDetail);
    }

    method ClearErrors()
      modifies this`error, this`errorStr, this`errorDetail
      ensures error == Null && errorStr == Null && errorDetail == Null
    {
      error, errorStr, errorDetail := Null, Null, Null;
    }

    method ClearData()
      modifies this`data
      ensures data == Null
    {
      data := Null;
    }

    /** clear(): the error fields and _data, not _result. */
    method Clear()
      modifies this`error, this`errorStr, this`errorDetail, this`data
      ensures State() == Cleared(old(State()))
    {
      ClearErrors();
      ClearData();
    }

    /** _execCurl: one POST of the body. */
    method ExecCurl(body: Bytes, transport: Bytes -> Reply) returns (reply: Reply)
      modifies this`posted
      ensures reply == transport(body) && posted == old(posted) + [body]
    {
      posted := posted + [body];
      reply := transport(body);
    }

    /** The part of apiQuery that gets the response: from the cache when
        caching is on and the key is there, otherwise by one POST, whose decoded
        response is then stored when caching is on. */
    method Fetch(body: Bytes, transport: Bytes -> Reply) returns (fetch: Fetch)
      modifies this`store, this`posted
      ensures fetch == FetchResponse(Config(), old(store), body, transport, codec)
      ensures store == if fetch.Fetched? then fetch.store else old(store)
      ensures posted == old(posted) + fetch.posted
    {
      var key := GetCacheKey(cachePrefix, body);
      if caching && CacheHit(store, key) {
        return Fetched(store[key].value, store, []);
      }
      var reply := ExecCurl(body, transport);
      if reply.Failed? {
        return FetchFailed(reply.reason, [body]);
      }
      var response := codec.decode(reply.raw);
      if caching {
        store := store[key := CacheEntry(response, cachingDuration)];
      }
      return Fetched(response, store, [body]);
    }

    /** apiQuery(name, params), step by step as the source performs it. */
    method ApiQuery(name: Bytes, params: Json, transport: Bytes -> Reply) returns (outcome: Outcome)
      modifies this
      ensures var step := Query(old(Config()), old(State()), old(store), name, params, transport, codec);
        && State() == step.state && store == step.store && outcome == step.outcome
        && posted == old(posted) + step.posted
      ensures Config() == old(Config())
    {
      Clear();
      var body := RequestBody(Config(), name, params, codec);
      var fetch := Fetch(body, transport);
      if fetch.FetchFailed? {
        return Throws(TransportError(fetch.reason));
      }
      ghost var cleared := State();
      outcome := HandleResponse(name, params, fetch.value);
      assert cleared == Cleared(old(State()));
    }

    /** The part of apiQuery after the response is in hand, on the cleared
        state. */
    method HandleResponse(name: Bytes, params: Json, response: Json) returns (outcome: Outcome)
      modifies this`data, this`result, this`error, this`errorStr
      ensures Reaction(State(), outcome) == Answer(Config(), old(State()), response, name, params, codec)
    {
      if !Truthy(response) {
        return Throws(EmptyResponse(EmptyResponseMessage(apiUrl, name, params, login, codec)));
      }
      var verdict := Classify(response);
      if !verdict.Pass? {
        outcome := StoreErrorPair(name, params, verdict);
        return;
      }
      outcome := FinishCall(response);
    }

    /** The error pair branch of apiQuery: store the pair, then throw for a
        fatal one or go on with a false response. */
    method StoreErrorPair(name: Bytes, params: Json, verdict: Verdict) returns (outcome: Outcome)
      requires !verdict.Pass?
      modifies this`data, this`result, this`error, this`errorStr
      ensures Reaction(State(), outcome) == ErrorReaction(Config(), old(State()), verdict, name, params, codec)
    {
      SetError(verdict.code);
      SetErrorStr(verdict.str);
      if verdict.Fatal? {
        var full := GetErrorFull();
        return Throws(RemoteFatal(FatalMessage(name, full, login, params, codec)));
      }
      outcome := FinishCall(Bool(false));
    }

    /** The end of apiQuery for a response that did not throw: _data from its
        `data` key, then _result as the response without it. */
    method FinishCall(response: Json) returns (outcome: Outcome)
      modifies this`data, this`result
      ensures Reaction(State(), outcome) == Finish(old(State()), response)
    {
      SetData(Field(response, DataKey));
      if !CanUnset(response) {
        return Throws(OffsetError);
      }
      SetResult(Unset(response, DataKey));
      return ReturnsClient;
    }

    /** __call(name, args): apiQuery with the capitalised name and the first
        argument, or an empty array when there is none. */
    method Call(name: Bytes, args: seq<Json>, transport: Bytes -> Reply) returns (outcome: Outcome)
      modifies this
      ensures var step := Query(old(Config()), old(State()), old(store), Ucfirst(name), CallParams(args), transport, codec);
        && State() == step.state && store == step.store && outcome == step.outcome
        && posted == old(posted) + step.posted
      ensures Config() == old(Config())
    {
      var params := if |args| == 0 then Arr([]) else args[0];
      outcome := ApiQuery(Ucfirst(name), params, transport);
    }
  }
}
