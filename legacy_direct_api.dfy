/** The first version of the client, DirectApi.php at the repository's root:
    no cache, responses decoded to objects, only the error fields cleared
    before a call, and apiQuery returning the response itself. */
module LegacyDirectApi {
  import opened Php
  import opened JsonValue
  import opened Protocol

  /** The configuration a call reads. */
  datatype Settings = Settings(apiUrl: Bytes, clientId: Json, locale: Json, token: Json, login: Json)

  /** The call state: _data, _error, _errorStr and _errorDetail. */
  datatype CallState = CallState(data: Json, error: Json, errorStr: Json, errorDetail: Json)

  /** apiQuery returns a value (the response, or false) or throws. */
  datatype Outcome = Returns(value: Json) | Throws(failure: Failure)

  /** What one call does: the new call state, the bodies it posted and how it
      ended. */
  datatype Step = Step(state: CallState, posted: seq<Bytes>, outcome: Outcome)

  /** How a call treats the decoded response: the new call state and how the
      call ends. */
  datatype Reaction = Reaction(state: CallState, outcome: Outcome)

  /** The state after clearErrors(): _data is not touched. */
  function ErrorsCleared(st: CallState): CallState {
    st.(error := Null, errorStr := Null, errorDetail := Null)
  }

  /** The serialized request: the envelope, re-encoded by utf8, then encoded. */
  function RequestBody(s: Settings, name: Bytes, params: Json, codec: Codec): Bytes {
    codec.encode(Utf8(Envelope(name, params, s.locale, s.clientId, s.token)))
  }

  /** After clearErrors() getErrorFull gives two spaces; _data is kept, and a
      second clearErrors() changes nothing. */
  lemma ErrorsClearedSpec(st: CallState)
    ensures var c := ErrorsCleared(st);
      && c.data == st.data && ErrorsCleared(c) == c
      && ErrorFullOf(c.error, c.errorStr, c.errorDetail) == Converted(Ascii("  "))
  {
  }

  /** With an injective encoder, two calls post the same body exactly when
      they send the same method, parameters, locale, application and token. */
  lemma RequestBodyIdentifiesCall(s1: Settings, name1: Bytes, params1: Json,
                                  s2: Settings, name2: Bytes, params2: Json, codec: Codec)
    requires Injective(codec.encode)
    requires WellFormed(params1) && WellFormed(s1.locale) && WellFormed(s1.clientId) && WellFormed(s1.token)
    requires WellFormed(params2) && WellFormed(s2.locale) && WellFormed(s2.clientId) && WellFormed(s2.token)
    ensures RequestBody(s1, name1, params1, codec) == RequestBody(s2, name2, params2, codec)
        <==> && name1 == name2 && params1 == params2
             && s1.locale == s2.locale && s1.clientId == s2.clientId && s1.token == s2.token
  {
    EnvelopeWellFormed(name1, params1, s1.locale, s1.clientId, s1.token);
    EnvelopeWellFormed(name2, params2, s2.locale, s2.clientId, s2.token);
    RequestInjective(name1, params1, s1.locale, s1.clientId, s1.token, name2, params2, s2.locale, s2.clientId, s2.token);
  }

  /** The message of the exception for a false response: the request part is
      the whole serialized request. */
  function EmptyResponseMessage(apiUrl: Bytes, body: Bytes, login: Json): (r: Message)
    ensures MessageText(r) == CannotOpen + apiUrl + Ascii(". (") + body + Ascii(")") + LoginLabel + ToPhpString(login)
  {
    CannotOpenAddress(apiUrl, body, login)
  }

  /** The message of the exception for a fatal error pair; unlike the current
      version it does not repeat the method and its parameters. */
  function FatalMessage(name: Bytes, errorFull: Bytes, login: Json): (r: Message)
    ensures MessageText(r) == RequestLabel + name + Ascii(": ") + errorFull + LoginSuffix(login)
  {
    RequestError(name, errorFull, login, [])
  }

  /** The end of a call that did not throw: _data from the `data` property,
      and the response itself as the result. */
  function Finish(st: CallState, response: Json): Reaction {
    Reaction(st.(data := Field(response, DataKey)), Returns(response))
  }

  /** getErrorFull after an object decode: code, string and detail joined by
      spaces, which fails when one of them is a stdClass object. */
  function ErrorFullOf(error: Json, errorStr: Json, errorDetail: Json): (r: Converted)
    ensures r.NotConvertible? <==> error.Obj? || errorStr.Obj? || errorDetail.Obj?
    ensures r.Converted? ==> r.text == ErrorFull(error, errorStr, errorDetail)
  {
    match (ToPhpStringAsObject(error), ToPhpStringAsObject(errorStr), ToPhpStringAsObject(errorDetail))
    case (Converted(e), Converted(t), Converted(d)) => Converted(e + Ascii(" ") + t + Ascii(" ") + d)
    case _ => NotConvertible
  }

  /** What apiQuery does with an error pair it found in the response: the
      pair is stored, and a fatal one throws (with the request error, or with
      the conversion Error when getErrorFull cannot be built) while any other
      one makes the response false. */
  function ErrorReaction(s: Settings, cleared: CallState, verdict: Verdict, name: Bytes): Reaction
    requires !verdict.Pass?
  {
    var failed := cleared.(error := verdict.code, errorStr := verdict.str);
    if verdict.Fatal? then
      match ErrorFullOf(failed.error, failed.errorStr, failed.errorDetail)
      case NotConvertible => Reaction(failed, Throws(ConversionError))
      case Converted(full) => Reaction(failed, Throws(RemoteFatal(FatalMessage(name, full, s.login))))
    else
      Finish(failed, Bool(false))
  }

  /** What apiQuery does with a decoded response, from the state with cleared
      errors. `->data` reads null on anything but an object that has it. */
  function Answer(s: Settings, cleared: CallState, response: Json, name: Bytes, body: Bytes): Reaction
  {
    if !TruthyAsObject(response) then
      Reaction(cleared, Throws(EmptyResponse(EmptyResponseMessage(s.apiUrl, body, s.login))))
    else if Classify(response).Pass? then
      Finish(cleared, response)
    else
      ErrorReaction(s, cleared, Classify(response), name)
  }

  /** apiQuery(name, params) as a function of the client's state: one POST,
      then the decoded response. */
  function Query(s: Settings, st: CallState, name: Bytes, params: Json,
                 transport: Bytes -> Reply, codec: Codec): Step
  {
    var body := RequestBody(s, name, params, codec);
    match transport(body)
    case Failed(reason) => Step(ErrorsCleared(st), [body], Throws(TransportError(reason)))
    case Received(raw) =>
      var r := Answer(s, ErrorsCleared(st), codec.decode(raw), name, body);
      Step(r.state, [body], r.outcome)
  }

  // ---------------------------------------------------------------------------
  // Properties of a call

  /** Every call posts its serialized request exactly once. */
  lemma EveryCallPostsOnce(s: Settings, st: CallState, name: Bytes, params: Json,
                           transport: Bytes -> Reply, codec: Codec)
    ensures Query(s, st, name, params, transport, codec).posted == [RequestBody(s, name, params, codec)]
  {
  }

  /** A call that throws leaves _data as the previous call left it, and sets
      the error fields only for a fatal error pair. */
  lemma ThrowKeepsData(s: Settings, st: CallState, name: Bytes, params: Json,
                       transport: Bytes -> Reply, codec: Codec)
    requires Query(s, st, name, params, transport, codec).outcome.Throws?
    ensures var step := Query(s, st, name, params, transport, codec);
      && step.state.data == st.data && step.state.errorDetail == Null
      && (!step.outcome.failure.RemoteFatal? && !step.outcome.failure.ConversionError? ==>
            step.state.error == Null && step.state.errorStr == Null)
  {
  }

  /** A call that returns gives back either the response or false, and
      _errorDetail is null. */
  lemma ReturnsResponseOrFalse(s: Settings, st: CallState, name: Bytes, params: Json,
                               transport: Bytes -> Reply, codec: Codec)
    requires Query(s, st, name, params, transport, codec).outcome.Returns?
    ensures var body := RequestBody(s, name, params, codec);
      var step := Query(s, st, name, params, transport, codec);
      && transport(body).Received?
      && (step.outcome.value == codec.decode(transport(body).raw) || step.outcome.value == Bool(false))
      && step.state.errorDetail == Null
  {
  }

  /** A false response (null, false, 0, "", "0" or an empty list) makes the
      call throw a message naming the API URL, the serialized request and the
      login. */
  lemma EmptyResponseThrows(s: Settings, st: CallState, name: Bytes, params: Json,
                            transport: Bytes -> Reply, codec: Codec)
    requires var body := RequestBody(s, name, params, codec);
      transport(body).Received? && !TruthyAsObject(codec.decode(transport(body).raw))
    ensures var body := RequestBody(s, name, params, codec);
      var step := Query(s, st, name, params, transport, codec);
      && step.state == ErrorsCleared(st)
      && step.outcome == Throws(EmptyResponse(EmptyResponseMessage(s.apiUrl, body, s.login)))
      && Contains(MessageText(step.outcome.failure.message), s.apiUrl)
      && Contains(MessageText(step.outcome.failure.message), body)
      && Contains(MessageText(step.outcome.failure.message), ToPhpString(s.login))
  {
    CannotOpenNames(s.apiUrl, RequestBody(s, name, params, codec), s.login);
  }

  /** Objects decode to PHP objects, which are always true: even an empty
      object does not count as a false response. */
  lemma ObjectResponseIsNeverEmpty(s: Settings, st: CallState, name: Bytes, params: Json,
                                   transport: Bytes -> Reply, codec: Codec)
    requires var body := RequestBody(s, name, params, codec);
      transport(body).Received? && codec.decode(transport(body).raw).Obj?
    ensures !Query(s, st, name, params, transport, codec).outcome.Throws?
         || !Query(s, st, name, params, transport, codec).outcome.failure.EmptyResponse?
  {
  }

  /** A fatal error pair is stored in _error and _errorStr. When error_str is
      an object, getErrorFull cannot convert it and the call ends in that
      Error; otherwise it throws "Запрос {method}: " + getErrorFull() + the
      login part, a message that names the method and the error string. */
  lemma FatalErrorThrows(s: Settings, st: CallState, name: Bytes, params: Json,
                         transport: Bytes -> Reply, codec: Codec)
    requires var body := RequestBody(s, name, params, codec);
      transport(body).Received? && Classify(codec.decode(transport(body).raw)).Fatal?
    ensures var verdict := Classify(codec.decode(transport(RequestBody(s, name, params, codec)).raw));
      var step := Query(s, st, name, params, transport, codec);
      && step.state == ErrorsCleared(st).(error := verdict.code, errorStr := verdict.str)
      && (verdict.str.Obj? ==> step.outcome == Throws(ConversionError))
      && (!verdict.str.Obj? ==>
            && step.outcome == Throws(RemoteFatal(FatalMessage(name, ErrorFull(verdict.code, verdict.str, Null), s.login)))
            && Contains(MessageText(step.outcome.failure.message), name)
            && Contains(MessageText(step.outcome.failure.message), ToPhpString(verdict.str)))
  {
    var verdict := Classify(codec.decode(transport(RequestBody(s, name, params, codec)).raw));
    FatalMessageNames(name, verdict.code, verdict.str, s.login);
  }

  /** The fatal message names the method and the error string. */
  lemma FatalMessageNames(name: Bytes, code: Json, str: Json, login: Json)
    ensures var text := MessageText(FatalMessage(name, ErrorFull(code, str, Null), login));
      Contains(text, name) && Contains(text, ToPhpString(str))
  {
    var full := ErrorFull(code, str, Null);
    RequestErrorNames(name, full, login, []);
    ErrorFullNamesString(code, str, Null);
    ContainsTransitive(MessageText(FatalMessage(name, full, login)), full, ToPhpString(str));
  }

  /** A non-fatal error pair is stored, _data becomes null and the call
      returns false. */
  lemma SuppressedErrorReturnsFalse(s: Settings, st: CallState, name: Bytes, params: Json,
                                    transport: Bytes -> Reply, codec: Codec)
    requires var body := RequestBody(s, name, params, codec);
      transport(body).Received? && Classify(codec.decode(transport(body).raw)).Suppressed?
    ensures var verdict := Classify(codec.decode(transport(RequestBody(s, name, params, codec)).raw));
      var step := Query(s, st, name, params, transport, codec);
      && step.outcome == Returns(Bool(false))
      && step.state == CallState(Null, verdict.code, verdict.str, Null)
  {
  }

  /** A true response without an error pair is returned whole, and _data is
      its `data` member (null when it has none or is not an object). */
  lemma SuccessReturnsWholeResponse(s: Settings, st: CallState, name: Bytes, params: Json,
                                    transport: Bytes -> Reply, codec: Codec)
    requires var body := RequestBody(s, name, params, codec);
      && transport(body).Received?
      && TruthyAsObject(codec.decode(transport(body).raw)) && Classify(codec.decode(transport(body).raw)).Pass?
    ensures var response := codec.decode(transport(RequestBody(s, name, params, codec)).raw);
      var step := Query(s, st, name, params, transport, codec);
      && step.outcome == Returns(response)
      && step.state == CallState(Field(response, DataKey), Null, Null, Null)
      && (!response.Obj? ==> step.state.data == Null)
  {
  }

  /** A transfer error throws before anything but the error fields changed. */
  lemma TransportFailureThrows(s: Settings, st: CallState, name: Bytes, params: Json,
                               transport: Bytes -> Reply, codec: Codec)
    requires transport(RequestBody(s, name, params, codec)).Failed?
    ensures var step := Query(s, st, name, params, transport, codec);
      && step.outcome == Throws(TransportError(transport(RequestBody(s, name, params, codec)).reason))
      && step.state == ErrorsCleared(st)
  {
  }

  // ---------------------------------------------------------------------------
  // The component

  class Client {
    var clientId: Json
    var locale: Json
    /** _apiUrl and _authorizeLink: chosen once, by init. */
    const apiUrl: Bytes
    const authorizeLink: Bytes
    /** _token and _login */
    var token: Json
    var login: Json
    /** _data, _error, _errorStr and _errorDetail */
    var data: Json
    var error: Json
    var errorStr: Json
    var errorDetail: Json
    /** The JSON library. */
    const codec: Codec
    /** The bodies posted to the transport so far. */
    ghost var posted: seq<Bytes>

    function Config(): Settings
      reads this
    {
      Settings(apiUrl, clientId, locale, token, login)
    }

    function State(): CallState
      reads this
    {
      CallState(data, error, errorStr, errorDetail)
    }

    /** Construction with its configuration, then init(): the API URL by the
        sandbox flag, the authorization link from the response type and the
        client id, and the application's language when no locale is set. */
    constructor (clientId: Json, locale: Json, responseType: Json, useSandbox: bool, appLanguage: Json, codec: Codec)
      requires IsScalar(responseType) && IsScalar(clientId)
      ensures apiUrl == ApiUrl(useSandbox) && authorizeLink == AuthorizeLink(responseType, clientId)
      ensures this.clientId == clientId && this.locale == (if Truthy(locale) then locale else appLanguage)
      ensures token == Null && login == Null
      ensures State() == CallState(Null, Null, Null, Null)
      ensures this.codec == codec && posted == []
    {
      this.clientId, this.locale := clientId, locale;
      apiUrl := ApiUrl(useSandbox);
      authorizeLink := AuthorizeLink(responseType, clientId);
      if !Truthy(locale) {
        this.locale := appLanguage;
      }
      token, login := Null, Null;
      data, error, errorStr, errorDetail := Null, Null, Null, Null;
      this.codec, posted := codec, [];
    }

    /** getAuthorizeUrl(state) */
    method GetAuthorizeUrl(state: Bytes) returns (url: Bytes)
      ensures url == AuthorizeUrl(authorizeLink, state)
    {
      url := AuthorizeUrl(authorizeLink, state);
    }

    method SetToken(t: Json)
      modifies this`token
      ensures token == t
    {
      token := t;
    }

    method SetLogin(l: Json)
      modifies this`login
      ensures login == l
    {
      login := l;
    }

    method SetData(d: Json)
      modifies this`data
      ensures data == d
    {
      data := d;
    }

    method SetError(e: Json)
      modifies this`error
      ensures error == e
    {
      error := e;
    }

    method SetErrorStr(e: Json)
      modifies this`errorStr
      ensures errorStr == e
    {
      errorStr := e;
    }

    method GetApiUrl() returns (url: Bytes)
      ensures url == apiUrl
    {
      url := apiUrl;
    }

    method GetData() returns (d: Json)
      ensures d == data
    {
      d := data;
    }

    method GetError() returns (e: Json)
      ensures e == error
    {
      e := error;
    }

    method GetErrorStr() returns (e: Json)
      ensures e == errorStr
    {
      e := errorStr;
    }

    method GetLogin() returns (l: Json)
      ensures l == login
    {
      l := login;
    }

    method GetErrorFull() returns (full: Converted)
      ensures full == ErrorFullOf(error, errorStr, errorDetail)
    {
      full := ErrorFullOf(error, errorStr, errorDetail);
    }

    method ClearErrors()
      modifies this`error, this`errorStr, this`errorDetail
      ensures State() == ErrorsCleared(old(State()))
    {
      error, errorStr, errorDetail := Null, Null, Null;
    }

    /** _execCurl: one POST of the body. */
    method ExecCurl(body: Bytes, transport: Bytes -> Reply) returns (reply: Reply)
      modifies this`posted
      ensures reply == transport(body) && posted == old(posted) + [body]
    {
      posted := posted + [body];
      reply := transport(body);
    }

    /** apiQuery(name, params), step by step as the source performs it. */
    method ApiQuery(name: Bytes, params: Json, transport: Bytes -> Reply) returns (outcome: Outcome)
      modifies this
      ensures var step := Query(old(Config()), old(State()), name, params, transport, codec);
        && State() == step.state && outcome == step.outcome && posted == old(posted) + step.posted
      ensures Config() == old(Config())
    {
      ClearErrors();
      var body := RequestBody(Config(), name, params, codec);
      var reply := ExecCurl(body, transport);
      if reply.Failed? {
        return Throws(TransportError(reply.reason));
      }
      outcome := HandleResponse(name, body, codec.decode(reply.raw));
    }

    /** The part of apiQuery after the response is decoded, on the state with
        cleared errors. */
    method HandleResponse(name: Bytes, body: Bytes, response: Json) returns (outcome: Outcome)
      modifies this`data, this`error, this`errorStr
      ensures Reaction(State(), outcome) == Answer(Config(), old(State()), response, name, body)
    {
      if !TruthyAsObject(response) {
        return Throws(EmptyResponse(EmptyResponseMessage(apiUrl, body, login)));
      }
      var verdict := Classify(response);
      if !verdict.Pass? {
        outcome := StoreErrorPair(name, verdict);
        return;
      }
      outcome := FinishCall(response);
    }

    /** The error pair branch of apiQuery: store the pair, then throw for a
        fatal one or go on with a false response. */
    method StoreErrorPair(name: Bytes, verdict: Verdict) returns (outcome: Outcome)
      requires !verdict.Pass?
      modifies this`data, this`error, this`errorStr
      ensures Reaction(State(), outcome) == ErrorReaction(Config(), old(State()), verdict, name)
    {
      SetError(verdict.code);
      SetErrorStr(verdict.str);
      if verdict.Fatal? {
        var full := GetErrorFull();
        if full.NotConvertible? {
          return Throws(ConversionError);
        }
        return Throws(RemoteFatal(FatalMessage(name, full.text, login)));
      }
      outcome := FinishCall(Bool(false));
    }

    /** The end of apiQuery for a response that did not throw. */
    method FinishCall(response: Json) returns (outcome: Outcome)
      modifies this`data
      ensures Reaction(State(), outcome) == Finish(old(State()), response)
    {
      SetData(Field(response, DataKey));
      return Returns(response);
    }

    /** __call(name, args): apiQuery with the capitalised name and the first
        argument, or an empty array when there is none. */
    method Call(name: Bytes, args: seq<Json>, transport: Bytes -> Reply) returns (outcome: Outcome)
      modifies this
      ensures var step := Query(old(Config()), old(State()), Ucfirst(name), CallParams(args), transport, codec);
        && State() == step.state && outcome == step.outcome && posted == old(posted) + step.posted
      ensures Config() == old(Config())
    {
      var params := if |args| == 0 then Arr([]) else args[0];
      outcome := ApiQuery(Ucfirst(name), params, transport);
    }
  }
}
