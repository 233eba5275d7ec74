/** The parts of the Yandex.Direct v4 JSON client that both versions of
    DirectApi share word for word: endpoint selection, the authorization link,
    the request envelope and its string re-encoding, the argument choice of the
    dynamic dispatcher and the error classifier. */
module Protocol {
  import opened Php
  import opened JsonValue

  const AuthorizeEndpoint: Bytes := Ascii("https://oauth.yandex.ru/authorize")
  const LiveApiUrl: Bytes := Ascii("https://api.direct.yandex.ru/live/v4/json/")
  const SandboxApiUrl: Bytes := Ascii("https://api-sandbox.direct.yandex.ru/live/v4/json/")

  /** The error string the API returns when a campaign has no statistics
      ("Нет статистики для данной кампании", as UTF-8 bytes); the client treats
      it as an empty result, whatever the error code. */
  const NoStatistics: Bytes :=
    [0xD0, 0x9D, 0xD0, 0xB5, 0xD1, 0x82, 0x20, 0xD1, 0x81, 0xD1, 0x82, 0xD0, 0xB0, 0xD1, 0x82, 0xD0,
     0xB8, 0xD1, 0x81, 0xD1, 0x82, 0xD0, 0xB8, 0xD0, 0xBA, 0xD0, 0xB8, 0x20, 0xD0, 0xB4, 0xD0, 0xBB,
     0xD1, 0x8F, 0x20, 0xD0, 0xB4, 0xD0, 0xB0, 0xD0, 0xBD, 0xD0, 0xBD, 0xD0, 0xBE, 0xD0, 0xB9, 0x20,
     0xD0, 0xBA, 0xD0, 0xB0, 0xD0, 0xBC, 0xD0, 0xBF, 0xD0, 0xB0, 0xD0, 0xBD, 0xD0, 0xB8, 0xD0, 0xB8]

  /** The keys of the response that apiQuery reads. */
  const DataKey: Bytes := Ascii("data")
  const ErrorCodeKey: Bytes := Ascii("error_code")
  const ErrorStrKey: Bytes := Ascii("error_str")

  /** Error codes that make a call fail. */
  const FatalCodes: set<int> := {53, 54, 58, 510, 251, 513}

  /** "Не удается открыть адрес: " as UTF-8 bytes. */
  const CannotOpen: Bytes :=
    [0xD0, 0x9D, 0xD0, 0xB5, 0x20, 0xD1, 0x83, 0xD0, 0xB4, 0xD0, 0xB0, 0xD0, 0xB5, 0xD1, 0x82, 0xD1,
     0x81, 0xD1, 0x8F, 0x20, 0xD0, 0xBE, 0xD1, 0x82, 0xD0, 0xBA, 0xD1, 0x80, 0xD1, 0x8B, 0xD1, 0x82,
     0xD1, 0x8C, 0x20, 0xD0, 0xB0, 0xD0, 0xB4, 0xD1, 0x80, 0xD0, 0xB5, 0xD1, 0x81, 0x3A, 0x20]
  /** " Логин: " as UTF-8 bytes. */
  const LoginLabel: Bytes := [0x20, 0xD0, 0x9B, 0xD0, 0xBE, 0xD0, 0xB3, 0xD0, 0xB8, 0xD0, 0xBD, 0x3A, 0x20]
  /** "Запрос " as UTF-8 bytes. */
  const RequestLabel: Bytes := [0xD0, 0x97, 0xD0, 0xB0, 0xD0, 0xBF, 0xD1, 0x80, 0xD0, 0xBE, 0xD1, 0x81, 0x20]

  /** What the HTTP transport does with one POST: the response body, or the
      transfer error cURL reports. */
  datatype Reply = Failed(reason: Bytes) | Received(raw: Bytes)

  /** The JSON library: the encoder and the decoder, kept abstract. */
  datatype Codec = Codec(encode: Json -> Bytes, decode: Bytes -> Json)

  /** An encoder that gives different texts to different PHP values. Values
      that are not well formed are left out: they stand for no PHP value, or
      for the same one as some well-formed value. */
  ghost predicate Injective(encode: Json -> Bytes) {
    forall a, b :: WellFormed(a) && WellFormed(b) && encode(a) == encode(b) ==> a == b
  }

  /** The texts of the exceptions apiQuery throws, by their parts. */
  datatype Message =
    | CannotOpenAddress(apiUrl: Bytes, request: Bytes, login: Json)
    | RequestError(name: Bytes, errorFull: Bytes, login: Json, tail: Bytes)

  /** The bytes of a message: the cannot-open label, the URL, the request in
      parentheses and the login label with the login; or the request label,
      the method, the full error, the login suffix and the tail. */
  function MessageText(m: Message): (r: Bytes)
    ensures m.CannotOpenAddress? ==> CannotOpen <= r
    ensures m.RequestError? ==> RequestLabel <= r
  {
    match m
    case CannotOpenAddress(url, request, login) =>
      CannotOpen + url + Ascii(". (") + request + Ascii(")") + LoginLabel + ToPhpString(login)
    case RequestError(name, full, login, tail) =>
      RequestLabel + name + Ascii(": ") + full + LoginSuffix(login) + tail
  }

  /** The two kinds of message never read the same: their labels differ in
      the fourth byte. */
  lemma MessageKindsDiffer(m1: Message, m2: Message)
    requires m1.CannotOpenAddress? && m2.RequestError?
    ensures MessageText(m1) != MessageText(m2)
  {
    assert MessageText(m1)[3] == CannotOpen[3] == 0xB5;
    assert MessageText(m2)[3] == RequestLabel[3] == 0xB0;
  }

  /** The "cannot open" message names the URL, the request and the login. */
  lemma CannotOpenNames(url: Bytes, request: Bytes, login: Json)
    ensures var text := MessageText(CannotOpenAddress(url, request, login));
      Contains(text, url) && Contains(text, request) && Contains(text, ToPhpString(login))
  {
    var who := ToPhpString(login);
    var m1 := CannotOpen + url;
    var m2 := m1 + Ascii(". (");
    var m3 := m2 + request;
    var m5 := m3 + Ascii(")") + LoginLabel;
    ContainsItself(url);
    ContainsInRight(CannotOpen, url, url);
    ContainsInLeft(m1, Ascii(". ("), url);
    ContainsInLeft(m2, request, url);
    ContainsItself(request);
    ContainsInRight(m2, request, request);
    forall needle | Contains(m3, needle) ensures Contains(m5 + who, needle) {
      ContainsInLeft(m3, Ascii(")"), needle);
      ContainsInLeft(m3 + Ascii(")"), LoginLabel, needle);
      ContainsInLeft(m5, who, needle);
    }
    ContainsItself(who);
    ContainsInRight(m5, who, who);
  }

  /** A failed request's message names the method, the full error and the
      tail. */
  lemma RequestErrorNames(name: Bytes, full: Bytes, login: Json, tail: Bytes)
    ensures var text := MessageText(RequestError(name, full, login, tail));
      Contains(text, name) && Contains(text, full) && Contains(text, tail)
  {
    var m1 := RequestLabel + name;
    var m2 := m1 + Ascii(": ");
    var m4 := m2 + full + LoginSuffix(login);
    ContainsItself(name);
    ContainsInRight(RequestLabel, name, name);
    ContainsInLeft(m1, Ascii(": "), name);
    ContainsItself(full);
    ContainsInRight(m2, full, full);
    forall needle | Contains(m2 + full, needle) ensures Contains(m4 + tail, needle) {
      ContainsInLeft(m2 + full, LoginSuffix(login), needle);
      ContainsInLeft(m4, tail, needle);
    }
    ContainsInLeft(m2, full, name);
    ContainsItself(tail);
    ContainsInRight(m4, tail, tail);
  }

  /** The ways a call ends with an exception. */
  datatype Failure =
    | TransportError(reason: Bytes)   // the transfer failed before any response
    | EmptyResponse(message: Message) // the response decoded to a false value
    | RemoteFatal(message: Message)   // the API reported an error that must not be ignored
    | OffsetError                     // PHP cannot unset a key of a string, a number or true
    | ConversionError                 // PHP cannot join a stdClass object into a string

  // ---------------------------------------------------------------------------
  // Configuration (init)

  /** The API URL chosen once, at initialisation. */
  function ApiUrl(useSandbox: bool): (url: Bytes)
    ensures url == SandboxApiUrl <==> useSandbox
  {
    if useSandbox then SandboxApiUrl else LiveApiUrl
  }

  predicate IsScalar(v: Json) {
    !v.Arr? && !v.Obj?
  }

  /** How http_build_query writes a scalar value. */
  function QueryScalar(v: Json): Bytes
    requires IsScalar(v)
  {
    match v
    case Bool(b) => if b then ['1' as byte] else ['0' as byte]
    case Int(i) => DecimalString(i)
    case Str(s) => s
    case Null => []
  }

  datatype QueryPair = QueryPair(name: Bytes, value: Json)

  /** One "name=value" field, the value url-encoded. */
  function QueryField(pair: QueryPair): Bytes
    requires IsScalar(pair.value)
  {
    pair.name + Ascii("=") + UrlEncode(QueryScalar(pair.value))
  }

  /** PHP's http_build_query for scalar values: the fields joined by "&"; a
      pair whose value is null is left out. The names here are fixed
      identifiers that urlencode leaves unchanged, so they are written as they
      are. */
  function HttpBuildQuery(pairs: seq<QueryPair>): (q: Bytes)
    requires forall i :: 0 <= i < |pairs| ==> IsScalar(pairs[i].value)
    ensures q == [] <==> forall i :: 0 <= i < |pairs| ==> pairs[i].value.Null?
  {
    if pairs == [] then []
    else
      var rest := HttpBuildQuery(pairs[1..]);
      if pairs[0].value.Null? then rest
      else if rest == [] then QueryField(pairs[0])
      else QueryField(pairs[0]) + Ascii("&") + rest
  }

  /** Two pairs, the first not null: its field, then the second one's after
      "&" unless that value is null. */
  lemma HttpBuildQueryTwo(p: QueryPair, q: QueryPair)
    requires IsScalar(p.value) && IsScalar(q.value) && !p.value.Null?
    ensures HttpBuildQuery([p, q])
         == if q.value.Null? then QueryField(p) else QueryField(p) + Ascii("&") + QueryField(q)
  {
    assert [p, q][1..] == [q] && [q][1..] == [];
  }

  /** The authorization link built at initialisation. */
  function AuthorizeLink(responseType: Json, clientId: Json): Bytes
    requires IsScalar(responseType) && IsScalar(clientId)
  {
    AuthorizeEndpoint + Ascii("?")
      + HttpBuildQuery([QueryPair(Ascii("response_type"), responseType), QueryPair(Ascii("client_id"), clientId)])
  }

  /** The link carries the response type and, when it is not null, the client
      id, each url-encoded, in that order. */
  lemma AuthorizeLinkSpec(responseType: Json, clientId: Json)
    requires IsScalar(responseType) && IsScalar(clientId) && !responseType.Null?
    ensures var first := Ascii("response_type") + Ascii("=") + UrlEncode(QueryScalar(responseType));
            var second := Ascii("client_id") + Ascii("=") + UrlEncode(QueryScalar(clientId));
      AuthorizeLink(responseType, clientId)
        == AuthorizeEndpoint + Ascii("?") + (if clientId.Null? then first else first + Ascii("&") + second)
  {
    HttpBuildQueryTwo(QueryPair(Ascii("response_type"), responseType), QueryPair(Ascii("client_id"), clientId));
  }

  /** getAuthorizeUrl: the link, followed by "&state=" and the state only when
      the state is a true value. */
  function AuthorizeUrl(link: Bytes, state: Bytes): (url: Bytes)
    ensures |url| >= |link| && url[..|link|] == link
    ensures StrTruthy(state) <==> url != link
    ensures StrTruthy(state) ==> url[|link|..] == Ascii("&state=") + state
  {
    if StrTruthy(state) then link + Ascii("&state=") + state else link
  }

  // ---------------------------------------------------------------------------
  // Request envelope

  /** The keys of the request envelope. */
  const MethodKey: Bytes := Ascii("method")
  const ParamKey: Bytes := Ascii("param")
  const LocaleKey: Bytes := Ascii("locale")
  const ApplicationIdKey: Bytes := Ascii("application_id")
  const TokenKey: Bytes := Ascii("token")

  /** The request envelope of apiQuery, keys in the source's order. */
  function Envelope(name: Bytes, params: Json, locale: Json, clientId: Json, token: Json): Json {
    Obj([Member(MethodKey, Str(name)), Member(ParamKey, params), Member(LocaleKey, locale),
         Member(ApplicationIdKey, clientId), Member(TokenKey, token)])
  }

  /** The same structure with the same keys, and the same scalars except that
      a string may become another string. */
  predicate SameShape(a: Json, b: Json) {
    match a
    case Str(_) => b.Str?
    case Arr(items) =>
      b.Arr? && |b.items| == |items| && forall i :: 0 <= i < |items| ==> SameShape(items[i], b.items[i])
    case Obj(members) =>
      b.Obj? && |b.members| == |members|
      && forall i :: 0 <= i < |members| ==>
           b.members[i].key == members[i].key && SameShape(members[i].value, b.members[i].value)
    case _ => b == a
  }

  /** Being well formed depends on the shape alone. */
  lemma {:induction false} SameShapeKeepsWellFormed(a: Json, b: Json)
    requires SameShape(a, b) && WellFormed(a)
    ensures WellFormed(b)
  {
    match a
    case Arr(items) =>
      forall i | 0 <= i < |items| ensures WellFormed(b.items[i]) {
        SameShapeKeepsWellFormed(items[i], b.items[i]);
      }
    case Obj(members) =>
      forall i | 0 <= i < |members| ensures WellFormed(b.members[i].value) {
        SameShapeKeepsWellFormed(members[i].value, b.members[i].value);
      }
    case _ =>
  }

  /** DirectApi::utf8: rewrites every member of an array, keys untouched;
      anything but an array comes back as it is. */
  function Utf8(v: Json): (r: Json)
    ensures SameShape(v, r)
    decreases v, 0
  {
    match v
    case Arr(items) => Arr(seq(|items|, i requires 0 <= i < |items| => Utf8Value(items[i])))
    case Obj(members) =>
      Obj(seq(|members|, i requires 0 <= i < |members| => Member(members[i].key, Utf8Value(members[i].value))))
    case _ => v
  }

  /** One member's value inside utf8: a string goes through utf8_encode, an
      array through utf8 again, anything else stays. */
  function Utf8Value(v: Json): (r: Json)
    ensures SameShape(v, r)
    decreases v, 1
  {
    if v.Str? then Str(Utf8Encode(v.s)) else Utf8(v)
  }

  /** Every string value, at every depth, is ASCII. */
  predicate AsciiStrings(v: Json) {
    match v
    case Str(s) => IsAscii(s)
    case Arr(items) => forall i :: 0 <= i < |items| ==> AsciiStrings(items[i])
    case Obj(members) => forall i :: 0 <= i < |members| ==> AsciiStrings(members[i].value)
    case _ => true
  }

  /** A structure whose strings are ASCII goes through utf8 unchanged. */
  lemma {:induction false} Utf8KeepsAscii(v: Json)
    requires AsciiStrings(v)
    ensures Utf8Value(v) == v && Utf8(v) == v
  {
    match v
    case Str(s) =>
    case Arr(items) =>
      forall i | 0 <= i < |items| ensures Utf8Value(items[i]) == items[i] {
        Utf8KeepsAscii(items[i]);
      }
      assert Utf8(v).items == items;
    case Obj(members) =>
      forall i | 0 <= i < |members| ensures Utf8Value(members[i].value) == members[i].value {
        Utf8KeepsAscii(members[i].value);
      }
      assert Utf8(v).members == members;
    case _ =>
  }

  /** utf8 loses nothing: different values stay different. */
  lemma {:induction false} Utf8Injective(a: Json, b: Json)
    requires Utf8Value(a) == Utf8Value(b)
    ensures a == b
  {
    match a
    case Str(s) =>
      Utf8EncodeInjective(s, b.s);
    case Arr(items) =>
      forall i | 0 <= i < |items| ensures items[i] == b.items[i] {
        assert Utf8Value(a).items[i] == Utf8Value(b).items[i];
        Utf8Injective(items[i], b.items[i]);
      }
    case Obj(members) =>
      forall i | 0 <= i < |members| ensures members[i] == b.members[i] {
        assert Utf8Value(a).members[i] == Utf8Value(b).members[i];
        Utf8Injective(members[i].value, b.members[i].value);
      }
    case _ =>
  }

  /** utf8 is not idempotent: an array re-encoded twice differs from one
      re-encoded once as soon as one of its strings holds a byte above 0x7F. */
  lemma Utf8NotIdempotent()
    ensures exists v :: Utf8(Utf8(v)) != Utf8(v)
  {
    Utf8EncodeNotIdempotent();
    var s: Bytes :| Utf8Encode(Utf8Encode(s)) != Utf8Encode(s);
    var e := Utf8Encode(s);
    Utf8OfSingleton(Str(s));
    Utf8OfSingleton(Str(e));
    assert Utf8(Utf8(Arr([Str(s)]))) == Arr([Str(Utf8Encode(e))]);
  }

  lemma Utf8OfSingleton(x: Json)
    ensures Utf8(Arr([x])) == Arr([Utf8Value(x)])
  {
    assert Utf8(Arr([x])).items == [Utf8Value(x)];
  }

  /** The envelope is well formed when its values are: its five keys are
      distinct and none of them is "0". */
  lemma EnvelopeWellFormed(name: Bytes, params: Json, locale: Json, clientId: Json, token: Json)
    requires WellFormed(params) && WellFormed(locale) && WellFormed(clientId) && WellFormed(token)
    ensures WellFormed(Envelope(name, params, locale, clientId, token))
    ensures WellFormed(Utf8(Envelope(name, params, locale, clientId, token)))
  {
    var ms := Envelope(name, params, locale, clientId, token).members;
    assert MethodKey[0] == 'm' as byte && ParamKey[0] == 'p' as byte && LocaleKey[0] == 'l' as byte;
    assert ApplicationIdKey[0] == 'a' as byte && TokenKey[0] == 't' as byte;
    assert DecimalString(0) == ['0' as byte];
    assert ms[0].key != DecimalString(0);
    SameShapeKeepsWellFormed(Envelope(name, params, locale, clientId, token), Utf8(Envelope(name, params, locale, clientId, token)));
  }

  /** Equal envelopes come only from equal requests. */
  lemma EnvelopeInjective(m1: Bytes, p1: Json, l1: Json, c1: Json, t1: Json,
                          m2: Bytes, p2: Json, l2: Json, c2: Json, t2: Json)
    ensures Envelope(m1, p1, l1, c1, t1) == Envelope(m2, p2, l2, c2, t2)
        <==> m1 == m2 && p1 == p2 && l1 == l2 && c1 == c2 && t1 == t2
  {
    if Envelope(m1, p1, l1, c1, t1) == Envelope(m2, p2, l2, c2, t2) {
      var e1, e2 := Envelope(m1, p1, l1, c1, t1).members, Envelope(m2, p2, l2, c2, t2).members;
      assert e1[0] == e2[0] && e1[1] == e2[1] && e1[2] == e2[2] && e1[3] == e2[3] && e1[4] == e2[4];
    }
  }

  /** The envelope after utf8, as it is serialized: equal bodies come only from
      equal requests. */
  lemma RequestInjective(m1: Bytes, p1: Json, l1: Json, c1: Json, t1: Json,
                         m2: Bytes, p2: Json, l2: Json, c2: Json, t2: Json)
    ensures Utf8(Envelope(m1, p1, l1, c1, t1)) == Utf8(Envelope(m2, p2, l2, c2, t2))
        <==> m1 == m2 && p1 == p2 && l1 == l2 && c1 == c2 && t1 == t2
  {
    EnvelopeInjective(m1, p1, l1, c1, t1, m2, p2, l2, c2, t2);
    if Utf8(Envelope(m1, p1, l1, c1, t1)) == Utf8(Envelope(m2, p2, l2, c2, t2)) {
      assert Utf8Value(Envelope(m1, p1, l1, c1, t1)) == Utf8(Envelope(m1, p1, l1, c1, t1));
      assert Utf8Value(Envelope(m2, p2, l2, c2, t2)) == Utf8(Envelope(m2, p2, l2, c2, t2));
      Utf8Injective(Envelope(m1, p1, l1, c1, t1), Envelope(m2, p2, l2, c2, t2));
    }
  }

  // ---------------------------------------------------------------------------
  // Dynamic dispatch

  /** The parameter bag __call forwards: the first argument, or an empty array
      when there is none; any further argument is dropped. */
  function CallParams(args: seq<Json>): Json {
    if |args| == 0 then Arr([]) else args[0]
  }

  // ---------------------------------------------------------------------------
  // Error classifier

  datatype Verdict =
    | Pass                                // no error pair in the response
    | Suppressed(code: Json, str: Json)   // an error pair the call absorbs
    | Fatal(code: Json, str: Json)        // an error pair the call throws on

  /** The decimal strings of the fatal codes. */
  const FatalCodeStrings: set<Bytes> :=
    {Ascii("53"), Ascii("54"), Ascii("58"), Ascii("510"), Ascii("251"), Ascii("513")}

  /** `in_array($code, FatalCodes)` under PHP 8's loose comparison: an integer
      in the set, true (which equals every non-zero number), or a string that
      is the decimal form of a code in the set. */
  predicate IsFatalCode(code: Json) {
    match code
    case Int(i) => i in FatalCodes
    case Bool(b) => b
    case Str(s) => s in FatalCodeStrings
    case _ => false
  }

  /** `$str == sentinel` under loose comparison: the sentinel itself, or true,
      which equals every non-empty string. */
  predicate IsSentinel(str: Json) {
    str == Str(NoStatistics) || str == Bool(true)
  }

  /** The error pair check of apiQuery: both error_code and error_str must be
      set; the call throws unless the string is the "no statistics" sentinel or
      the code is outside the fatal set. */
  function Classify(response: Json): Verdict {
    if Isset(response, ErrorCodeKey) && Isset(response, ErrorStrKey) then
      var code, str := Field(response, ErrorCodeKey), Field(response, ErrorStrKey);
      if !IsSentinel(str) && IsFatalCode(code) then Fatal(code, str)
      else Suppressed(code, str)
    else Pass
  }

  /** The string codes that count are exactly the decimal forms of the codes. */
  lemma FatalCodeStringsAreDecimal()
    ensures forall c :: c in FatalCodes <==> IsFatalCode(Str(DecimalString(c)))
  {
    assert DecimalString(53) == Ascii("53") && DecimalString(54) == Ascii("54") && DecimalString(58) == Ascii("58");
    assert DecimalString(510) == Ascii("510") && DecimalString(251) == Ascii("251") && DecimalString(513) == Ascii("513");
    forall c | DecimalString(c) in FatalCodeStrings ensures c in FatalCodes {
      var d := DecimalString(c);
      var k := if d == Ascii("53") then 53 else if d == Ascii("54") then 54 else if d == Ascii("58") then 58
               else if d == Ascii("510") then 510 else if d == Ascii("251") then 251 else 513;
      DecimalStringInjective(c, k);
    }
  }

  /** The three outcomes of the classifier, each with its exact condition. */
  lemma ClassifySpec(response: Json)
    ensures var code, str := Field(response, ErrorCodeKey), Field(response, ErrorStrKey);
      && (Classify(response).Pass? <==> code.Null? || str.Null?)
      && (Classify(response).Fatal? <==> !code.Null? && !str.Null? && !IsSentinel(str) && IsFatalCode(code))
      && (!Classify(response).Pass? ==> Classify(response).code == code && Classify(response).str == str)
  {
  }

  /** The sentinel string never makes a call fail, whatever the code. */
  lemma SentinelNeverFatal(response: Json)
    requires Field(response, ErrorStrKey) == Str(NoStatistics)
    ensures !Classify(response).Fatal?
  {
  }

  /** getErrorFull: the code, the string and the detail, separated by spaces. */
  function ErrorFull(error: Json, errorStr: Json, errorDetail: Json): Bytes {
    ToPhpString(error) + Ascii(" ") + ToPhpString(errorStr) + Ascii(" ") + ToPhpString(errorDetail)
  }

  /** The full error names the error string. */
  lemma ErrorFullNamesString(error: Json, errorStr: Json, errorDetail: Json)
    ensures Contains(ErrorFull(error, errorStr, errorDetail), ToPhpString(errorStr))
  {
    var head := ToPhpString(error) + Ascii(" ");
    var str := ToPhpString(errorStr);
    ContainsItself(str);
    ContainsInRight(head, str, str);
    ContainsInLeft(head + str, Ascii(" "), str);
    ContainsInLeft(head + str + Ascii(" "), ToPhpString(errorDetail), str);
  }

  /** The login part of a fatal error's message: " login." for a true login. */
  function LoginSuffix(login: Json): Bytes {
    if Truthy(login) then Ascii(" ") + ToPhpString(login) + Ascii(".") else []
  }
}
