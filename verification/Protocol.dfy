/** The wire protocol: messages, their JSON form, and the tagged parser.

    JSON text syntax is library code, so a WebSocket text is either not JSON at
    all or stands for one JSON value. */
module Protocol {
  import opened Wrappers

  type StringMap = map<string, string>

  type u16 = n: int | 0 <= n < 0x1_0000

  /** What an adapter passes to the core; the core adds the request id. */
  datatype IncomingRequest = IncomingRequest(
    service: string, verb: string, path: string,
    query: StringMap, headers: StringMap, body: Option<string>)

  datatype TunnelRequest = TunnelRequest(
    msgType: string, requestId: string, service: string, verb: string, path: string,
    query: StringMap, headers: StringMap, body: Option<string>)

  datatype TunnelResponse = TunnelResponse(
    msgType: string, requestId: string, status: u16,
    headers: StringMap, body: Option<string>, bodyEncoding: Option<string>)

  datatype AuthMessage = AuthMessage(msgType: string, token: string, service: string)

  datatype AuthOkMessage = AuthOkMessage(msgType: string)

  datatype AuthErrorMessage = AuthErrorMessage(msgType: string, message: string)

  datatype Message =
    | Auth(auth: AuthMessage)
    | AuthOk(ok: AuthOkMessage)
    | AuthError(error: AuthErrorMessage)
    | Request(request: TunnelRequest)
    | Response(response: TunnelResponse)
  {
    /** The `type` field the message was built with. */
    function Tag(): string {
      match this
      case Auth(m) => m.msgType
      case AuthOk(m) => m.msgType
      case AuthError(m) => m.msgType
      case Request(m) => m.msgType
      case Response(m) => m.msgType
    }

    /** The `type` value under which the parser accepts this kind of message. */
    function Kind(): string {
      match this
      case Auth(_) => "auth"
      case AuthOk(_) => "auth_ok"
      case AuthError(_) => "auth_error"
      case Request(_) => "request"
      case Response(_) => "response"
    }
  }

  datatype Json =
    | Null
    | Bool(b: bool)
    | Integer(n: int)
    | Float(x: real)
    | Str(s: string)
    | Array(items: seq<Json>)
    | Object(fields: map<string, Json>)

  type Fields = map<string, Json>

  datatype Text = NotJson(raw: string) | Document(value: Json)

  datatype ParseError = InvalidJson | MissingType | InvalidFields(kind: string) | UnknownType(kind: string)

  // ---- Field decoding: the conversions the derived deserializers perform ----

  /** A required string field. */
  function StringField(f: Fields, k: string): Option<string> {
    if k in f && f[k].Str? then Some(f[k].s) else None
  }

  /** An optional string field: absent and `null` both decode to `None`. */
  function OptionalField(f: Fields, k: string): Option<Option<string>> {
    if k !in f || f[k].Null? then Some(None)
    else if f[k].Str? then Some(Some(f[k].s))
    else None
  }

  /** A string-to-string map that defaults to empty when absent (but not when `null`). */
  function MapField(f: Fields, k: string): Option<StringMap> {
    if k !in f then Some(map[])
    else if f[k].Object? && forall h <- f[k].fields :: f[k].fields[h].Str? then
      Some(map h | h in f[k].fields :: f[k].fields[h].s)
    else None
  }

  /** A required integer in the range of a 16-bit unsigned number. */
  function StatusField(f: Fields, k: string): Option<u16> {
    if k in f && f[k].Integer? && 0 <= f[k].n < 0x1_0000 then Some(f[k].n) else None
  }

  function DecodeAuth(f: Fields): Option<AuthMessage> {
    match (StringField(f, "type"), StringField(f, "token"), StringField(f, "service"))
    case (Some(t), Some(token), Some(service)) => Some(AuthMessage(t, token, service))
    case _ => None
  }

  function DecodeAuthError(f: Fields): Option<AuthErrorMessage> {
    match (StringField(f, "type"), StringField(f, "message"))
    case (Some(t), Some(message)) => Some(AuthErrorMessage(t, message))
    case _ => None
  }

  function DecodeRequest(f: Fields): Option<TunnelRequest> {
    var t := StringField(f, "type");
    var id := StringField(f, "request_id");
    var service := StringField(f, "service");
    var verb := StringField(f, "method");
    var path := StringField(f, "path");
    var query := MapField(f, "query");
    var headers := MapField(f, "headers");
    var body := OptionalField(f, "body");
    if t.Some? && id.Some? && service.Some? && verb.Some? && path.Some?
       && query.Some? && headers.Some? && body.Some? then
      Some(TunnelRequest(t.value, id.value, service.value, verb.value, path.value,
                         query.value, headers.value, body.value))
    else None
  }

  function DecodeResponse(f: Fields): Option<TunnelResponse> {
    var t := StringField(f, "type");
    var id := StringField(f, "request_id");
    var status := StatusField(f, "status");
    var headers := MapField(f, "headers");
    var body := OptionalField(f, "body");
    var encoding := OptionalField(f, "body_encoding");
    if t.Some? && id.Some? && status.Some? && headers.Some? && body.Some? && encoding.Some? then
      Some(TunnelResponse(t.value, id.value, status.value, headers.value, body.value, encoding.value))
    else None
  }

  /** Decode by the `type` field; everything that does not fit is an error. */
  function ParseMessage(raw: Text): Result<Message, ParseError> {
    match raw
    case NotJson(_) => Err(InvalidJson)
    case Document(v) =>
      if !v.Object? || StringField(v.fields, "type").None? then Err(MissingType)
      else
        var kind := v.fields["type"].s;
        if kind !in KINDS then Err(UnknownType(kind))
        else
          match Decode(v.fields, kind)
          case Some(m) => Ok(m)
          case None => Err(InvalidFields(kind))
  }

  const KINDS := {"auth", "auth_ok", "auth_error", "request", "response"}

  function Decode(f: Fields, kind: string): Option<Message> {
    if kind == "auth" then
      var m := DecodeAuth(f);
      if m.Some? then Some(Auth(m.value)) else None
    else if kind == "auth_ok" then
      var m := StringField(f, "type");
      if m.Some? then Some(AuthOk(AuthOkMessage(m.value))) else None
    else if kind == "auth_error" then
      var m := DecodeAuthError(f);
      if m.Some? then Some(AuthError(m.value)) else None
    else if kind == "request" then
      var m := DecodeRequest(f);
      if m.Some? then Some(Request(m.value)) else None
    else
      var m := DecodeResponse(f);
      if m.Some? then Some(Response(m.value)) else None
  }

  // ---- Serialization ----

  function EncodeMap(m: StringMap): Json {
    Object(map k | k in m :: Str(m[k]))
  }

  function EncodeOption(o: Option<string>): Json {
    match o
    case None => Null
    case Some(s) => Str(s)
  }

  /** The JSON document the derived serializer writes for a message. */
  function Serialize(m: Message): Text {
    Document(Object(
      match m
      case Auth(a) => map["type" := Str(a.msgType), "token" := Str(a.token), "service" := Str(a.service)]
      case AuthOk(a) => map["type" := Str(a.msgType)]
      case AuthError(a) => map["type" := Str(a.msgType), "message" := Str(a.message)]
      case Request(q) => map[
        "type" := Str(q.msgType), "request_id" := Str(q.requestId), "service" := Str(q.service),
        "method" := Str(q.verb), "path" := Str(q.path), "query" := EncodeMap(q.query),
        "headers" := EncodeMap(q.headers), "body" := EncodeOption(q.body)]
      case Response(r) => map[
        "type" := Str(r.msgType), "request_id" := Str(r.requestId), "status" := Integer(r.status),
        "headers" := EncodeMap(r.headers), "body" := EncodeOption(r.body),
        "body_encoding" := EncodeOption(r.bodyEncoding)]))
  }

  function BuildTunnelRequest(incoming: IncomingRequest, freshId: string): TunnelRequest {
    TunnelRequest("request", freshId, incoming.service, incoming.verb, incoming.path,
                  incoming.query, incoming.headers, incoming.body)
  }

  /** The request is tagged as one, as every dispatched request is. */
  predicate Built(q: TunnelRequest) {
    q.msgType == "request"
  }

  function ErrorResponse(requestId: string, status: u16, message: string): TunnelResponse {
    TunnelResponse("response", requestId, status, map["Content-Type" := "application/json"],
                   Some("{\"error\":\"" + message + "\"}"), None)
  }

  // ---- On the wire, field by field ----

  /** Field k of a document is the string s. */
  ghost predicate HasText(f: Fields, k: string, s: string) {
    k in f && f[k] == Str(s)
  }

  /** Field k is an object of strings, or is absent and stands for the empty one. */
  ghost predicate HasMap(f: Fields, k: string, m: StringMap) {
    if k in f then f[k] == Object(map h | h in m :: Str(m[h])) else m == map[]
  }

  /** Field k is a string, or is absent or null and stands for none. */
  ghost predicate HasOption(f: Fields, k: string, o: Option<string>) {
    match o
    case Some(s) => HasText(f, k, s)
    case None => k !in f || f[k] == Null
  }

  ghost predicate IsDocument(text: Text) {
    text.Document? && text.value.Object?
  }

  ghost predicate IsAuth(text: Text, token: string, service: string) {
    && IsDocument(text)
    && var f := text.value.fields;
    HasText(f, "type", "auth") && HasText(f, "token", token) && HasText(f, "service", service)
  }

  ghost predicate IsAuthOk(text: Text) {
    IsDocument(text) && HasText(text.value.fields, "type", "auth_ok")
  }

  ghost predicate IsAuthError(text: Text, message: string) {
    && IsDocument(text)
    && HasText(text.value.fields, "type", "auth_error") && HasText(text.value.fields, "message", message)
  }

  ghost predicate IsRequest(text: Text, q: TunnelRequest) {
    && IsDocument(text) && q.msgType == "request"
    && var f := text.value.fields;
    && HasText(f, "type", "request") && HasText(f, "request_id", q.requestId) && HasText(f, "service", q.service)
    && HasText(f, "method", q.verb) && HasText(f, "path", q.path)
    && HasMap(f, "query", q.query) && HasMap(f, "headers", q.headers) && HasOption(f, "body", q.body)
  }

  ghost predicate IsResponse(text: Text, r: TunnelResponse) {
    && IsDocument(text) && r.msgType == "response"
    && var f := text.value.fields;
    && HasText(f, "type", "response") && HasText(f, "request_id", r.requestId)
    && "status" in f && f["status"] == Integer(r.status)
    && HasMap(f, "headers", r.headers) && HasOption(f, "body", r.body) && HasOption(f, "body_encoding", r.bodyEncoding)
  }

  lemma TextDecodes(f: Fields, k: string, s: string)
    ensures StringField(f, k) == Some(s) <==> HasText(f, k, s)
  {
  }

  lemma MapDecodes(f: Fields, k: string, m: StringMap)
    ensures MapField(f, k) == Some(m) <==> HasMap(f, k, m)
  {
    if k in f && MapField(f, k) == Some(m) {
      assert f[k].fields == map h | h in m :: Str(m[h]);
    }
    if k in f && HasMap(f, k, m) {
      assert (map h | h in f[k].fields :: f[k].fields[h].s) == m;
    }
  }

  lemma OptionDecodes(f: Fields, k: string, o: Option<string>)
    ensures OptionalField(f, k) == Some(o) <==> HasOption(f, k, o)
  {
  }

  /** Which texts are which messages, key by key. */
  lemma AuthOnWire(text: Text, token: string, service: string)
    ensures ParseMessage(text) == Ok(Auth(AuthMessage("auth", token, service))) <==> IsAuth(text, token, service)
  {
    if IsDocument(text) {
      TextDecodes(text.value.fields, "type", "auth");
    }
  }

  lemma AuthOkOnWire(text: Text)
    ensures ParseMessage(text) == Ok(AuthOk(AuthOkMessage("auth_ok"))) <==> IsAuthOk(text)
  {
    if IsDocument(text) {
      TextDecodes(text.value.fields, "type", "auth_ok");
    }
  }

  lemma AuthErrorOnWire(text: Text, message: string)
    ensures ParseMessage(text) == Ok(AuthError(AuthErrorMessage("auth_error", message))) <==> IsAuthError(text, message)
  {
    if IsDocument(text) {
      TextDecodes(text.value.fields, "type", "auth_error");
    }
  }

  lemma RequestDecodesTo(f: Fields, q: TunnelRequest)
    ensures DecodeRequest(f) == Some(q) <==>
      && HasText(f, "type", q.msgType) && HasText(f, "request_id", q.requestId) && HasText(f, "service", q.service)
      && HasText(f, "method", q.verb) && HasText(f, "path", q.path)
      && HasMap(f, "query", q.query) && HasMap(f, "headers", q.headers) && HasOption(f, "body", q.body)
  {
    TextDecodes(f, "type", q.msgType);
    TextDecodes(f, "request_id", q.requestId);
    TextDecodes(f, "service", q.service);
    TextDecodes(f, "method", q.verb);
    TextDecodes(f, "path", q.path);
    MapDecodes(f, "query", q.query);
    MapDecodes(f, "headers", q.headers);
    OptionDecodes(f, "body", q.body);
  }

  lemma ResponseDecodesTo(f: Fields, r: TunnelResponse)
    ensures DecodeResponse(f) == Some(r) <==>
      && HasText(f, "type", r.msgType) && HasText(f, "request_id", r.requestId)
      && "status" in f && f["status"] == Integer(r.status)
      && HasMap(f, "headers", r.headers) && HasOption(f, "body", r.body) && HasOption(f, "body_encoding", r.bodyEncoding)
  {
    TextDecodes(f, "type", r.msgType);
    TextDecodes(f, "request_id", r.requestId);
    MapDecodes(f, "headers", r.headers);
    OptionDecodes(f, "body", r.body);
    OptionDecodes(f, "body_encoding", r.bodyEncoding);
  }

  lemma RequestOnWire(text: Text, q: TunnelRequest)
    ensures ParseMessage(text) == Ok(Request(q)) <==> IsRequest(text, q)
  {
    if IsDocument(text) {
      RequestDecodesTo(text.value.fields, q);
    }
  }

  lemma ResponseOnWire(text: Text, r: TunnelResponse)
    ensures ParseMessage(text) == Ok(Response(r)) <==> IsResponse(text, r)
  {
    if IsDocument(text) {
      ResponseDecodesTo(text.value.fields, r);
    }
  }

  /** What each refusal means. */
  lemma RefusalsOnWire(text: Text)
    ensures ParseMessage(text) == Err(InvalidJson) <==> text.NotJson?
    ensures ParseMessage(text) == Err(MissingType) <==>
      text.Document? && !(IsDocument(text) && exists kind :: HasText(text.value.fields, "type", kind))
    ensures forall kind :: ParseMessage(text) == Err(UnknownType(kind)) <==>
      && IsDocument(text) && HasText(text.value.fields, "type", kind)
      && kind !in {"auth", "auth_ok", "auth_error", "request", "response"}
  {
    if IsDocument(text) && "type" in text.value.fields && text.value.fields["type"].Str? {
      assert HasText(text.value.fields, "type", text.value.fields["type"].s);
    }
  }

  /** What is written for each message, key by key and with no other key. */
  lemma WrittenOnWire(m: Message)
    requires m.Tag() == m.Kind()
    ensures IsDocument(Serialize(m))
    ensures var text, keys := Serialize(m), Serialize(m).value.fields.Keys;
      match m
      case Auth(a) => IsAuth(text, a.token, a.service) && keys == {"type", "token", "service"}
      case AuthOk(_) => IsAuthOk(text) && keys == {"type"}
      case AuthError(e) => IsAuthError(text, e.message) && keys == {"type", "message"}
      case Request(q) =>
        IsRequest(text, q)
        && keys == {"type", "request_id", "service", "method", "path", "query", "headers", "body"}
      case Response(r) =>
        IsResponse(text, r) && keys == {"type", "request_id", "status", "headers", "body", "body_encoding"}
  {
    RoundTrip(m);
    match m
    case Auth(a) => AuthOnWire(Serialize(m), a.token, a.service);
    case AuthOk(_) => AuthOkOnWire(Serialize(m));
    case AuthError(e) => AuthErrorOnWire(Serialize(m), e.message);
    case Request(q) => RequestOnWire(Serialize(m), q);
    case Response(r) => ResponseOnWire(Serialize(m), r);
  }

  /** The request sent for a call carries that call, field by field. */
  lemma CallOnWire(incoming: IncomingRequest, id: string)
    ensures var text := Serialize(Request(BuildTunnelRequest(incoming, id)));
      && IsDocument(text)
      && var f := text.value.fields;
      && HasText(f, "type", "request") && HasText(f, "request_id", id) && HasText(f, "service", incoming.service)
      && HasText(f, "method", incoming.verb) && HasText(f, "path", incoming.path)
      && HasMap(f, "query", incoming.query) && HasMap(f, "headers", incoming.headers)
      && HasOption(f, "body", incoming.body)
  {
    WrittenOnWire(Request(BuildTunnelRequest(incoming, id)));
  }

  /** Every request that is tagged as one is the request of some call. */
  lemma BuiltExactly(q: TunnelRequest)
    ensures Built(q) <==> exists incoming :: BuildTunnelRequest(incoming, q.requestId) == q
  {
    if Built(q) {
      assert BuildTunnelRequest(IncomingRequest(q.service, q.verb, q.path, q.query, q.headers, q.body), q.requestId) == q;
    }
  }

  // ---- Round trips ----

  lemma MapFieldEncodes(f: Fields, k: string, m: StringMap)
    requires k in f && f[k] == EncodeMap(m)
    ensures MapField(f, k) == Some(m)
  {
    assert (map h | h in f[k].fields :: f[k].fields[h].s) == m;
  }

  lemma FieldOf(f: Fields, k: string, v: string)
    requires k in f && f[k] == Str(v)
    ensures StringField(f, k) == Some(v)
  {
  }

  lemma OptionalFieldEncodes(f: Fields, k: string, o: Option<string>)
    requires k in f && f[k] == EncodeOption(o)
    ensures OptionalField(f, k) == Some(o)
  {
  }

  lemma RequestDecodes(q: TunnelRequest)
    ensures DecodeRequest(Serialize(Request(q)).value.fields) == Some(q)
  {
    var f := Serialize(Request(q)).value.fields;
    FieldOf(f, "type", q.msgType);
    FieldOf(f, "request_id", q.requestId);
    FieldOf(f, "service", q.service);
    FieldOf(f, "method", q.verb);
    FieldOf(f, "path", q.path);
    MapFieldEncodes(f, "query", q.query);
    MapFieldEncodes(f, "headers", q.headers);
    OptionalFieldEncodes(f, "body", q.body);
  }

  lemma ResponseDecodes(r: TunnelResponse)
    ensures DecodeResponse(Serialize(Response(r)).value.fields) == Some(r)
  {
    var f := Serialize(Response(r)).value.fields;
    FieldOf(f, "type", r.msgType);
    FieldOf(f, "request_id", r.requestId);
    MapFieldEncodes(f, "headers", r.headers);
    OptionalFieldEncodes(f, "body", r.body);
    OptionalFieldEncodes(f, "body_encoding", r.bodyEncoding);
  }

  lemma WellTaggedDecodes(m: Message)
    requires m.Tag() == m.Kind()
    ensures Decode(Serialize(m).value.fields, m.Kind()) == Some(m)
  {
    match m
    case Auth(_) =>
    case AuthOk(_) =>
    case AuthError(_) =>
    case Request(q) => RequestDecodes(q);
    case Response(r) => ResponseDecodes(r);
  }

  lemma SerializedType(m: Message)
    ensures StringField(Serialize(m).value.fields, "type") == Some(m.Tag())
  {
    match m
    case Auth(a) =>
    case AuthOk(a) =>
    case AuthError(a) =>
    case Request(q) => RequestDecodes(q);
    case Response(r) => ResponseDecodes(r);
  }

  lemma DecodedKind(f: Fields, kind: string)
    requires kind in KINDS && StringField(f, "type") == Some(kind)
    ensures var m := Decode(f, kind); m.Some? ==> m.value.Kind() == m.value.Tag() == kind
  {
  }

  /** A serialized message parses back to itself exactly when its `type` field names its
      kind: `msg_type` is an ordinary field, and nothing forces it to agree. */
  lemma RoundTrip(m: Message)
    ensures ParseMessage(Serialize(m)) == Ok(m) <==> m.Tag() == m.Kind()
  {
    var f := Serialize(m).value.fields;
    SerializedType(m);
    if m.Tag() == m.Kind() {
      WellTaggedDecodes(m);
    } else if m.Tag() in KINDS {
      DecodedKind(f, m.Tag());
    }
  }

  /** The parser only ever yields well-tagged messages, so parsing is a retraction onto
      the serializer's image: what was understood can be re-sent and understood again. */
  lemma ParsedMessagesReserialize(raw: Text)
    requires ParseMessage(raw).Ok?
    ensures ParseMessage(Serialize(ParseMessage(raw).value)) == ParseMessage(raw)
  {
    var f := raw.value.fields;
    DecodedKind(f, f["type"].s);
    RoundTrip(ParseMessage(raw).value);
  }

  /** Distinct well-tagged messages never share a wire form. */
  lemma SerializeInjective(m: Message, n: Message)
    requires m.Tag() == m.Kind() && n.Tag() == n.Kind()
    requires Serialize(m) == Serialize(n)
    ensures m == n
  {
    RoundTrip(m);
    RoundTrip(n);
  }

  // ---- What the parser tolerates ----

  const KNOWN_FIELDS := {"type", "token", "service", "message", "request_id", "method", "path",
                         "query", "headers", "body", "status", "body_encoding"}

  /** The two objects decode alike at field k, whatever the field is meant to be. */
  ghost predicate SameAt(g: Fields, f: Fields, k: string) {
    && StringField(g, k) == StringField(f, k) && OptionalField(g, k) == OptionalField(f, k)
    && MapField(g, k) == MapField(f, k) && StatusField(g, k) == StatusField(f, k)
  }

  lemma RequestFieldsDecide(g: Fields, f: Fields)
    requires SameAt(g, f, "type") && SameAt(g, f, "request_id") && SameAt(g, f, "service") && SameAt(g, f, "method")
    requires SameAt(g, f, "path") && SameAt(g, f, "query") && SameAt(g, f, "headers") && SameAt(g, f, "body")
    ensures DecodeRequest(g) == DecodeRequest(f)
  {
  }

  lemma ResponseFieldsDecide(g: Fields, f: Fields)
    requires SameAt(g, f, "type") && SameAt(g, f, "request_id") && SameAt(g, f, "status")
    requires SameAt(g, f, "headers") && SameAt(g, f, "body") && SameAt(g, f, "body_encoding")
    ensures DecodeResponse(g) == DecodeResponse(f)
  {
  }

  lemma AuthFieldsDecide(g: Fields, f: Fields)
    requires SameAt(g, f, "type") && SameAt(g, f, "token") && SameAt(g, f, "service") && SameAt(g, f, "message")
    ensures DecodeAuth(g) == DecodeAuth(f) && DecodeAuthError(g) == DecodeAuthError(f)
  {
  }

  lemma OtherFieldsKept(f: Fields, k: string, v: Json, known: string)
    requires known != k
    ensures SameAt(f[k := v], f, known)
  {
  }

  /** Fields the protocol does not know are ignored. */
  lemma UnknownFieldsIgnored(f: Fields, k: string, v: Json)
    requires k !in KNOWN_FIELDS
    ensures ParseMessage(Document(Object(f[k := v]))) == ParseMessage(Document(Object(f)))
  {
    var g := f[k := v];
    forall known <- KNOWN_FIELDS ensures SameAt(g, f, known) {
      OtherFieldsKept(f, k, v, known);
    }
    RequestFieldsDecide(g, f);
    ResponseFieldsDecide(g, f);
    AuthFieldsDecide(g, f);
  }

  /** Leaving out any of a response's optional fields means their default. */
  lemma OmittedFieldsDefault(r: TunnelResponse, omitted: set<string>)
    requires r.msgType == "response" && omitted <= {"headers", "body", "body_encoding"}
    ensures ParseMessage(Document(Object(Serialize(Response(r)).value.fields - omitted)))
         == Ok(Response(r.(headers := if "headers" in omitted then map[] else r.headers,
                           body := if "body" in omitted then None else r.body,
                           bodyEncoding := if "body_encoding" in omitted then None else r.bodyEncoding)))
  {
    var f := Serialize(Response(r)).value.fields - omitted;
    FieldOf(f, "type", "response");
    FieldOf(f, "request_id", r.requestId);
    if "headers" !in omitted {
      MapFieldEncodes(f, "headers", r.headers);
    }
    if "body" !in omitted {
      OptionalFieldEncodes(f, "body", r.body);
    }
    if "body_encoding" !in omitted {
      OptionalFieldEncodes(f, "body_encoding", r.bodyEncoding);
    }
  }
}
