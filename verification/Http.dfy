/** What the HTTP adapter answers its caller with, given a tunnel response. */
module Http {
  import opened Wrappers
  import opened Protocol
  import opened Secret
  import Base64

  datatype HttpResponse = HttpResponse(status: u16, headers: StringMap, body: seq<nat>)

  predicate NameChar(c: char) {
    'a' <= c <= 'z' || 'A' <= c <= 'Z' || '0' <= c <= '9' || c in "!#$%&'*+-.^_`|~"
  }

  /** A header line the HTTP library builds: a token, and a value without control characters. */
  predicate ValidHeader(name: string, value: string) {
    && 0 < |name| < 0x1_0000 && (forall c <- name :: NameChar(c))
    && forall c <- value :: c == '\t' || (c >= ' ' && c as int != 0x7F)
  }

  predicate ValidHeaders(headers: StringMap) {
    forall name <- headers :: ValidHeader(name, headers[name])
  }

  /** The bytes of the body: decoded when it is marked as base64 and is, and as it stands otherwise. */
  function BodyBytes(body: Option<string>, encoding: Option<string>): seq<nat> {
    match body
    case None => []
    case Some(text) =>
      if encoding == Some("base64") && Base64.Decode(text).Some? then Base64.Decode(text).value else Utf8(text)
  }

  function ToHttp(r: TunnelResponse): HttpResponse {
    if ValidHeaders(r.headers) then
      HttpResponse(if 100 <= r.status < 1000 then r.status else 500, r.headers, BodyBytes(r.body, r.bodyEncoding))
    else HttpResponse(500, map[], Utf8("internal error"))
  }

  /** The text is the encoding of some bytes. */
  ghost predicate IsBase64(text: string) {
    exists bytes :: Base64.Encode(bytes) == text
  }

  lemma BodyExactly(body: Option<string>, encoding: Option<string>)
    ensures body == None ==> BodyBytes(body, encoding) == []
    ensures forall bytes :: body == Some(Base64.Encode(bytes)) && encoding == Some("base64") ==> BodyBytes(body, encoding) == bytes
    ensures forall text :: body == Some(text) && encoding != Some("base64") ==> BodyBytes(body, encoding) == Utf8(text)
    ensures forall text :: body == Some(text) && !IsBase64(text) ==>
              BodyBytes(body, encoding) == Utf8(text)
  {
    forall bytes {
      Base64.EncodeDecodes(bytes);
    }
    if body.Some? && Base64.Decode(body.value).Some? {
      Base64.DecodeEncodes(body.value);
    }
  }

  /** What the caller sees of a response: its own status, headers and body, the body decoded
      exactly when it is marked as base64 and is base64. */
  lemma ToHttpExactly(r: TunnelResponse, h: HttpResponse)
    requires h == ToHttp(r) && forall name <- r.headers :: ValidHeader(name, r.headers[name])
    ensures h.headers == r.headers && h.status == (if 100 <= r.status <= 999 then r.status else 500)
    ensures r.body == None ==> h.body == []
    ensures forall bytes :: r.body == Some(Base64.Encode(bytes)) && r.bodyEncoding == Some("base64") ==> h.body == bytes
    ensures forall text :: r.body == Some(text) && r.bodyEncoding != Some("base64") ==> h.body == Utf8(text)
    ensures forall text :: r.body == Some(text) && !IsBase64(text) ==> h.body == Utf8(text)
  {
    BodyExactly(r.body, r.bodyEncoding);
  }

  /** Unless a header cannot be sent at all. */
  lemma UnsendableHeader(r: TunnelResponse, name: string)
    requires name in r.headers && !ValidHeader(name, r.headers[name])
    ensures ToHttp(r) == HttpResponse(500, map[], Utf8("internal error"))
  {
  }
}
