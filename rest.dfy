/**
 * helloworld/rest/common/restful/rest.go: building a request body
 * (`toReader`), one HTTP exchange (`DoRequest`, an oracle here) and the
 * interpretation of a response (`ParseResponse`).
 *
 * Go's dynamic dispatch on the body's and the target's run-time type becomes
 * a closed datatype of kinds.  JSON encoding is an opaque outcome carried by
 * the body; JSON decoding is a function parameter.
 */
module Rest {
  import opened Wrappers
  import opened Text

  /** `http.Header`: canonical key to values. */
  type Header = map<string, seq<string>>

  /** A request target: a path and its query parameters (`url.Values`). */
  datatype Api = Api(path: string, query: map<string, string>)

  /** A response: its status code and the outcome of reading its whole body. */
  datatype Response = Response(statusCode: int, body: Result<string, string>)

  /** What goes on the wire for one attempt: the endpoint the balancer chose, then the target. */
  datatype Request = Request(verb: string, endpoint: string, api: Api, header: Header, payload: Option<string>)

  /** The network, seen from one call: each request is answered or fails at the transport level. */
  type Network = Request -> Result<Response, string>

  /** The kinds of request body `toReader` tells apart; a structured value carries its JSON encoding outcome. */
  datatype Body =
    | NoBody
    | ReaderBody(content: string)
    | TextBody(text: string)
    | BytesBody(bytes: string)
    | JsonBody(encoded: Result<string, string>)

  /** The bytes a body yields, or why it cannot be encoded. */
  function ToReader(body: Body): (r: Result<Option<string>, string>)
    ensures r == Ok(None) <==> body.NoBody?
    ensures r.Err? <==> body.JsonBody? && body.encoded.Err?
  {
    match body
    case NoBody => Ok(None)
    case ReaderBody(c) => Ok(Some(c))
    case TextBody(s) => Ok(Some(s))
    case BytesBody(b) => Ok(Some(b))
    case JsonBody(enc) =>
      match enc
      case Ok(data) => Ok(Some(data))
      case Err(e) => Err(e)
  }

  /**
   * One HTTP exchange: a body that cannot be encoded fails before anything
   * is sent; otherwise the network decides.
   */
  function DoRequest(net: Network, verb: string, endpoint: string, api: Api, header: Header, body: Body): (r: Result<Response, string>)
    // a value that cannot be encoded fails with the encoder's reason, whatever the network would answer
    ensures body.JsonBody? && body.encoded.Err? ==> r == Err(" request body wrong: " + body.encoded.error)
    // every other body reaches the network unchanged, in one request to the chosen endpoint
    ensures body.NoBody? ==> r == net(Request(verb, endpoint, api, header, None))
    ensures body.ReaderBody? ==> r == net(Request(verb, endpoint, api, header, Some(body.content)))
    ensures body.TextBody? ==> r == net(Request(verb, endpoint, api, header, Some(body.text)))
    ensures body.BytesBody? ==> r == net(Request(verb, endpoint, api, header, Some(body.bytes)))
    ensures body.JsonBody? && body.encoded.Ok? ==> r == net(Request(verb, endpoint, api, header, Some(body.encoded.value)))
  {
    match ToReader(body)
    case Err(e) => Err(" request body wrong: " + e)
    case Ok(payload) => net(Request(verb, endpoint, api, header, payload))
  }

  /** The kinds of target `ParseResponse` tells apart, with the state the caller sees. */
  datatype Sink<T> =
    | NoSink
    | Writer(written: string, fault: Option<string>)  // an io.Writer; `fault` is what its Write reports
    | TextSink(text: string)                          // a *string
    | BytesSink(bytes: string)                        // a []byte, passed by value
    | DecodeSink(value: T)                            // anything else: JSON-decoded into

  /** The error `ParseResponse` returns, if any, and the target as the caller sees it afterwards. */
  datatype Parsed<T> = Parsed(err: Option<string>, sink: Sink<T>)

  function StatusError(code: int, body: string): string {
    "do request failed, response statusCode: " + IntToDecimal(code) + ", body: " + body
  }

  function BodyError(body: string, reason: string): string {
    "parse response body: \"" + body + "\" faild: " + reason
  }

  /**
   * `ParseResponse(resp, expectCode, expectData)`: read the body, compare the
   * status code, then hand the body to the target according to its kind.
   */
  function ParseResponse<T>(resp: Response, expectCode: int, sink: Sink<T>, unmarshal: string -> Result<T, string>): (p: Parsed<T>)
    // a body read failure is reported before the status code is looked at
    ensures resp.body.Err? ==> p == Parsed(Some("read response faild: " + resp.body.error), sink)
    // a wrong status code is reported with the code and the raw body, whatever the target
    ensures resp.body.Ok? && resp.statusCode != expectCode ==>
      p.sink == sink && p.err.Some? &&
      Contains(p.err.value, IntToDecimal(resp.statusCode)) && Contains(p.err.value, resp.body.value)
    // success exactly when the body was read, the code matches and the target accepted the body
    ensures p.err.None? <==>
      resp.body.Ok? && resp.statusCode == expectCode &&
      (sink.Writer? ==> sink.fault.None?) &&
      (sink.DecodeSink? ==> unmarshal(resp.body.value).Ok?)
    // a failure to write or decode a well-received body embeds the body text
    ensures p.err.Some? && resp.body.Ok? && resp.statusCode == expectCode ==> Contains(p.err.value, resp.body.value)
    ensures p.err.None? && sink.TextSink? ==> p.sink == TextSink(resp.body.value)
    ensures p.err.None? && sink.Writer? ==> p.sink == sink.(written := sink.written + resp.body.value)
    ensures p.err.None? && sink.DecodeSink? ==> p.sink == DecodeSink(unmarshal(resp.body.value).value)
    // nothing reaches a nil or []byte target, nor a target whose write or decode failed
    ensures sink.NoSink? || sink.BytesSink? || p.err.Some? ==> p.sink == sink
  {
    match resp.body
    case Err(e) => Parsed(Some("read response faild: " + e), sink)
    case Ok(body) =>
      if resp.statusCode == expectCode then
        match sink
        case NoSink => Parsed(None, sink)
        case Writer(written, fault) =>
          (match fault
           case None => Parsed(None, Writer(written + body, fault))
           case Some(e) =>
             ContainsInfix("parse response body: \"", body, "\" faild: " + e);
             assert BodyError(body, e) == "parse response body: \"" + body + ("\" faild: " + e);
             Parsed(Some(BodyError(body, e)), sink))
        case TextSink(_) => Parsed(None, TextSink(body))
        case BytesSink(_) => Parsed(None, sink)
        case DecodeSink(_) =>
          (match unmarshal(body)
           case Ok(v) => Parsed(None, DecodeSink(v))
           case Err(e) =>
             ContainsInfix("parse response body: \"", body, "\" faild: " + e);
             assert BodyError(body, e) == "parse response body: \"" + body + ("\" faild: " + e);
             Parsed(Some(BodyError(body, e)), sink))
      else
        var code := IntToDecimal(resp.statusCode);
        ContainsInfix("do request failed, response statusCode: ", code, ", body: " + body);
        ContainsInfix("do request failed, response statusCode: " + code + ", body: ", body, "");
        assert StatusError(resp.statusCode, body) ==
          "do request failed, response statusCode: " + code + (", body: " + body);
        assert StatusError(resp.statusCode, body) ==
          ("do request failed, response statusCode: " + code + ", body: ") + body + "";
        Parsed(Some(StatusError(resp.statusCode, body)), sink)
  }

  /**
   * What a body sends is what a text target receives back: if the peer
   * answers with the expected code and echoes the payload, a `*string`
   * target ends up holding exactly the bytes `toReader` produced.
   */
  lemma EchoIntoText<T>(body: Body, code: int, unmarshal: string -> Result<T, string>)
    requires ToReader(body).Ok? && ToReader(body).value.Some?
    ensures var payload := ToReader(body).value.value;
      ParseResponse(Response(code, Ok(payload)), code, TextSink(""), unmarshal) == Parsed(None, TextSink(payload))
    ensures body.TextBody? ==> ToReader(body).value.value == body.text
    ensures body.BytesBody? ==> ToReader(body).value.value == body.bytes
    ensures body.JsonBody? ==> ToReader(body).value.value == body.encoded.value
  {
  }

  /**
   * A structured body round-trips: when decoding inverts the encoding, the
   * decoded target of an echoed JSON body holds the value that was encoded.
   */
  lemma EchoIntoDecoded<T>(v: T, encode: T -> Result<string, string>, unmarshal: string -> Result<T, string>, code: int, zero: T)
    requires encode(v).Ok? && unmarshal(encode(v).value) == Ok(v)
    ensures var payload := ToReader(JsonBody(encode(v))).value.value;
      ParseResponse(Response(code, Ok(payload)), code, DecodeSink(zero), unmarshal) == Parsed(None, DecodeSink(v))
  {
  }
}
