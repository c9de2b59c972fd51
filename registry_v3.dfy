/**
 * helloworld/rest/common/servicecenter/v3/registery.go: the service-registry
 * client on top of the retrying REST client.  Every operation builds a path,
 * a query and headers, makes one `Do` call, hands the response to
 * `ParseResponse` expecting 200, and either extracts one field of the decoded
 * answer or returns the error behind the operation's own prefix.
 *
 * JSON encoding and decoding are library behaviour: they are the functions of
 * a `Wire` value.  `url.Values.Encode` is not modelled; a query stays a map.
 * The Go code dereferences a nil response when `Do` made no attempt, which
 * happens exactly when the client has no endpoints, so every operation
 * requires at least one endpoint.
 */
module RegistryV3 {
  import opened Wrappers
  import opened Text
  import opened Proto
  import opened Rest
  import RestClient

  const ApiExistence: string := "/registry/v3/existence"
  const ApiMicroServices: string := "/registry/v3/microservices"
  const ApiDiscoveryInstances: string := "/registry/v3/instances"
  const ApiHeartbeats: string := "/registry/v3/heartbeats"

  const MicroServiceType: string := "microservice"

  const GET: string := "GET"
  const POST: string := "POST"
  const PUT: string := "PUT"
  const DELETE_VERB: string := "DELETE"

  const StatusOK: int := 200

  const ContentTypeKey: string := "Content-Type"
  const DomainKey: string := "X-Domain-Name"
  /** `Header.Set` stores `x-consumerid` under its canonical form. */
  const ConsumerIdKey: string := "X-Consumerid"

  /** `/registry/v3/microservices/<serviceId>`. */
  function MicroServicePath(serviceId: string): string {
    ApiMicroServices + "/" + serviceId
  }

  /** `/registry/v3/microservices/<serviceId>/watcher`. */
  function WatcherPath(serviceId: string): string {
    MicroServicePath(serviceId) + "/" + "watcher"
  }

  /** `/registry/v3/microservices/<serviceId>/instances`. */
  function InstancesPath(serviceId: string): string {
    MicroServicePath(serviceId) + "/" + "instances"
  }

  /** `/registry/v3/microservices/<serviceId>/instances/<instanceId>`. */
  function InstancePath(serviceId: string, instanceId: string): string {
    InstancesPath(serviceId) + "/" + instanceId
  }

  /**
   * Every path is the collection path followed by one segment per name:
   * the service id, then "watcher", "instances", or "instances" and the
   * instance id.
   */
  lemma PathSegments(serviceId: string, instanceId: string)
    requires '/' !in serviceId && '/' !in instanceId
    ensures Split(MicroServicePath(serviceId), '/') == Split(ApiMicroServices, '/') + [serviceId]
    ensures Split(WatcherPath(serviceId), '/') == Split(ApiMicroServices, '/') + [serviceId, "watcher"]
    ensures Split(InstancesPath(serviceId), '/') == Split(ApiMicroServices, '/') + [serviceId, "instances"]
    ensures Split(InstancePath(serviceId, instanceId), '/') ==
      Split(ApiMicroServices, '/') + [serviceId, "instances", instanceId]
  {
    TemplateSegments(ApiMicroServices, serviceId, instanceId);
  }

  lemma TemplateSegments(root: string, serviceId: string, instanceId: string)
    requires '/' !in serviceId && '/' !in instanceId
    ensures Split(root + "/" + serviceId, '/') == Split(root, '/') + [serviceId]
    ensures Split(root + "/" + serviceId + "/" + "watcher", '/') == Split(root, '/') + [serviceId, "watcher"]
    ensures Split(root + "/" + serviceId + "/" + "instances", '/') == Split(root, '/') + [serviceId, "instances"]
    ensures Split(root + "/" + serviceId + "/" + "instances" + "/" + instanceId, '/') ==
      Split(root, '/') + [serviceId, "instances", instanceId]
  {
    var prefix := Split(root, '/');
    var service := root + "/" + serviceId;
    AppendSegment(root, serviceId, prefix);
    assert '/' !in "watcher" && '/' !in "instances";
    AppendSegment(service, "watcher", prefix + [serviceId]);
    AppendSegment(service, "instances", prefix + [serviceId]);
    AppendSegment(service + "/" + "instances", instanceId, prefix + [serviceId, "instances"]);
  }

  lemma AppendSegment(path: string, name: string, segments: seq<string>)
    requires '/' !in name && Split(path, '/') == segments
    ensures Split(path + "/" + name, '/') == segments + [name]
  {
    SplitConcat(path, '/', name);
    SplitNoSeparator(name, '/');
  }

  /** The last segment of a path and what precedes it are determined by the path. */
  lemma PeelSegment(a: string, x: string, b: string, y: string)
    requires '/' !in x && '/' !in y
    requires a + "/" + x == b + "/" + y
    ensures a == b && x == y
  {
    var p := a + "/" + x;
    var q := b + "/" + y;
    if |x| == |y| {
      assert x == p[|a| + 1..] && y == q[|b| + 1..];
      assert a == p[..|a|] && b == q[..|b|];
    } else if |x| < |y| {
      SlashInLonger(a, x, b, y);
    } else {
      SlashInLonger(b, y, a, x);
    }
  }

  lemma SlashInLonger(a: string, x: string, b: string, y: string)
    requires |x| < |y| && a + "/" + x == b + "/" + y
    ensures '/' in y
  {
    var p := a + "/" + x;
    assert p[|a|] == y[|y| - |x| - 1];
  }

  /** Two instance paths are the same exactly when they name the same service and instance. */
  lemma InstancePathIdentifies(s1: string, i1: string, s2: string, i2: string)
    requires '/' !in s1 && '/' !in i1 && '/' !in s2 && '/' !in i2
    ensures InstancePath(s1, i1) == InstancePath(s2, i2) <==> s1 == s2 && i1 == i2
  {
    if InstancePath(s1, i1) == InstancePath(s2, i2) {
      assert '/' !in "instances";
      PeelSegment(InstancesPath(s1), i1, InstancesPath(s2), i2);
      PeelSegment(MicroServicePath(s1), "instances", MicroServicePath(s2), "instances");
      PeelSegment(ApiMicroServices, s1, ApiMicroServices, s2);
    }
  }

  /** The watcher and service paths name one service each, and no watcher path is a service path. */
  lemma WatcherPathIdentifies(s1: string, s2: string)
    requires '/' !in s1 && '/' !in s2
    ensures WatcherPath(s1) == WatcherPath(s2) <==> s1 == s2
    ensures MicroServicePath(s1) == MicroServicePath(s2) <==> s1 == s2
    ensures WatcherPath(s1) != MicroServicePath(s2)
  {
    assert '/' !in "watcher";
    if WatcherPath(s1) == WatcherPath(s2) {
      PeelSegment(MicroServicePath(s1), "watcher", MicroServicePath(s2), "watcher");
      PeelSegment(ApiMicroServices, s1, ApiMicroServices, s2);
    }
    if MicroServicePath(s1) == MicroServicePath(s2) {
      PeelSegment(ApiMicroServices, s1, ApiMicroServices, s2);
    }
    if WatcherPath(s1) == MicroServicePath(s2) {
      PeelSegment(MicroServicePath(s1), "watcher", ApiMicroServices, s2);
    }
  }

  /** The headers every request carries; the domain header falls back to `default`. */
  function DefaultHeaders(domain: string): (h: Header)
    ensures h.Keys == {ContentTypeKey, DomainKey}
    ensures h[ContentTypeKey] == ["application/json"]
    ensures domain != "" ==> h[DomainKey] == [domain]
    ensures domain == "" ==> h[DomainKey] == ["default"]
  {
    var headers := map[ContentTypeKey := ["application/json"], DomainKey := ["default"]];
    if domain != "" then headers[DomainKey := [domain]] else headers
  }

  /** Discovery's headers: the defaults plus the consumer id. */
  function DiscoveryHeaders(domain: string, consumerId: string): (h: Header)
    ensures h.Keys == DefaultHeaders(domain).Keys + {ConsumerIdKey}
    ensures h[ConsumerIdKey] == [consumerId]
    ensures forall k :: k in DefaultHeaders(domain) ==> h[k] == DefaultHeaders(domain)[k]
  {
    DefaultHeaders(domain)[ConsumerIdKey := [consumerId]]
  }

  /** The existence query for a service: its kind, application, name and version. */
  function ExistenceApi(service: MicroService): (api: Api)
    // the discovery query's fields, plus the kind, on the existence path
    ensures api.path == ApiExistence && api.query.Keys == DiscoveryApi(service).query.Keys + {"type"}
    ensures api.query["type"] == MicroServiceType
    ensures forall k :: k in DiscoveryApi(service).query ==> api.query[k] == DiscoveryApi(service).query[k]
  {
    Api(ApiExistence, map["type" := MicroServiceType, "appId" := service.appId,
                          "serviceName" := service.serviceName, "version" := service.version])
  }

  /** The discovery query for a provider: its application, name and version. */
  function DiscoveryApi(provider: MicroService): (api: Api)
    ensures api.path == ApiDiscoveryInstances && api.query.Keys == {"appId", "serviceName", "version"}
    ensures api.query["appId"] == provider.appId && api.query["serviceName"] == provider.serviceName &&
      api.query["version"] == provider.version
  {
    Api(ApiDiscoveryInstances, map["appId" := provider.appId, "serviceName" := provider.serviceName,
                                   "version" := provider.version])
  }

  /** The two queries carry exactly the identifying fields: the same query means the same application, name and version. */
  lemma QueriesIdentifyService(a: MicroService, b: MicroService)
    ensures ExistenceApi(a).query.Keys == {"type", "appId", "serviceName", "version"}
    ensures ExistenceApi(a).query["type"] == "microservice"
    ensures DiscoveryApi(a).query.Keys == {"appId", "serviceName", "version"}
    ensures ExistenceApi(a) == ExistenceApi(b) <==> a.appId == b.appId && a.serviceName == b.serviceName && a.version == b.version
    ensures DiscoveryApi(a) == DiscoveryApi(b) <==> a.appId == b.appId && a.serviceName == b.serviceName && a.version == b.version
  {
    if ExistenceApi(a) == ExistenceApi(b) {
      assert ExistenceApi(a).query["appId"] == a.appId;
      assert ExistenceApi(a).query["serviceName"] == a.serviceName;
      assert ExistenceApi(a).query["version"] == a.version;
    }
    if DiscoveryApi(a) == DiscoveryApi(b) {
      assert DiscoveryApi(a).query["appId"] == a.appId;
      assert DiscoveryApi(a).query["serviceName"] == a.serviceName;
      assert DiscoveryApi(a).query["version"] == a.version;
    }
  }

  /** JSON encoding of each request and decoding of each answer. */
  datatype Wire = Wire(
    encodeCreateService: CreateServiceRequest -> Result<string, string>,
    encodeRegisterInstance: RegisterInstanceRequest -> Result<string, string>,
    encodeHeartbeat: HeartbeatSetRequest -> Result<string, string>,
    decodeExistence: string -> Result<GetExistenceResponse, string>,
    decodeCreateService: string -> Result<CreateServiceResponse, string>,
    decodeInstances: string -> Result<GetInstancesResponse, string>,
    decodeRegisterInstance: string -> Result<RegisterInstanceResponse, string>,
    decodeWatch: string -> Result<WatchInstanceResponse, string>)

  /**
   * "Parse expecting 200 into a fresh value": the decoded answer, or the
   * transport, status, read or decode error.
   */
  function Expect<T>(outcome: Result<Response, string>, zero: T, decode: string -> Result<T, string>): (r: Result<T, string>)
    ensures outcome.Err? ==> r == Err(outcome.error)
    ensures r.Ok? <==>
      outcome.Ok? && outcome.value.body.Ok? && outcome.value.statusCode == StatusOK && decode(outcome.value.body.value).Ok?
    ensures r.Ok? ==> r.value == decode(outcome.value.body.value).value
    ensures outcome.Ok? && outcome.value.body.Ok? && outcome.value.statusCode != StatusOK ==>
      r.Err? && Contains(r.error, IntToDecimal(outcome.value.statusCode)) && Contains(r.error, outcome.value.body.value)
  {
    match outcome
    case Err(e) => Err(e)
    case Ok(resp) =>
      var p := ParseResponse(resp, StatusOK, DecodeSink(zero), decode);
      if p.err.Some? then Err(p.err.value) else Ok(p.sink.value)
  }

  /** "Parse expecting 200, keep nothing": no error exactly when the body was read and the code was 200. */
  function Acknowledge(outcome: Result<Response, string>): (err: Option<string>)
    ensures outcome.Err? ==> err == Some(outcome.error)
    ensures err.None? <==> outcome.Ok? && outcome.value.body.Ok? && outcome.value.statusCode == StatusOK
    ensures outcome.Ok? && outcome.value.body.Ok? && outcome.value.statusCode != StatusOK ==>
      err.Some? && Contains(err.value, IntToDecimal(outcome.value.statusCode))
  {
    match outcome
    case Err(e) => Some(e)
    case Ok(resp) => ParseResponse<()>(resp, StatusOK, NoSink, (body: string) => Ok(())).err
  }

  /** `fmt.Errorf("[<op>]: %s", err)`. */
  function Tagged(op: string, e: string): (t: string)
    ensures ("[" + op + "]: ") <= t
  {
    "[" + op + "]: " + e
  }

  const ZeroExistence: GetExistenceResponse := GetExistenceResponse("", "", "")
  const ZeroCreateService: CreateServiceResponse := CreateServiceResponse("")
  const ZeroInstances: GetInstancesResponse := GetInstancesResponse([])
  const ZeroRegisterInstance: RegisterInstanceResponse := RegisterInstanceResponse("")

  /** An operation's `(value, error)` pair: the field on success, else the zero value and the tagged error. */
  function Returned<T, U>(op: string, r: Result<T, string>, field: T -> U, zero: U): (v: (U, Option<string>))
    ensures v.1.None? <==> r.Ok?
    ensures r.Ok? ==> v.0 == field(r.value)
    ensures r.Err? ==> v.0 == zero && v.1 == Some(Tagged(op, r.error))
  {
    match r
    case Ok(x) => (field(x), None)
    case Err(e) => (zero, Some(Tagged(op, e)))
  }

  /**
   * Every operation that extracts a field succeeds exactly when the call got
   * a 200 answer that was read and decoded, and otherwise returns the zero
   * value and an error that starts with its own tag.
   */
  lemma OperationOutcome<T, U>(op: string, outcome: Result<Response, string>, zero: T, decode: string -> Result<T, string>, field: T -> U, none: U)
    ensures var v := Returned(op, Expect(outcome, zero, decode), field, none);
      (v.1.None? <==> outcome.Ok? && outcome.value.body.Ok? && outcome.value.statusCode == StatusOK && decode(outcome.value.body.value).Ok?) &&
      (v.1.None? ==> v.0 == field(decode(outcome.value.body.value).value)) &&
      (v.1.Some? ==> v.0 == none && ("[" + op + "]: ") <= v.1.value) &&
      (outcome.Err? ==> v.1 == Some(Tagged(op, outcome.error)))
  {
  }

  /** A 404 answer fails every operation, and its error names the code. */
  lemma NotFoundFails<T>(outcome: Result<Response, string>, zero: T, decode: string -> Result<T, string>)
    requires outcome.Ok? && outcome.value.statusCode == 404 && outcome.value.body.Ok?
    ensures Expect(outcome, zero, decode).Err? && Contains(Expect(outcome, zero, decode).error, "404")
    ensures Acknowledge(outcome).Some? && Contains(Acknowledge(outcome).value, "404")
  {
    assert IntToDecimal(404) == "404" by {
      assert NatToDecimal(404) == NatToDecimal(40) + [DigitChar(4)];
      assert NatToDecimal(40) == NatToDecimal(4) + [DigitChar(0)];
    }
  }

  /** One frame the watch connection delivers: a message with its type, or a read error. */
  datatype Frame = Frame(messageType: int, data: string) | ReadError(error: string)

  /** The WebSocket text frame opcode (section 5.2 of RFC 6455); other messages are skipped. */
  const TextMessage: int := 1

  /** The loop's final error formats the dial's nil `err`, not the read error that ended the loop. */
  const ReceiveFailure: string := "[WatchService]: receive message faild: %!s(<nil>)"
  const DialFailure: string := "[WatchService]: start websocket faild: "

  /** A frame that ends the watch loop: a read error, or a text message that does not decode. */
  predicate Fault(f: Frame, decode: string -> Result<WatchInstanceResponse, string>) {
    f.ReadError? || (f.messageType == TextMessage && decode(f.data).Err?)
  }

  /** The events handed to the callback, in order, and whether the loop ended. */
  datatype Received = Received(delivered: seq<WatchInstanceResponse>, stopped: bool)

  /** The receive loop of `WatchService` over the frames the connection delivers. */
  function Receive(frames: seq<Frame>, decode: string -> Result<WatchInstanceResponse, string>): (r: Received)
    ensures |r.delivered| <= |frames|
    decreases |frames|
  {
    if |frames| == 0 then Received([], false)
    else match frames[0]
      case ReadError(_) => Received([], true)
      case Frame(t, data) =>
        if t != TextMessage then Receive(frames[1..], decode)
        else match decode(data)
          case Err(_) => Received([], true)
          case Ok(ev) =>
            var rest := Receive(frames[1..], decode);
            Received([ev] + rest.delivered, rest.stopped)
  }

  /** One frame: a fault stops, a text message is delivered, anything else is skipped. */
  lemma ReceiveOne(f: Frame, decode: string -> Result<WatchInstanceResponse, string>)
    ensures Fault(f, decode) ==> Receive([f], decode) == Received([], true)
    ensures !Fault(f, decode) && f.messageType == TextMessage ==> Receive([f], decode) == Received([decode(f.data).value], false)
    ensures !Fault(f, decode) && f.messageType != TextMessage ==> Receive([f], decode) == Received([], false)
  {
    assert [f][1..] == [];
  }

  /**
   * The loop consumes frames one after another: what it does on `a + b` is
   * what it does on `a`, continued on `b` unless `a` already stopped it.
   */
  lemma {:induction false} ReceiveConcat(a: seq<Frame>, b: seq<Frame>, decode: string -> Result<WatchInstanceResponse, string>)
    ensures Receive(a + b, decode) ==
      if Receive(a, decode).stopped then Receive(a, decode)
      else Received(Receive(a, decode).delivered + Receive(b, decode).delivered, Receive(b, decode).stopped)
    decreases |a|
  {
    if |a| == 0 {
      assert a + b == b;
    } else {
      assert (a + b)[0] == a[0];
      assert (a + b)[1..] == a[1..] + b;
      ReceiveConcat(a[1..], b, decode);
    }
  }

  /** The loop ends exactly when some frame is a fault. */
  lemma {:induction false} ReceiveStopsAtFault(frames: seq<Frame>, decode: string -> Result<WatchInstanceResponse, string>)
    ensures Receive(frames, decode).stopped <==> exists i :: 0 <= i < |frames| && Fault(frames[i], decode)
    decreases |frames|
  {
    if |frames| > 0 {
      ReceiveStopsAtFault(frames[1..], decode);
      if exists i :: 0 <= i < |frames| && Fault(frames[i], decode) {
        var i :| 0 <= i < |frames| && Fault(frames[i], decode);
        if i > 0 {
          assert Fault(frames[1..][i - 1], decode);
        }
      }
      if exists i :: 0 <= i < |frames[1..]| && Fault(frames[1..][i], decode) {
        var i :| 0 <= i < |frames[1..]| && Fault(frames[1..][i], decode);
        assert Fault(frames[i + 1], decode);
      }
    }
  }

  /** Frames after the first fault are never looked at. */
  lemma IgnoresAfterFault(frames: seq<Frame>, i: nat, decode: string -> Result<WatchInstanceResponse, string>)
    requires i < |frames| && Fault(frames[i], decode)
    requires forall j :: 0 <= j < i ==> !Fault(frames[j], decode)
    ensures Receive(frames, decode) == Receive(frames[..i + 1], decode)
    ensures Receive(frames, decode).stopped
  {
    ReceiveConcat(frames[..i + 1], frames[i + 1..], decode);
    assert frames == frames[..i + 1] + frames[i + 1..];
    ReceiveStopsAtFault(frames[..i + 1], decode);
    assert Fault(frames[..i + 1][i], decode);
  }

  /** Go's v3 `Client`: a domain and a retrying REST client. */
  class Client {
    const domain: string
    const rest: RestClient.Client

    ghost predicate Valid()
      reads this, rest, rest.lb
    {
      rest.Valid()
    }

    /** `NewClient(domain, endpoints...)`. */
    constructor (domain: string, endpoints: seq<string>)
      ensures Valid() && fresh(rest) && fresh(rest.lb)
      ensures this.domain == domain && rest.lb.endpoints == endpoints && rest.lb.index == -1 && rest.retries == |endpoints|
    {
      this.domain := domain;
      rest := new RestClient.Client(endpoints);
    }

    /** `c.Do(...)` when there is an endpoint: the outcome of the first attempt that got a response, or the last error. */
    method Call(verb: string, api: Api, header: Header, body: Body, net: Network) returns (outcome: Result<Response, string>)
      requires Valid() && |rest.lb.endpoints| > 0
      modifies rest.lb
      ensures Valid()
      ensures var run := RestClient.DoLoop(rest.lb.endpoints, old(rest.lb.index), rest.retries, net, verb, api, header, body);
        rest.lb.index == run.cursor && run.outcome == Some(outcome)
    {
      ghost var start := rest.lb.index;
      var resp, err := rest.Do(verb, api, header, body, net);
      RestClient.DoTriesInOrder(rest.lb.endpoints, start, rest.retries, net, verb, api, header, body);
      if err.Some? {
        outcome := Err(err.value);
      } else {
        outcome := Ok(resp.value);
      }
    }

    /** `existence(val)`: GET the existence path; the decoded answer or the error. */
    method Existence(service: MicroService, net: Network, wire: Wire) returns (r: Result<GetExistenceResponse, string>)
      requires Valid() && |rest.lb.endpoints| > 0
      modifies rest.lb
      ensures Valid()
      ensures var run := RestClient.DoLoop(rest.lb.endpoints, old(rest.lb.index), rest.retries, net, GET, ExistenceApi(service), DefaultHeaders(domain), NoBody);
        rest.lb.index == run.cursor && run.outcome.Some? && r == Expect(run.outcome.value, ZeroExistence, wire.decodeExistence)
    {
      var outcome := Call(GET, ExistenceApi(service), DefaultHeaders(domain), NoBody, net);
      r := Expect(outcome, ZeroExistence, wire.decodeExistence);
    }

    /** `GetServiceID(service)`: the id the existence query returns, or `""` and a `[GetServiceID]` error. */
    method GetServiceID(service: MicroService, net: Network, wire: Wire) returns (serviceId: string, err: Option<string>)
      requires Valid() && |rest.lb.endpoints| > 0
      modifies rest.lb
      ensures Valid()
      ensures var run := RestClient.DoLoop(rest.lb.endpoints, old(rest.lb.index), rest.retries, net, GET, ExistenceApi(service), DefaultHeaders(domain), NoBody);
        rest.lb.index == run.cursor && run.outcome.Some? &&
        (serviceId, err) == Returned("GetServiceID", Expect(run.outcome.value, ZeroExistence, wire.decodeExistence), (a: GetExistenceResponse) => a.serviceId, "")
    {
      var r := Existence(service, net, wire);
      if r.Ok? {
        return r.value.serviceId, None;
      }
      return "", Some(Tagged("GetServiceID", r.error));
    }

    /** `RegisterService(service)`: POST the service; the id the registry assigned, or a `[RegisterService]` error. */
    method RegisterService(service: MicroService, net: Network, wire: Wire) returns (serviceId: string, err: Option<string>)
      requires Valid() && |rest.lb.endpoints| > 0
      modifies rest.lb
      ensures Valid()
      ensures var run := RestClient.DoLoop(rest.lb.endpoints, old(rest.lb.index), rest.retries, net, POST, Api(ApiMicroServices, map[]),
          DefaultHeaders(domain), JsonBody(wire.encodeCreateService(CreateServiceRequest(service))));
        rest.lb.index == run.cursor && run.outcome.Some? &&
        (serviceId, err) == Returned("RegisterService", Expect(run.outcome.value, ZeroCreateService, wire.decodeCreateService), (a: CreateServiceResponse) => a.serviceId, "")
    {
      var outcome := Call(POST, Api(ApiMicroServices, map[]), DefaultHeaders(domain), JsonBody(wire.encodeCreateService(CreateServiceRequest(service))), net);
      var r := Expect(outcome, ZeroCreateService, wire.decodeCreateService);
      if r.Ok? {
        return r.value.serviceId, None;
      }
      return "", Some(Tagged("RegisterService", r.error));
    }

    /** `UnregisterService(service)`: DELETE the service by its id; nothing, or an `[UNRegisterService]` error. */
    method UnregisterService(service: MicroService, net: Network) returns (err: Option<string>)
      requires Valid() && |rest.lb.endpoints| > 0
      modifies rest.lb
      ensures Valid()
      ensures var run := RestClient.DoLoop(rest.lb.endpoints, old(rest.lb.index), rest.retries, net, DELETE_VERB, Api(MicroServicePath(service.serviceId), map[]), DefaultHeaders(domain), NoBody);
        rest.lb.index == run.cursor && run.outcome.Some? &&
        var ack := Acknowledge(run.outcome.value);
        err == if ack.None? then None else Some(Tagged("UNRegisterService", ack.value))
    {
      var outcome := Call(DELETE_VERB, Api(MicroServicePath(service.serviceId), map[]), DefaultHeaders(domain), NoBody, net);
      var ack := Acknowledge(outcome);
      if ack.None? {
        return None;
      }
      return Some(Tagged("UNRegisterService", ack.value));
    }

    /** `Discovery(consumerId, provider)`: the provider's instances, or none and a `[Discovery]` error. */
    method Discovery(consumerId: string, provider: MicroService, net: Network, wire: Wire) returns (instances: seq<Instance>, err: Option<string>)
      requires Valid() && |rest.lb.endpoints| > 0
      modifies rest.lb
      ensures Valid()
      ensures var run := RestClient.DoLoop(rest.lb.endpoints, old(rest.lb.index), rest.retries, net, GET, DiscoveryApi(provider), DiscoveryHeaders(domain, consumerId), NoBody);
        rest.lb.index == run.cursor && run.outcome.Some? &&
        (instances, err) == Returned("Discovery", Expect(run.outcome.value, ZeroInstances, wire.decodeInstances), (a: GetInstancesResponse) => a.instances, [])
    {
      var outcome := Call(GET, DiscoveryApi(provider), DiscoveryHeaders(domain, consumerId), NoBody, net);
      var r := Expect(outcome, ZeroInstances, wire.decodeInstances);
      if r.Ok? {
        return r.value.instances, None;
      }
      return [], Some(Tagged("Discovery", r.error));
    }

    /** `RegisterInstance(serviceID, instance)`: POST the instance; its assigned id, or a `[RegisterInstance]` error. */
    method RegisterInstance(serviceId: string, instance: Instance, net: Network, wire: Wire) returns (instanceId: string, err: Option<string>)
      requires Valid() && |rest.lb.endpoints| > 0
      modifies rest.lb
      ensures Valid()
      ensures var run := RestClient.DoLoop(rest.lb.endpoints, old(rest.lb.index), rest.retries, net, POST, Api(InstancesPath(serviceId), map[]),
          DefaultHeaders(domain), JsonBody(wire.encodeRegisterInstance(RegisterInstanceRequest(instance))));
        rest.lb.index == run.cursor && run.outcome.Some? &&
        (instanceId, err) == Returned("RegisterInstance", Expect(run.outcome.value, ZeroRegisterInstance, wire.decodeRegisterInstance), (a: RegisterInstanceResponse) => a.instanceId, "")
    {
      var outcome := Call(POST, Api(InstancesPath(serviceId), map[]), DefaultHeaders(domain), JsonBody(wire.encodeRegisterInstance(RegisterInstanceRequest(instance))), net);
      var r := Expect(outcome, ZeroRegisterInstance, wire.decodeRegisterInstance);
      if r.Ok? {
        return r.value.instanceId, None;
      }
      return "", Some(Tagged("RegisterInstance", r.error));
    }

    /** `UnregisterInstance(serviceID, instance)`: DELETE the instance; nothing, or an `[UNRegisterInstance]` error. */
    method UnregisterInstance(serviceId: string, instance: Instance, net: Network) returns (err: Option<string>)
      requires Valid() && |rest.lb.endpoints| > 0
      modifies rest.lb
      ensures Valid()
      ensures var run := RestClient.DoLoop(rest.lb.endpoints, old(rest.lb.index), rest.retries, net, DELETE_VERB, Api(InstancePath(serviceId, instance.instanceId), map[]), DefaultHeaders(domain), NoBody);
        rest.lb.index == run.cursor && run.outcome.Some? &&
        var ack := Acknowledge(run.outcome.value);
        err == if ack.None? then None else Some(Tagged("UNRegisterInstance", ack.value))
    {
      var outcome := Call(DELETE_VERB, Api(InstancePath(serviceId, instance.instanceId), map[]), DefaultHeaders(domain), NoBody, net);
      var ack := Acknowledge(outcome);
      if ack.None? {
        return None;
      }
      return Some(Tagged("UNRegisterInstance", ack.value));
    }

    /** `Heartbeat(instances...)`: one PUT carrying every element; nothing, or a `[Heartbeat]` error. */
    method Heartbeat(instances: seq<HeartbeatSetElement>, net: Network, wire: Wire) returns (err: Option<string>)
      requires Valid() && |rest.lb.endpoints| > 0
      modifies rest.lb
      ensures Valid()
      ensures var run := RestClient.DoLoop(rest.lb.endpoints, old(rest.lb.index), rest.retries, net, PUT, Api(ApiHeartbeats, map[]),
          DefaultHeaders(domain), JsonBody(wire.encodeHeartbeat(HeartbeatSetRequest(instances))));
        rest.lb.index == run.cursor && run.outcome.Some? &&
        var ack := Acknowledge(run.outcome.value);
        err == if ack.None? then None else Some(Tagged("Heartbeat", ack.value))
    {
      var outcome := Call(PUT, Api(ApiHeartbeats, map[]), DefaultHeaders(domain), JsonBody(wire.encodeHeartbeat(HeartbeatSetRequest(instances))), net);
      err := Acknowledge(outcome);
      if err.Some? {
        return Some(Tagged("Heartbeat", err.value));
      }
      return None;
    }

    /**
     * `WatchService(ctx, serviceID, callback)`: dial the watcher path, then
     * hand each decoded text message to the callback until a read or decode
     * error.  The callback's calls are returned as `delivered`; `frames` is
     * what the connection delivers.  `err` is `None` while the loop is still
     * reading when the frames run out.  Uses the dial that reports failures.
     */
    method WatchService(serviceId: string, dial: RestClient.Dialer, frames: seq<Frame>, wire: Wire)
      returns (delivered: seq<WatchInstanceResponse>, err: Option<string>)
      requires Valid() && |rest.lb.endpoints| > 0
      modifies rest.lb
      ensures Valid()
      ensures var run := RestClient.DialLoop(rest.lb.endpoints, old(rest.lb.index), rest.retries, WatcherPath(serviceId), DefaultHeaders(domain), dial, None);
        var received := Receive(frames, wire.decodeWatch);
        rest.lb.index == run.cursor &&
        (run.err.Some? ==> delivered == [] && err == Some(DialFailure + run.err.value)) &&
        (run.err.None? ==> run.conn.Some? && delivered == received.delivered &&
                           (err.Some? <==> received.stopped) && (err.Some? ==> err.value == ReceiveFailure))
    {
      ghost var start := rest.lb.index;
      var conn, dialErr := rest.WebsocketDialChecked(WatcherPath(serviceId), DefaultHeaders(domain), dial);
      RestClient.DialReportsFailure(rest.lb.endpoints, start, rest.retries, WatcherPath(serviceId), DefaultHeaders(domain), dial, None);
      if dialErr.Some? {
        return [], Some(DialFailure + dialErr.value);
      }
      delivered, err := [], None;
      var i := 0;
      while i < |frames|
        invariant 0 <= i <= |frames| && err.None?
        invariant var rest := Receive(frames[i..], wire.decodeWatch);
          Receive(frames, wire.decodeWatch) == Received(delivered + rest.delivered, rest.stopped)
      {
        assert frames[i..][1..] == frames[i + 1..];
        var frame := frames[i];
        if frame.ReadError? {
          err := Some(ReceiveFailure);
          break;
        }
        if frame.messageType == TextMessage {
          var data := wire.decodeWatch(frame.data);
          if data.Err? {
            err := Some(ReceiveFailure);
            break;
          }
          delivered := delivered + [data.value];
        }
        i := i + 1;
      }
    }
  }
}
