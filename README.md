# service-center-demo REST helloworld, modelled in Dafny

This project models the core of the REST "helloworld" example of
service-center-demo. A provider registers itself and its instance with a
ServiceComb service center, keeps the instance alive with heartbeats and
unregisters on exit. A consumer discovers a provider, caches its instance
list, keeps the cache current from the registry's watch stream, and turns
the cached instances into dialable HTTP endpoints.

The modules follow the Go packages:

- `Wrappers`, `Text`, `Url`: `Option`/`Result`, and the parts of Go's
  `strings`, `strconv` and `net/url` that the core depends on. These are
  `strings.Split`, decimal printing, `strconv.Atoi`, and `url.Parse`/`String`
  as far as scheme handling goes.
- `Proto`: the registry's wire records (`MicroService`, `MicroServiceInstance`,
  heartbeat and watch messages).
- `Rest` (`common/restful/rest.go`): the request body (`toReader`), one HTTP
  exchange, and how a response is interpreted (`ParseResponse`).
- `RestClient` (`common/restful/client.go`): the round-robin balancer, a
  class whose cursor `Next` advances. Also the client that retries once per
  endpoint (`Do`) and its WebSocket dial.
- `RegistryV3` (`common/servicecenter/v3/registery.go`): the v3 REST client of
  the service center. It covers the paths, headers and queries, and each
  operation as a method over the retrying client. `WatchService`'s receive
  loop is modelled over the frames the connection delivers.
- `AppConfig` (`config/config.go`): the configuration records and
  `LoadConfig`'s validation. This covers the listen address (Go's
  `net.SplitHostPort`, brackets included), the port, the tenant defaults and
  the registry endpoints. The loader rebuilds the listen address as the
  source does; a `Rebuild` parameter selects the corrected rule instead (see
  Findings).
- `Providers`: the logic shared by both service-center packages. This is the
  record transforms, the endpoint rewriting `rest` → `http`, the provider
  cache (a class over a map from service id to instance list) with the watch
  callback's update rule, and the heartbeat loop.
- `CommonServiceCenter` (`common/servicecenter/servicecenter.go`) and
  `ServiceCenter` (`servicecenter/servicecenter.go`): the package-level state
  (client, tenant, provider cache) as a `Session` class. Its methods make the
  registry calls in the source's order. A ghost trace records that order.

Everything outside the process is a parameter:

- the network: a function from request to response or error;
- the WebSocket dialer;
- JSON encoding and decoding (`Wire`);
- the decoded configuration file and the host name;
- timer ticks and cancellation: a sequence of events;
- the registry client seen by the session layer: a datatype of functions
  giving what each call returns.

Go's `net.SplitHostPort` is modelled in full, including bracketed IPv6 hosts.
That is needed to show the listen-address finding below.

## Model

| member | source | states |
|---|---|---|
| Text.SplitPieces | helloworld/rest/config/config.go:109 | splitting gives one more part than there are separators, and no part contains the separator |
| Text.JoinSplit | helloworld/rest/config/config.go:109 | joining the parts of a split with the separator gives back the original address |
| Text.SplitJoin | helloworld/rest/config/config.go:109 | splitting a join of separator-free parts gives back exactly those parts |
| Text.SplitNoSeparator | helloworld/rest/config/config.go:109 | an address without a comma is a single endpoint |
| Text.SplitConcat | helloworld/rest/config/config.go:109 | splitting `a,b` gives the parts of `a` followed by the parts of `b` |
| Text.NatToDecimalDigits | helloworld/rest/common/restful/rest.go:46 | decimal printing of a status code yields a non-empty digit string whose value is the number |
| Text.AtoiIntToDecimal | helloworld/rest/config/config.go:98 | `strconv.Atoi` reads back every printed 64-bit integer |
| Text.AtoiAccepts | helloworld/rest/config/config.go:98-101 | what `Atoi` accepts: a non-empty optional sign followed by digits, within the 64-bit range |
| Url.ToStringParse | helloworld/rest/common/servicecenter/servicecenter.go:87-95 | printing a parsed lower-case address gives the address back |
| Url.ParseToString | helloworld/rest/common/restful/client.go:74-83 | parsing a printed address with a valid scheme and no control characters gives back its scheme and remainder |
| Rest.ToReader | helloworld/rest/common/restful/rest.go:69-88 | only a nil body yields no reader; only a value whose JSON encoding fails is an error; text, bytes and readers pass through |
| Rest.DoRequest | helloworld/rest/common/restful/rest.go:15-38 | a value that cannot be encoded fails with " request body wrong: " and the encoder's reason, whatever the network would answer; every other body reaches the network as it is (none, the reader's content, the text, the bytes, the JSON encoding) in one request to the chosen endpoint |
| Rest.ParseResponse | helloworld/rest/common/restful/rest.go:40-67 | a read failure is reported first; a wrong code is an error naming the code and the body; success exactly when the body is read, the code matches and the writer or decoder accepts it; what each kind of target then holds |
| Rest.EchoIntoText | helloworld/rest/common/restful/rest.go:40-88 | a payload that `toReader` produced and the peer echoed back lands unchanged in a text target |
| Rest.EchoIntoDecoded | helloworld/rest/common/restful/rest.go:40-88 | a JSON body echoed back decodes to the value that was encoded, when decoding inverts encoding |
| RestClient.NextOf | helloworld/rest/common/restful/client.go:35-48 | with no endpoints `Next` returns "" and leaves the cursor; otherwise it returns the endpoint at the new cursor, which is in range |
| RestClient.NextIsSuccessor | helloworld/rest/common/restful/client.go:40-47 | one step from cursor `c` returns the endpoint at `(c + 1) mod n` |
| RestClient.KthCall | helloworld/rest/common/restful/client.go:26-48 | call number `k` on a fresh balancer returns `endpoints[k mod n]` and leaves the cursor at `k mod n` |
| RestClient.FullRotation | helloworld/rest/common/restful/client.go:26-48 | the first `n` calls visit every endpoint in order, and call `n` wraps back to the first |
| RestClient.RoundRobinLB.constructor | helloworld/rest/common/restful/client.go:26-33 | a balancer holds the endpoints with its cursor at -1 |
| RestClient.RoundRobinLB.Next | helloworld/rest/common/restful/client.go:35-48 | `Next` agrees with `NextOf` and returns `endpoints[calls mod n]` |
| RestClient.DoTriesInOrder | helloworld/rest/common/restful/client.go:54-65 | `Do` makes between 1 and `retries` attempts, or none when retries is 0, against the endpoints following the cursor in round-robin order |
| RestClient.DoStopsAtFirstSuccess | helloworld/rest/common/restful/client.go:56-62 | every attempt before the last got a transport error; the result is the last attempt's; an error result means every retry was spent |
| RestClient.EveryEndpointTriedOnce | helloworld/rest/common/restful/client.go:50-65 | when all attempts fail, the attempts are the endpoint list rotated to start after the cursor, a permutation of it |
| RestClient.FailoverToSecond | helloworld/rest/common/restful/client.go:54-65 | with the first endpoint unreachable and the second answering, `Do` tries both and returns the second's response |
| RestClient.Client.constructor | helloworld/rest/common/restful/client.go:50-52 | a client gets a fresh balancer and one retry per endpoint |
| RestClient.Client.Do | helloworld/rest/common/restful/client.go:54-65 | the method's response, error and cursor are those of the `DoLoop` specification |
| RestClient.WsScheme | helloworld/rest/common/restful/client.go:79-83 | `https` becomes `wss` and every other scheme `ws` |
| RestClient.Client.WebsocketDial | helloworld/rest/common/restful/client.go:71-92 | the dial as written: the connection and cursor of `DialLoopAsWritten`, and never an error |
| RestClient.WebsocketDialNeverFails | helloworld/rest/common/restful/client.go:71-92 | as written, the dial loop reports no error whatever the parses and dials do |
| RestClient.WebsocketDialLosesError | helloworld/rest/common/restful/client.go:74-91 | as written, one endpoint whose dial fails yields neither a connection nor an error |
| RestClient.Client.WebsocketDialChecked | helloworld/rest/common/restful/client.go:71-92 | the corrected dial: connection, error and cursor of `DialLoop` |
| RestClient.DialReportsFailure | helloworld/rest/common/restful/client.go:71-92 | corrected, a dial that makes an attempt yields a connection exactly when it reports no error |
| RestClient.DialTarget | helloworld/rest/common/restful/client.go:74-84 | endpoint `scheme:rest` is dialled at `ws:rest` or `wss:rest` followed by the path |
| RegistryV3.InstancePathIdentifies | helloworld/rest/common/servicecenter/v3/registery.go:162-172 | two instance paths are equal exactly when they name the same service and instance |
| RegistryV3.WatcherPathIdentifies | helloworld/rest/common/servicecenter/v3/registery.go:120-124 | watcher and service paths each identify one service, and a watcher path is never a service path |
| RegistryV3.PathSegments | helloworld/rest/common/servicecenter/v3/registery.go:19-23 | the service, watcher, instances and instance paths are the collection path's `/`-segments followed by the service id, then `watcher`, `instances`, or `instances` and the instance id |
| RegistryV3.ExistenceApi | helloworld/rest/common/servicecenter/v3/registery.go:57-63 | the existence query is the discovery query's fields plus `type=microservice`, on the existence path |
| RegistryV3.DiscoveryApi | helloworld/rest/common/servicecenter/v3/registery.go:98-106 | the discovery query carries exactly the provider's app id, name and version, on the instances path |
| RegistryV3.DefaultHeaders | helloworld/rest/common/servicecenter/v3/registery.go:190-199 | exactly the JSON content type and the domain header, which falls back to "default" |
| RegistryV3.DiscoveryHeaders | helloworld/rest/common/servicecenter/v3/registery.go:104-105 | the default headers plus the consumer id, the defaults unchanged |
| RegistryV3.QueriesIdentifyService | helloworld/rest/common/servicecenter/v3/registery.go:57-63 | the existence and discovery queries carry exactly the identifying fields, so the same query means the same app, name and version |
| RegistryV3.Expect | helloworld/rest/common/servicecenter/v3/registery.go:43-54 | a decoded answer exactly when the exchange got a readable 200 answer that decodes; a transport error passes through; a wrong code is reported with the code and the body |
| RegistryV3.Acknowledge | helloworld/rest/common/servicecenter/v3/registery.go:85-95 | no error exactly when a readable 200 answer came back; a wrong code is reported with the code |
| RegistryV3.Tagged | helloworld/rest/common/servicecenter/v3/registery.go:57-68 | every operation's error starts with its `[op]: ` tag |
| RegistryV3.Returned | helloworld/rest/common/servicecenter/v3/registery.go:57-68 | an operation returns the field on success, and otherwise the zero value with its tagged error |
| RegistryV3.OperationOutcome | helloworld/rest/common/servicecenter/v3/registery.go:43-159 | every value-returning operation succeeds exactly when a 200 answer decodes; otherwise it returns the zero value and an error tagged with its name |
| RegistryV3.NotFoundFails | helloworld/rest/common/servicecenter/v3/registery.go:43-54 | a 404 answer fails every operation, with "404" in the error |
| RegistryV3.Receive | helloworld/rest/common/servicecenter/v3/registery.go:128-141 | the receive loop hands the callback at most one event per frame |
| RegistryV3.ReceiveOne | helloworld/rest/common/servicecenter/v3/registery.go:128-141 | a read or decode failure stops the loop; a text message is delivered; other messages are skipped |
| RegistryV3.ReceiveConcat | helloworld/rest/common/servicecenter/v3/registery.go:128-141 | frames are consumed one after another: `a + b` behaves like `a`, then `b` unless `a` stopped the loop |
| RegistryV3.ReceiveStopsAtFault | helloworld/rest/common/servicecenter/v3/registery.go:128-141 | the loop ends exactly when some frame is a read error or an undecodable text message |
| RegistryV3.IgnoresAfterFault | helloworld/rest/common/servicecenter/v3/registery.go:128-141 | frames after the first fault are never looked at |
| RegistryV3.Client.constructor | helloworld/rest/common/servicecenter/v3/registery.go:38-40 | a client keeps the domain and wraps a fresh retrying client over the endpoints |
| RegistryV3.Client.Call | helloworld/rest/common/restful/client.go:54-65 | with at least one endpoint, a call always makes an attempt, and its outcome is that of the `DoLoop` specification |
| RegistryV3.Client.Existence | helloworld/rest/common/servicecenter/v3/registery.go:43-54 | GET of the existence query with the default headers, read by `Expect` |
| RegistryV3.Client.GetServiceID | helloworld/rest/common/servicecenter/v3/registery.go:57-68 | the service id from the existence answer, or "" and a `[GetServiceID]` error |
| RegistryV3.Client.RegisterService | helloworld/rest/common/servicecenter/v3/registery.go:71-82 | POST of the encoded service; the assigned id, or "" and a `[RegisterService]` error |
| RegistryV3.Client.UnregisterService | helloworld/rest/common/servicecenter/v3/registery.go:85-95 | DELETE of the service's path; no error exactly on a readable 200 answer, else an `[UNRegisterService]` error |
| RegistryV3.Client.Discovery | helloworld/rest/common/servicecenter/v3/registery.go:98-117 | GET of the discovery query with the consumer header; the instances, or none and a `[Discovery]` error |
| RegistryV3.Client.RegisterInstance | helloworld/rest/common/servicecenter/v3/registery.go:146-159 | POST of the encoded instance to the service's instances path; the assigned id, or "" and a `[RegisterInstance]` error |
| RegistryV3.Client.UnregisterInstance | helloworld/rest/common/servicecenter/v3/registery.go:162-172 | DELETE of the instance's path; no error exactly on a readable 200 answer, else an `[UNRegisterInstance]` error |
| RegistryV3.Client.Heartbeat | helloworld/rest/common/servicecenter/v3/registery.go:175-187 | one PUT carrying every element; no error exactly on a readable 200 answer, else a `[Heartbeat]` error |
| RegistryV3.Client.WatchService | helloworld/rest/common/servicecenter/v3/registery.go:120-143 | a failed dial delivers nothing and reports the dial error; otherwise the callback gets the events of `Receive`, and an error is reported exactly when the loop stopped |
| AppConfig.SplitHostPort | helloworld/rest/config/config.go:91-94 | on success the port is colon- and bracket-free, the host has no brackets, and the input is `[host]:port`, or `host:port` with a colon-free host |
| AppConfig.SplitJoinHostPort | helloworld/rest/config/config.go:91-102 | splitting a joined host and port gives them back |
| AppConfig.SplitBracketedJoin | helloworld/rest/config/config.go:91-94 | `[host]:port` splits into host and port |
| AppConfig.SplitPlainJoin | helloworld/rest/config/config.go:91-94 | `host:port` with a plain host splits into host and port |
| AppConfig.ListenAddressAsWritten | helloworld/rest/config/config.go:86-102 | the rule as written accepts and rejects exactly what the corrected rule does, with the same errors, and rebuilds an accepted address as the defaulted host, `:` and the positive port |
| AppConfig.ListenAddressAccepted | helloworld/rest/config/config.go:86-102 | corrected rule: an accepted listen address splits back into the given host, or 127.0.0.1 when it was empty, and a positive port |
| AppConfig.ListenAddressIdempotent | helloworld/rest/config/config.go:86-102 | corrected rule: normalising an accepted listen address again changes nothing |
| AppConfig.ListenAddressAgrees | helloworld/rest/config/config.go:91-102 | for hosts without a colon, the corrected rule and the rule as written agree |
| AppConfig.AsWrittenDropsBrackets | helloworld/rest/config/config.go:102 | as written, `[h]:p` with an IPv6 host becomes `h:p`, which no longer splits |
| AppConfig.CorrectedKeepsBrackets | helloworld/rest/config/config.go:102 | corrected, `[h]:p` is kept as it is |
| AppConfig.LoopbackListenAddress | helloworld/rest/config/config.go:91-102 | `[::1]:8080` becomes `::1:8080` as written, which fails to split; corrected, it stays `[::1]:8080` |
| AppConfig.FirstParseError | helloworld/rest/config/config.go:110-115 | no error exactly when every endpoint parses |
| AppConfig.DefaultTenant | helloworld/rest/config/config.go:70-80 | both tenant fields are non-empty, and given non-empty fields are kept |
| AppConfig.CheckEndpoints | helloworld/rest/config/config.go:110-115 | the endpoint loop reports the first endpoint that does not parse, or none |
| AppConfig.LoadConfig | helloworld/rest/config/config.go:54-117 | the step-by-step loader computes the `Loaded` specification with the listen address rebuilt as written |
| AppConfig.LoadInstance | helloworld/rest/config/config.go:82-103 | the step-by-step instance check, `host + ":" + port` included, computes the `LoadedInstance` specification as written |
| AppConfig.LoadedInstanceAgrees | helloworld/rest/config/config.go:82-103 | when the listen host holds no ':', the instance check as written and as corrected give the same result |
| AppConfig.LoadedAgrees | helloworld/rest/config/config.go:54-117 | when the listen host holds no ':', the loader as written and as corrected give the same result |
| AppConfig.LoadedIsComplete | helloworld/rest/config/config.go:54-117 | under either rule, a loaded configuration has a full tenant and endpoints that parse and join back to the address; its instance address splits into a host and a positive port under the corrected rule, and as written when the listen host holds no ':' |
| AppConfig.LoadedIdempotent | helloworld/rest/config/config.go:54-117 | loading an already loaded configuration gives it back: always under the corrected rule, and as written when the listen host holds no ':' |
| AppConfig.LoadedInstanceIdempotent | helloworld/rest/config/config.go:82-103 | checking an already checked instance gives it back: always under the corrected rule, and as written when the listen host holds no ':' |
| AppConfig.AsWrittenReloadFails | helloworld/rest/config/config.go:82-103 | as written, an instance at `[::1]:8080` is loaded as `::1:8080`, and checking that result again fails |
| AppConfig.RegistryEndpointsShape | helloworld/rest/config/config.go:105-109 | the endpoints are the comma-separated pieces of the address: one more than the commas, none holding a comma, joining back to it |
| Providers.TransformMicroService | helloworld/rest/common/servicecenter/servicecenter.go:166-173 | the registry record carries the configured id, application, name and version |
| Providers.TransformInstance | helloworld/rest/common/servicecenter/servicecenter.go:175-181 | one endpoint, which parses back into the protocol as scheme and `//` plus the listen address; the configured id and host name |
| Providers.TransformIdentifies | helloworld/rest/common/servicecenter/servicecenter.go:166-173 | two configured services map to the same wire record exactly when app, id, name and version agree |
| Providers.DialableAllLength | helloworld/rest/common/servicecenter/servicecenter.go:84-96 | unparsable endpoints are skipped: never more results than endpoints, and as many exactly when all parse |
| Providers.DialableAllConcat | helloworld/rest/common/servicecenter/servicecenter.go:86-96 | endpoints are rewritten one by one, in order |
| Providers.InstanceEndpointsConcat | helloworld/rest/common/servicecenter/servicecenter.go:84-97 | instance lists contribute their endpoints in order |
| Providers.ParseEndpoint | helloworld/rest/common/servicecenter/servicecenter.go:87-95 | one endpoint gives its dialable form, or nothing when it does not parse |
| Providers.DialableEndpoints | helloworld/rest/common/servicecenter/servicecenter.go:85-96 | the inner loop yields the dialable forms of one instance's endpoints, in order |
| Providers.RestBecomesHttp | helloworld/rest/common/servicecenter/servicecenter.go:92-95 | `rest:x` becomes `http:x` |
| Providers.OtherSchemesKept | helloworld/rest/common/servicecenter/servicecenter.go:87-95 | any other parsable lower-case endpoint is kept as it is |
| Providers.TransformedInstanceDialable | helloworld/rest/common/servicecenter/servicecenter.go:175-181 | a registered `rest` instance is dialled at `http://` plus its listen address |
| Providers.Position | helloworld/rest/common/servicecenter/servicecenter.go:113-114 | the first instance with the id, or none when no instance has it |
| Providers.Without | helloworld/rest/common/servicecenter/servicecenter.go:112-130 | no instance with the id remains |
| Providers.ApplyEventOthers | helloworld/rest/common/servicecenter/servicecenter.go:112-130 | an event changes no instance with a different id |
| Providers.ApplyEventEffect | helloworld/rest/common/servicecenter/servicecenter.go:112-130 | unique ids stay unique; DELETE leaves no instance with the id; any other action leaves the event's instance in the list |
| Providers.UpsertUpsertDelete | helloworld/rest/common/servicecenter/servicecenter.go:112-130 | update a, add b, delete a: the list is `[b]` |
| Providers.ApplyAll | helloworld/rest/common/servicecenter/servicecenter.go:103-133 | watch events never add or remove a cached provider |
| Providers.ApplyAllUntouched | helloworld/rest/common/servicecenter/servicecenter.go:105-109 | a provider that no event names keeps its list |
| Providers.ApplyAllKeepsUnique | helloworld/rest/common/servicecenter/servicecenter.go:103-133 | when every cached list has unique instance ids, so does every list after any run of watch events |
| Providers.ApplyAllConcat | helloworld/rest/common/servicecenter/servicecenter.go:103-133 | events are applied one after another |
| Providers.ProviderCache.constructor | helloworld/rest/common/servicecenter/servicecenter.go:19 | the cache starts empty |
| Providers.ProviderCache.Store | helloworld/rest/common/servicecenter/servicecenter.go:132 | storing replaces one provider's list |
| Providers.ProviderCache.Endpoints | helloworld/rest/common/servicecenter/servicecenter.go:77-99 | a cached provider's dialable endpoints, or `provider "<name>" not found` |
| Providers.ProviderCache.Apply | helloworld/rest/common/servicecenter/servicecenter.go:105-132 | the in-place splice computes `Applied`, which changes only the named provider's list |
| Providers.ProviderCache.ApplyEach | helloworld/rest/common/servicecenter/servicecenter.go:103-133 | the cache after a stream of events is `ApplyAll` of them |
| Providers.HeartbeatsStop | helloworld/rest/common/servicecenter/servicecenter.go:139-164 | beats are sent only on ticks and all but a failing last one succeeded; the loop stops at the first failure with its error, or at the cancellation, or runs while there are ticks |
| Providers.FourthHeartbeatFails | helloworld/rest/common/servicecenter/servicecenter.go:146-155 | with steady ticks and the fourth beat failing, exactly four beats are sent and the loop ends with that error |
| Providers.HeartbeatLoop | helloworld/rest/common/servicecenter/servicecenter.go:139-164 | the loop computes the `Heartbeats` specification |
| CommonServiceCenter.Session.constructor | helloworld/rest/common/servicecenter/servicecenter.go:16-20 | no client, an empty cache and no calls |
| CommonServiceCenter.Session.InitRegistry | helloworld/rest/common/servicecenter/servicecenter.go:22-24 | the client is created for the domain and the registry's endpoints |
| CommonServiceCenter.Session.Register | helloworld/rest/common/servicecenter/servicecenter.go:26-46 | looks the service up and registers it only when no id comes back; a failed service registration ends the call; the instance is registered under the id; calls in that order |
| CommonServiceCenter.Session.Unregister | helloworld/rest/common/servicecenter/servicecenter.go:48-63 | the instance is removed first and a failure ends the call; otherwise a 3-second pause, then the service is removed |
| CommonServiceCenter.Session.Discovery | helloworld/rest/common/servicecenter/servicecenter.go:65-75 | an error or an empty list is "provider not found" and the cache is untouched; otherwise the list is cached under the first instance's service id, which is returned |
| CommonServiceCenter.Session.ProviderEndpoints | helloworld/rest/common/servicecenter/servicecenter.go:77-99 | a cached provider's dialable endpoints, or the not-found error |
| CommonServiceCenter.Session.WatchProvider | helloworld/rest/common/servicecenter/servicecenter.go:102-137 | the cache is updated by every delivered event in order |
| CommonServiceCenter.Session.Heartbeat | helloworld/rest/common/servicecenter/servicecenter.go:139-164 | sends the service and instance ids on every tick until a failure or cancellation |
| ServiceCenter.Session.constructor | helloworld/rest/servicecenter/servicecenter.go:16-21 | no client, no tenant, an empty cache |
| ServiceCenter.Session.InitRegistry | helloworld/rest/servicecenter/servicecenter.go:23-29 | connected exactly when client creation succeeds; the tenant is recorded only then |
| ServiceCenter.Session.Register | helloworld/rest/servicecenter/servicecenter.go:31-55 | lookup, then creation when no id comes back, then instance registration; any failure that ends the call reports no ids |
| ServiceCenter.Session.Unregister | helloworld/rest/servicecenter/servicecenter.go:57-70 | the instance is removed by id first and a failure ends the call; otherwise a 3-second pause, then the service is deleted |
| ServiceCenter.Session.Discovery | helloworld/rest/servicecenter/servicecenter.go:72-82 | an error or an empty list is "provider not found" and the cache is untouched; otherwise the list is cached under the first instance's service id |
| ServiceCenter.Session.ProviderEndpoints | helloworld/rest/servicecenter/servicecenter.go:84-106 | a cached provider's dialable endpoints, or the not-found error |
| ServiceCenter.Session.WatchProvider | helloworld/rest/servicecenter/servicecenter.go:109-144 | the cache is updated by every delivered event in order |
| ServiceCenter.Session.Heartbeat | helloworld/rest/servicecenter/servicecenter.go:146-167 | sends the tenant, service and instance ids on every tick until a failure or cancellation; a cancellation before the first tick sends nothing, even with no instance configured |

## Left out

- `RoundRobinLB.Next` is modelled single-threaded. The compare-and-swap always succeeds, so the re-read after a lost race (client.go:47) never happens. The `int32` cursor is unbounded.
- Concurrency is not modelled: the `sync.Map` cache, goroutines, and races between the watch callback and readers.
- The watch callback splices the cached slice in place. A reader holding the old slice could see the change; the model works on values, so this aliasing is not captured.
- Timers and `time.Sleep` are not modelled as time. A heartbeat run is a sequence of tick and cancel events, and the 3-second pause is a `Sleep` entry in the call trace.
- Logging is not modelled, including the error that the common `WatchProvider` only logs.
- I/O is not modelled: reading the YAML file, decoding it, and `os.Hostname`. `LoadConfig` takes the decoded result and the host name as parameters, so a read or decode error is an `Err` passed in.
- JSON encoding and decoding, the HTTP transport and the WebSocket handshake are not modelled; they are function parameters.
- `http.NewRequest` failing on a malformed URL is folded into the network's answer.
- `url.Values.Encode` is not modelled: a query is a map.
- `Url.Parse` models only what the core relies on (control characters, the scheme, a colon in the first segment). It returns the bare reason without Go's `parse "<raw>": ` prefix. The same holds for `Text.Atoi`'s error text where it is wrapped.
- Url.ToStringParse, Url.ParseToString, Providers.RestBecomesHttp, Providers.OtherSchemesKept: these hold for the model's `Url.Parse` and `Url.ToString`, not for Go's `net/url`. Go's parser also rejects a bad authority (a non-numeric port as in `rest://h:x`, an unclosed `[` as in `rest://[::1`) and a bad percent-escape (`rest://h/%zz`), which the model accepts, so such endpoints are kept where Go drops them. Go's `String` also re-escapes the path (`http://h/a b` prints as `http://h/a%20b`), while the model prints the remainder unchanged.
- Proto.WatchInstanceResponse always carries an instance. Go's field is a pointer, and both `WatchProvider` callbacks read `result.Instance.ServiceId` (common/servicecenter/servicecenter.go:105, servicecenter/servicecenter.go:112) without a nil check, so a watch message without an instance panics there. That panic is not modelled.
- The service-center library (`sc.SCClient`) used by `servicecenter/servicecenter.go` is not part of this model. Its operations are parameters, and `NewSCClient` is taken to return no client on error.
- `ServiceExistence`'s trailing service argument is dropped.
- The session layer sees the v3 client as functions of the call's arguments. The balancer state a real client would carry from call to call is not threaded through; module RegistryV3 models that state per call.
- `WatchProvider`: the events are applied after the stream has delivered them, not interleaved with the reads.
- `common/config`, which `common/servicecenter/servicecenter.go` imports, is not part of this model. Its records are taken to have the shapes of `config/config.go`.
- RegistryV3.Client operations require at least one endpoint. With none, Go's `Do` returns a nil response and a nil error, and `ParseResponse` then dereferences the nil response.
- CommonServiceCenter.Session.Heartbeat requires a configured instance, because Go reads `svc.Instance.ID` before the loop (common/servicecenter/servicecenter.go:142). It needs a connected client only when a tick comes before the first cancellation.
- ServiceCenter.Session.Heartbeat requires a configured instance and a connected client only when a tick comes before the first cancellation. Go reads `svc.Instance.ID` and uses `cli` only on a tick (servicecenter/servicecenter.go:153), so a missing instance panics at the first tick, which is not modelled.
- RegistryV3.Client.WatchService uses the corrected dial (see Findings). The context's cancellation of the read loop is not modelled: frames simply run out.
- `Client.ParseResponse` (client.go:67-69) only delegates to `ParseResponse` and has no member of its own.
- `consumer.go` and `provider.go` are callers and are not part of this model.
- Registration followed by lookup returning the same id depends on the registry server and is not stated.
- LoadedIsComplete: for the loader as written (config.go:102), the instance-address conjunct is proved only when the listen host holds no ':'. With an IPv6 host the rebuilt address no longer splits (`AsWrittenDropsBrackets`).
- LoadedIdempotent: for the loader as written, proved only when the listen host holds no ':'. With an IPv6 host reloading fails (`AsWrittenReloadFails`), so the source does not have the property.
- LoadedInstanceIdempotent: the same gap as `LoadedIdempotent`, for the instance section alone.
- Rest.ParseResponse: a target whose write or JSON decode fails is stated to be unchanged. Go's `json.Unmarshal` and a failing `Write` may leave it partly filled; every caller discards the target on error.

## Findings

| source | as written | input that shows it | evidently intended | confidence | as-written member | corrected member |
|---|---|---|---|---|---|---|
| helloworld/rest/common/restful/client.go:71-91 | `err` declared inside the loop (line 74) shadows the named result, so a failed parse or dial is never returned | endpoints `["http://a"]` whose dial fails: result is a nil connection and a nil error | a failed dial returns its error, so callers such as `WatchService` do not read from a nil connection | high (not executed) | RestClient.Client.WebsocketDial, RestClient.WebsocketDialLosesError | RestClient.Client.WebsocketDialChecked, RestClient.DialReportsFailure |
| helloworld/rest/config/config.go:102 | the listen address is rebuilt as `host + ":" + port`, dropping the brackets of an IPv6 host | `[::1]:8080` becomes `::1:8080`, which `net.SplitHostPort` (and so the HTTP listener) rejects | rebuild with `net.JoinHostPort`, keeping `[::1]:8080` | high (not executed) | AppConfig.ListenAddressAsWritten, AppConfig.LoadInstance, AppConfig.LoadConfig, AppConfig.LoopbackListenAddress, AppConfig.AsWrittenDropsBrackets, AppConfig.AsWrittenReloadFails | AppConfig.ListenAddress, AppConfig.CorrectedKeepsBrackets, AppConfig.ListenAddressIdempotent, AppConfig.LoadedIdempotent, AppConfig.LoadedIsComplete |
