/**
 * helloworld/rest/common/servicecenter/servicecenter.go: registration,
 * discovery, the provider cache and heartbeats on top of the v3 registry
 * client.  The configuration records come from `common/config`, which is
 * not part of this model; they are taken to have the shapes of
 * `config/config.go` (module AppConfig).
 */
module CommonServiceCenter {
  import opened Wrappers
  import opened Proto
  import AppConfig
  import opened Providers

  /**
   * The v3 client as this layer sees it: what each operation returns, as a
   * function of its arguments (module RegistryV3 models how the client
   * computes it).  Heartbeat number `k` reports `heartbeat(element, k)`;
   * `watchService` gives the events the stream delivers before it ends.
   */
  datatype Client = Client(
    getServiceId: MicroService -> (string, Option<string>),
    registerService: MicroService -> (string, Option<string>),
    registerInstance: (string, Instance) -> (string, Option<string>),
    unregisterInstance: (string, Instance) -> Option<string>,
    unregisterService: MicroService -> Option<string>,
    discovery: (string, MicroService) -> (seq<Instance>, Option<string>),
    watchService: string -> seq<WatchInstanceResponse>,
    heartbeat: (HeartbeatSetElement, nat) -> Option<string>)

  /** The registry calls this layer makes (and its pause), in order. */
  datatype Call =
    | GetServiceId(service: MicroService)
    | RegisterService(service: MicroService)
    | RegisterInstance(serviceId: string, instance: Instance)
    | UnregisterInstance(serviceId: string, instance: Instance)
    | Sleep(seconds: nat)
    | UnregisterService(service: MicroService)
    | Discover(consumerId: string, service: MicroService)
    | WatchService(serviceId: string)

  /** The package's state: the client (`cli`) and the provider cache (`providerCaches`). */
  class Session {
    /** Whether `InitRegistry` has created the client; every registry operation needs it. */
    var connected: bool
    var domain: string
    var endpoints: seq<string>
    const cache: ProviderCache
    ghost var calls: seq<Call>

    constructor ()
      ensures !connected && calls == [] && fresh(cache) && cache.entries == map[]
    {
      connected := false;
      domain := "";
      endpoints := [];
      cache := new ProviderCache();
      calls := [];
    }

    /** `InitRegistry`: create the client for the domain and the registry's endpoints. */
    method InitRegistry(domain: string, registry: AppConfig.Registry)
      modifies this
      ensures connected && this.domain == domain && endpoints == registry.endpoints && calls == old(calls)
    {
      connected := true;
      this.domain := domain;
      endpoints := registry.endpoints;
    }

    /**
     * `Register`: look the service up, register it when the lookup gives no
     * id (whatever its error), then register the instance, if configured,
     * under that id.  A failed service registration ends the call; a failed
     * instance registration still reports the service id.
     */
    method Register(svc: AppConfig.MicroService, cli: Client) returns (serviceId: string, instanceId: string, err: Option<string>)
      requires connected
      modifies this
      ensures connected && domain == old(domain) && endpoints == old(endpoints)
      ensures var service := TransformMicroService(svc);
        var found := cli.getServiceId(service).0;
        var created := cli.registerService(service);
        var id := if found == "" then created.0 else found;
        var lookup := [GetServiceId(service)] + (if found == "" then [RegisterService(service)] else []);
        if found == "" && created.1.Some? then
          serviceId == created.0 && instanceId == "" && err == created.1 && calls == old(calls) + lookup
        else if svc.instance.None? then
          serviceId == id && instanceId == "" && err.None? && calls == old(calls) + lookup
        else
          var instance := TransformInstance(svc.instance.value);
          serviceId == id && (instanceId, err) == cli.registerInstance(id, instance) &&
          calls == old(calls) + lookup + [RegisterInstance(id, instance)]
    {
      var service := TransformMicroService(svc);
      instanceId, err := "", None;
      var lookup := cli.getServiceId(service);
      serviceId := lookup.0;
      calls := calls + [GetServiceId(service)];
      if serviceId == "" {
        var created := cli.registerService(service);
        serviceId, err := created.0, created.1;
        calls := calls + [RegisterService(service)];
        if err.Some? {
          return;
        }
      }
      if svc.instance.None? {
        return;
      }
      var instance := TransformInstance(svc.instance.value);
      var registered := cli.registerInstance(serviceId, instance);
      instanceId, err := registered.0, registered.1;
      calls := calls + [RegisterInstance(serviceId, instance)];
    }

    /**
     * `Unregister`: remove the instance, if configured (a failure ends the
     * call), wait, then remove the service.
     */
    method Unregister(svc: AppConfig.MicroService, cli: Client) returns (err: Option<string>)
      requires connected
      modifies this
      ensures connected && domain == old(domain) && endpoints == old(endpoints)
      ensures var service := TransformMicroService(svc);
        if svc.instance.None? then
          err == cli.unregisterService(service) && calls == old(calls) + [Sleep(UnregisterDelay), UnregisterService(service)]
        else
          var instance := TransformInstance(svc.instance.value);
          var removed := cli.unregisterInstance(svc.id, instance);
          if removed.Some? then err == removed && calls == old(calls) + [UnregisterInstance(svc.id, instance)]
          else err == cli.unregisterService(service) &&
               calls == old(calls) + [UnregisterInstance(svc.id, instance), Sleep(UnregisterDelay), UnregisterService(service)]
    {
      var service := TransformMicroService(svc);
      if svc.instance.Some? {
        var instance := TransformInstance(svc.instance.value);
        err := cli.unregisterInstance(svc.id, instance);
        calls := calls + [UnregisterInstance(svc.id, instance)];
        if err.Some? {
          return;
        }
      }
      calls := calls + [Sleep(UnregisterDelay)];
      err := cli.unregisterService(service);
      calls := calls + [UnregisterService(service)];
    }

    /**
     * `Discovery`: find the provider's instances; an error or an empty list
     * is "provider not found"; otherwise the list is cached under the first
     * instance's service id, which is returned.
     */
    method Discovery(consumerId: string, provider: AppConfig.MicroService, cli: Client) returns (serviceId: string, err: Option<string>)
      requires connected
      modifies this, cache
      ensures connected && domain == old(domain) && endpoints == old(endpoints)
      ensures var service := TransformMicroService(provider);
        var (list, failure) := cli.discovery(consumerId, service);
        calls == old(calls) + [Discover(consumerId, service)] &&
        if failure.Some? || |list| == 0 then
          serviceId == "" && err == Some(NoProvider(provider)) && cache.entries == old(cache.entries)
        else
          serviceId == list[0].serviceId && err.None? && cache.entries == old(cache.entries)[serviceId := list]
    {
      var service := TransformMicroService(provider);
      var found := cli.discovery(consumerId, service);
      var list := found.0;
      calls := calls + [Discover(consumerId, service)];
      if found.1.Some? || |list| == 0 {
        return "", Some(NoProvider(provider));
      }
      cache.Store(list[0].serviceId, list);
      return list[0].serviceId, None;
    }

    /** `ProviderEndpoints`: the dialable endpoints of a cached provider. */
    method ProviderEndpoints(provider: AppConfig.MicroService) returns (r: Result<seq<string>, string>)
      ensures provider.id in cache.entries ==> r == Ok(InstanceEndpoints(cache.entries[provider.id]))
      ensures provider.id !in cache.entries ==> r == Err(ProviderMissing(provider.name))
    {
      r := cache.Endpoints(provider);
    }

    /** `WatchProvider`: every event the watch stream delivers updates the cache, in order. */
    method WatchProvider(serviceId: string, cli: Client)
      requires connected
      modifies this, cache
      ensures connected && domain == old(domain) && endpoints == old(endpoints)
      ensures cache.entries == ApplyAll(old(cache.entries), cli.watchService(serviceId))
      ensures calls == old(calls) + [WatchService(serviceId)]
    {
      var events := cli.watchService(serviceId);
      calls := calls + [WatchService(serviceId)];
      cache.ApplyEach(events);
    }

    /**
     * `Heartbeat`: on every tick send the service's and instance's ids; stop
     * at the first failure or when cancelled.  The instance's id is read
     * before the loop, so an instance must be configured; the client is used
     * only on a tick.
     */
    method Heartbeat(svc: AppConfig.MicroService, events: seq<TimerEvent>, cli: Client) returns (sent: nat, stop: Stop)
      requires svc.instance.Some? && (connected || |events| == 0 || events[0] == Cancel)
      ensures Beats(sent, stop) == Heartbeats(events, cli.heartbeat, HeartbeatSetElement(svc.id, svc.instance.value.id), 0)
    {
      var element := HeartbeatSetElement(svc.id, svc.instance.value.id);
      sent, stop := HeartbeatLoop(events, cli.heartbeat, element);
    }
  }
}
