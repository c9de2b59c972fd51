/**
 * helloworld/rest/servicecenter/servicecenter.go: the same registration,
 * discovery, cache and heartbeat logic on top of the registry's own client
 * library (`sc.SCClient`), which takes the tenant's domain/project with
 * every call.  That library is not part of this model: its operations are
 * given as functions of their arguments.
 */
module ServiceCenter {
  import opened Wrappers
  import opened Proto
  import AppConfig
  import opened Providers

  /**
   * The library client as this layer sees it.  The first argument of each
   * registry operation is the domain/project; `connect` is the error (if
   * any) of creating a client for a list of endpoints; heartbeat number `k`
   * for (domain/project, service id, instance id) reports `heartbeat(ids, k)`.
   */
  datatype Client = Client(
    connect: seq<string> -> Option<string>,
    serviceExistence: (string, MicroService) -> (string, Option<string>),
    createService: (string, MicroService) -> (string, Option<string>),
    registerInstance: (string, string, Instance) -> (string, Option<string>),
    unregisterInstance: (string, string, string) -> Option<string>,
    deleteService: (string, string) -> Option<string>,
    discoveryInstances: (string, string, MicroService) -> (seq<Instance>, Option<string>),
    watch: (string, string) -> seq<WatchInstanceResponse>,
    heartbeat: ((string, string, string), nat) -> Option<string>)

  /** The registry calls this layer makes (and its pause), in order. */
  datatype Call =
    | ServiceExistence(domainProject: string, service: MicroService)
    | CreateService(domainProject: string, service: MicroService)
    | RegisterInstance(domainProject: string, serviceId: string, instance: Instance)
    | UnregisterInstance(domainProject: string, serviceId: string, instanceId: string)
    | Sleep(seconds: nat)
    | DeleteService(domainProject: string, serviceId: string)
    | DiscoveryInstances(domainProject: string, consumerId: string, service: MicroService)
    | Watch(domainProject: string, serviceId: string)

  /** The package's state: the client (`cli`), the tenant (`domainProject`) and the provider cache. */
  class Session {
    /** Whether a client was created; every registry operation needs it. */
    var connected: bool
    var domainProject: string
    const cache: ProviderCache
    ghost var calls: seq<Call>

    constructor ()
      ensures !connected && domainProject == "" && calls == [] && fresh(cache) && cache.entries == map[]
    {
      connected := false;
      domainProject := "";
      cache := new ProviderCache();
      calls := [];
    }

    /** `InitRegistry`: create the client; the tenant is recorded only when that succeeds. */
    method InitRegistry(tenant: string, registry: AppConfig.Registry, cli: Client) returns (err: Option<string>)
      modifies this
      ensures err == cli.connect(registry.endpoints)
      ensures connected <==> err.None?
      ensures domainProject == if err.None? then tenant else old(domainProject)
      ensures calls == old(calls)
    {
      err := cli.connect(registry.endpoints);
      connected := err.None?;
      if err.None? {
        domainProject := tenant;
      }
    }

    /**
     * `Register`: look the service up, create it when the lookup gives no id
     * (whatever its error), then register the instance, if configured.  Any
     * failure that ends the call reports no ids at all.
     */
    method Register(svc: AppConfig.MicroService, cli: Client) returns (serviceId: string, instanceId: string, err: Option<string>)
      requires connected
      modifies this
      ensures connected && domainProject == old(domainProject)
      ensures var service := TransformMicroService(svc);
        var dp := domainProject;
        var found := cli.serviceExistence(dp, service).0;
        var created := cli.createService(dp, service);
        var id := if found == "" then created.0 else found;
        var lookup := [ServiceExistence(dp, service)] + (if found == "" then [CreateService(dp, service)] else []);
        if found == "" && created.1.Some? then
          serviceId == "" && instanceId == "" && err == created.1 && calls == old(calls) + lookup
        else if svc.instance.None? then
          serviceId == id && instanceId == "" && err.None? && calls == old(calls) + lookup
        else
          var instance := TransformInstance(svc.instance.value);
          var registered := cli.registerInstance(dp, id, instance);
          calls == old(calls) + lookup + [RegisterInstance(dp, id, instance)] &&
          if registered.1.Some? then serviceId == "" && instanceId == "" && err == registered.1
          else serviceId == id && instanceId == registered.0 && err.None?
    {
      var service := TransformMicroService(svc);
      var lookup := cli.serviceExistence(domainProject, service);
      var id := lookup.0;
      calls := calls + [ServiceExistence(domainProject, service)];
      if id == "" {
        var created := cli.createService(domainProject, service);
        id := created.0;
        calls := calls + [CreateService(domainProject, service)];
        if created.1.Some? {
          return "", "", created.1;
        }
      }
      if svc.instance.None? {
        return id, "", None;
      }
      var instance := TransformInstance(svc.instance.value);
      var registered := cli.registerInstance(domainProject, id, instance);
      calls := calls + [RegisterInstance(domainProject, id, instance)];
      if registered.1.Some? {
        return "", "", registered.1;
      }
      return id, registered.0, None;
    }

    /**
     * `Unregister`: remove the instance by id, if configured (a failure ends
     * the call), wait, then delete the service by id.
     */
    method Unregister(svc: AppConfig.MicroService, cli: Client) returns (err: Option<string>)
      requires connected
      modifies this
      ensures connected && domainProject == old(domainProject)
      ensures var dp := domainProject;
        if svc.instance.None? then
          err == cli.deleteService(dp, svc.id) && calls == old(calls) + [Sleep(UnregisterDelay), DeleteService(dp, svc.id)]
        else
          var removed := cli.unregisterInstance(dp, svc.id, svc.instance.value.id);
          if removed.Some? then err == removed && calls == old(calls) + [UnregisterInstance(dp, svc.id, svc.instance.value.id)]
          else err == cli.deleteService(dp, svc.id) &&
               calls == old(calls) + [UnregisterInstance(dp, svc.id, svc.instance.value.id), Sleep(UnregisterDelay), DeleteService(dp, svc.id)]
    {
      if svc.instance.Some? {
        err := cli.unregisterInstance(domainProject, svc.id, svc.instance.value.id);
        calls := calls + [UnregisterInstance(domainProject, svc.id, svc.instance.value.id)];
        if err.Some? {
          return;
        }
      }
      calls := calls + [Sleep(UnregisterDelay)];
      err := cli.deleteService(domainProject, svc.id);
      calls := calls + [DeleteService(domainProject, svc.id)];
    }

    /**
     * `Discovery`: find the provider's instances; an error or an empty list
     * is "provider not found"; otherwise the list is cached under the first
     * instance's service id, which is returned.
     */
    method Discovery(consumerId: string, provider: AppConfig.MicroService, cli: Client) returns (serviceId: string, err: Option<string>)
      requires connected
      modifies this, cache
      ensures connected && domainProject == old(domainProject)
      ensures var service := TransformMicroService(provider);
        var (list, failure) := cli.discoveryInstances(domainProject, consumerId, service);
        calls == old(calls) + [DiscoveryInstances(domainProject, consumerId, service)] &&
        if failure.Some? || |list| == 0 then
          serviceId == "" && err == Some(NoProvider(provider)) && cache.entries == old(cache.entries)
        else
          serviceId == list[0].serviceId && err.None? && cache.entries == old(cache.entries)[serviceId := list]
    {
      var service := TransformMicroService(provider);
      var found := cli.discoveryInstances(domainProject, consumerId, service);
      var list := found.0;
      calls := calls + [DiscoveryInstances(domainProject, consumerId, service)];
      if found.1.Some? || |list| == 0 {
        return "", Some(NoProvider(provider));
      }
      cache.Store(list[0].serviceId, list);
      return list[0].serviceId, None;
    }

    /** `ProviderEndpoints`: the dialable endpoints of a cached provider. */
    method ProviderEndpoints(provider: AppConfig.MicroService) returns (r: Result<seq<string>, string>)
      ensures provider.id in cache.entries ==> r == Ok(InstanceEndpoints(cache.entries[provider.id]))
      ensures provider.id !in cache.entries ==> r == Err(ProviderMissing(provider.name))
    {
      r := cache.Endpoints(provider);
    }

    /** `WatchProvider`: every event the watch stream delivers updates the cache, in order. */
    method WatchProvider(serviceId: string, cli: Client)
      requires connected
      modifies this, cache
      ensures connected && domainProject == old(domainProject)
      ensures cache.entries == ApplyAll(old(cache.entries), cli.watch(domainProject, serviceId))
      ensures calls == old(calls) + [Watch(domainProject, serviceId)]
    {
      var events := cli.watch(domainProject, serviceId);
      calls := calls + [Watch(domainProject, serviceId)];
      cache.ApplyEach(events);
    }

    /**
     * `Heartbeat`: on every tick send the tenant's, service's and instance's
     * ids; stop at the first failure or when cancelled.  The instance id and
     * the client are read only on a tick, so they are needed only when a tick
     * comes before the first cancellation.
     */
    method Heartbeat(svc: AppConfig.MicroService, events: seq<TimerEvent>, cli: Client) returns (sent: nat, stop: Stop)
      requires (connected && svc.instance.Some?) || |events| == 0 || events[0] == Cancel
      ensures svc.instance.Some? ==>
        Beats(sent, stop) == Heartbeats(events, cli.heartbeat, (domainProject, svc.id, svc.instance.value.id), 0)
      // cancelled before the first tick: nothing is sent, whether or not an instance is configured
      ensures |events| > 0 && events[0] == Cancel ==> sent == 0 && stop == Cancelled
      ensures |events| == 0 ==> sent == 0 && stop == Running
    {
      var instanceId := if svc.instance.Some? then svc.instance.value.id else "";
      sent, stop := HeartbeatLoop(events, cli.heartbeat, (domainProject, svc.id, instanceId));
    }
  }
}
