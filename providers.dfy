/**
 * What the two `servicecenter.go` files share: turning configuration
 * records into registry records, the cache of provider instances kept per
 * service id, the endpoints a consumer dials, the update a watch event
 * makes to the cache, and the heartbeat loop.  Both files carry their own
 * copy of this code; here it is written once.
 */
module Providers {
  import opened Wrappers
  import opened Proto
  import Url
  import Text
  import AppConfig

  /** Seconds between two heartbeats (`heartbeatInterval`). */
  const HeartbeatInterval: nat := 30

  /** Seconds `Unregister` waits after removing the instance, before removing the service. */
  const UnregisterDelay: nat := 3

  /** `transformMicroService`: the registry's view of a configured service. */
  function TransformMicroService(svc: AppConfig.MicroService): (r: MicroService)
    ensures r.serviceId == svc.id && r.appId == svc.appId && r.serviceName == svc.name && r.version == svc.version
  {
    MicroService(svc.appId, svc.id, svc.name, svc.version)
  }

  /** `transformInstance`: one endpoint, the protocol and the listen address joined by "://". */
  function TransformInstance(instance: AppConfig.Instance): (r: Instance)
    ensures r.instanceId == instance.id && r.serviceId == "" && r.hostName == instance.hostname && |r.endpoints| == 1
    // the endpoint parses back into the protocol as its scheme and "//" plus the listen address
    ensures Url.ValidScheme(instance.protocol) && !Url.HasCtl("//" + instance.listenAddress) ==>
      Url.Parse(r.endpoints[0]) == Ok(Url.Url(instance.protocol, "//" + instance.listenAddress))
  {
    var endpoint := instance.protocol + "://" + instance.listenAddress;
    if Url.ValidScheme(instance.protocol) && !Url.HasCtl("//" + instance.listenAddress) then
      var u := Url.Url(instance.protocol, "//" + instance.listenAddress);
      Url.ParseToString(u);
      assert Url.ToString(u) == endpoint;
      Instance(instance.id, "", instance.hostname, [endpoint])
    else
      Instance(instance.id, "", instance.hostname, [endpoint])
  }

  /** Two configured services look the same to the registry exactly when their ids, applications, names and versions agree. */
  lemma TransformIdentifies(a: AppConfig.MicroService, b: AppConfig.MicroService)
    ensures TransformMicroService(a) == TransformMicroService(b) <==>
      a.id == b.id && a.appId == b.appId && a.name == b.name && a.version == b.version
  {
    if TransformMicroService(a) == TransformMicroService(b) {
      assert TransformMicroService(a).serviceId == TransformMicroService(b).serviceId;
      assert TransformMicroService(a).appId == TransformMicroService(b).appId;
      assert TransformMicroService(a).serviceName == TransformMicroService(b).serviceName;
    }
  }

  function ProviderMissing(name: string): string {
    "provider \"" + name + "\" not found"
  }

  function NoProvider(provider: AppConfig.MicroService): string {
    "provider not found, serviceName: " + provider.name + " appID: " + provider.appId + ", version: " + provider.version
  }

  // ---------------------------------------------------------------------
  // Endpoints a consumer dials
  // ---------------------------------------------------------------------

  /** One registered endpoint as a consumer dials it: parsed, "rest" read as "http"; `None` when it does not parse. */
  function Dialable(endpoint: string): Option<string> {
    match Url.Parse(endpoint)
    case Err(_) => None
    case Ok(u) => Some(Url.ToString(if u.scheme == "rest" then u.(scheme := "http") else u))
  }

  function DialableOne(endpoint: string): seq<string> {
    match Dialable(endpoint)
    case None => []
    case Some(e) => [e]
  }

  /** The dialable forms of a list of endpoints, in order, the unparsable ones skipped. */
  function DialableAll(endpoints: seq<string>): seq<string>
    decreases |endpoints|
  {
    if |endpoints| == 0 then []
    else DialableAll(endpoints[..|endpoints| - 1]) + DialableOne(endpoints[|endpoints| - 1])
  }

  /** No endpoint is invented, and none is lost unless it does not parse. */
  lemma {:induction false} DialableAllLength(endpoints: seq<string>)
    ensures |DialableAll(endpoints)| <= |endpoints|
    ensures |DialableAll(endpoints)| == |endpoints| <==> forall i :: 0 <= i < |endpoints| ==> Url.Parse(endpoints[i]).Ok?
    decreases |endpoints|
  {
    if |endpoints| > 0 {
      var front, last := endpoints[..|endpoints| - 1], endpoints[|endpoints| - 1];
      DialableAllLength(front);
      DialableOneLength(last);
      assert |DialableAll(endpoints)| == |DialableAll(front)| + |DialableOne(last)|;
      assert forall i :: 0 <= i < |front| ==> front[i] == endpoints[i];
    }
  }

  lemma DialableOneLength(endpoint: string)
    ensures |DialableOne(endpoint)| == if Url.Parse(endpoint).Ok? then 1 else 0
  {
  }

  /** The dialable endpoints of a list of instances, instance by instance. */
  function InstanceEndpoints(instances: seq<Instance>): seq<string>
    decreases |instances|
  {
    if |instances| == 0 then []
    else InstanceEndpoints(instances[..|instances| - 1]) + DialableAll(instances[|instances| - 1].endpoints)
  }

  lemma {:induction false} DialableAllConcat(a: seq<string>, b: seq<string>)
    ensures DialableAll(a + b) == DialableAll(a) + DialableAll(b)
    decreases |b|
  {
    if |b| > 0 {
      var n := |b| - 1;
      assert b == b[..n] + [b[n]];
      assert a + b == (a + b[..n]) + [b[n]];
      DialableAllConcat(a, b[..n]);
      DialableAllSnoc(a + b[..n], b[n]);
      DialableAllSnoc(b[..n], b[n]);
    } else {
      assert a + b == a;
    }
  }

  lemma DialableAllSnoc(s: seq<string>, x: string)
    ensures DialableAll(s + [x]) == DialableAll(s) + DialableOne(x)
  {
    assert (s + [x])[..|s|] == s;
  }

  /** The inner loop of the endpoint listing: the dialable form of each endpoint of one instance. */
  method DialableEndpoints(endpoints: seq<string>) returns (r: seq<string>)
    ensures r == DialableAll(endpoints)
  {
    r := [];
    var j := 0;
    while j < |endpoints|
      invariant 0 <= j <= |endpoints|
      invariant r == DialableAll(endpoints[..j])
    {
      var one := ParseEndpoint(endpoints[j]);
      DialablePrefixStep(endpoints, j);
      r := r + one;
      j := j + 1;
    }
    assert endpoints[..j] == endpoints;
  }

  lemma DialablePrefixStep(endpoints: seq<string>, j: nat)
    requires j < |endpoints|
    ensures DialableAll(endpoints[..j + 1]) == DialableAll(endpoints[..j]) + DialableOne(endpoints[j])
  {
    assert endpoints[..j + 1] == endpoints[..j] + [endpoints[j]];
    DialableAllSnoc(endpoints[..j], endpoints[j]);
  }

  /** One step of the inner loop: parse the endpoint, skip it when that fails, dial "rest" as "http". */
  method ParseEndpoint(endpoint: string) returns (one: seq<string>)
    ensures one == DialableOne(endpoint)
  {
    var parsed := Url.Parse(endpoint);
    if parsed.Err? {
      return [];
    }
    var addr := parsed.value;
    if addr.scheme == "rest" {
      addr := addr.(scheme := "http");
    }
    return [Url.ToString(addr)];
  }

  /** The endpoints of two instance lists are those of the first followed by those of the second. */
  lemma {:induction false} InstanceEndpointsConcat(a: seq<Instance>, b: seq<Instance>)
    ensures InstanceEndpoints(a + b) == InstanceEndpoints(a) + InstanceEndpoints(b)
    decreases |b|
  {
    if |b| > 0 {
      var n := |b| - 1;
      assert b == b[..n] + [b[n]];
      assert a + b == (a + b[..n]) + [b[n]];
      InstanceEndpointsConcat(a, b[..n]);
      InstanceEndpointsSnoc(a + b[..n], b[n]);
      InstanceEndpointsSnoc(b[..n], b[n]);
    } else {
      assert a + b == a;
    }
  }

  lemma InstancePrefixStep(list: seq<Instance>, i: nat)
    requires i < |list|
    ensures InstanceEndpoints(list[..i + 1]) == InstanceEndpoints(list[..i]) + DialableAll(list[i].endpoints)
  {
    assert list[..i + 1] == list[..i] + [list[i]];
    InstanceEndpointsSnoc(list[..i], list[i]);
  }

  lemma InstanceEndpointsSnoc(s: seq<Instance>, x: Instance)
    ensures InstanceEndpoints(s + [x]) == InstanceEndpoints(s) + DialableAll(x.endpoints)
  {
    assert (s + [x])[..|s|] == s;
  }

  /** A "rest" endpoint is dialled as "http" with the rest of the address unchanged. */
  lemma RestBecomesHttp(rest: string)
    requires !Url.HasCtl(rest)
    ensures Dialable("rest:" + rest) == Some("http:" + rest)
  {
    var u := Url.Url("rest", rest);
    assert Url.ToString(u) == "rest:" + rest;
    Url.ParseToString(u);
    assert Url.ToString(u.(scheme := "http")) == "http:" + rest;
  }

  /** A lower-case endpoint with another scheme is dialled exactly as registered. */
  lemma OtherSchemesKept(endpoint: string)
    requires Url.Parse(endpoint).Ok? && Url.Parse(endpoint).value.scheme != "rest"
    requires Text.Lower(endpoint) == endpoint
    ensures Dialable(endpoint) == Some(endpoint)
  {
    Url.ToStringParse(endpoint);
  }

  /** A configured "rest" instance is dialled at "http://" and its listen address. */
  lemma TransformedInstanceDialable(instance: AppConfig.Instance)
    requires instance.protocol == "rest" && !Url.HasCtl("//" + instance.listenAddress)
    ensures InstanceEndpoints([TransformInstance(instance)]) == ["http://" + instance.listenAddress]
  {
    var rest := "//" + instance.listenAddress;
    assert instance.protocol + "://" + instance.listenAddress == "rest:" + rest;
    assert "http:" + rest == "http://" + instance.listenAddress;
    RestBecomesHttp(rest);
    var one := [TransformInstance(instance)];
    var eps := one[0].endpoints;
    assert one[..0] == [] && eps[..0] == [];
    assert DialableOne(eps[0]) == ["http://" + instance.listenAddress];
    assert DialableAll(eps) == DialableAll([]) + DialableOne(eps[0]);
    assert InstanceEndpoints(one) == InstanceEndpoints([]) + DialableAll(eps);
  }

  // ---------------------------------------------------------------------
  // Watch events
  // ---------------------------------------------------------------------

  /** The first position holding instance `id`. */
  function Position(list: seq<Instance>, id: string): (r: Option<nat>)
    ensures r.Some? ==> r.value < |list| && list[r.value].instanceId == id &&
                        forall k :: 0 <= k < r.value ==> list[k].instanceId != id
    ensures r.None? ==> forall k :: 0 <= k < |list| ==> list[k].instanceId != id
    decreases |list|
  {
    if |list| == 0 then None
    else if list[0].instanceId == id then Some(0)
    else
      var r := Position(list[1..], id);
      assert forall k :: 1 <= k < |list| ==> list[k] == list[1..][k - 1];
      if r.None? then None else Some(r.value + 1)
  }

  /**
   * The watch callback's update of one provider list: the first instance
   * with the event's id is removed (DELETE) or replaced (any other action);
   * an unknown instance is appended unless the action is DELETE.
   */
  function ApplyEvent(list: seq<Instance>, ev: WatchInstanceResponse): seq<Instance> {
    match Position(list, ev.instance.instanceId)
    case Some(i) =>
      if ev.action == DELETE then list[..i] + list[i + 1..]
      else list[..i] + [ev.instance] + list[i + 1..]
    case None =>
      if ev.action == DELETE then list else list + [ev.instance]
  }

  /** No two instances share an id. */
  predicate UniqueIds(list: seq<Instance>) {
    forall i, j :: 0 <= i < j < |list| ==> list[i].instanceId != list[j].instanceId
  }

  /** The list with every instance `id` taken out. */
  function Without(list: seq<Instance>, id: string): (r: seq<Instance>)
    ensures forall k :: 0 <= k < |r| ==> r[k].instanceId != id
    decreases |list|
  {
    if |list| == 0 then []
    else (if list[0].instanceId == id then [] else [list[0]]) + Without(list[1..], id)
  }

  lemma {:induction false} WithoutConcat(a: seq<Instance>, b: seq<Instance>, id: string)
    ensures Without(a + b, id) == Without(a, id) + Without(b, id)
    decreases |a|
  {
    if |a| == 0 {
      assert a + b == b;
    } else {
      assert (a + b)[1..] == a[1..] + b;
      WithoutConcat(a[1..], b, id);
    }
  }

  lemma WithoutOne(x: Instance, id: string)
    requires x.instanceId == id
    ensures Without([x], id) == []
  {
    assert [x][1..] == [];
  }

  /** An event changes nothing but the entries for its own instance id. */
  lemma ApplyEventOthers(list: seq<Instance>, ev: WatchInstanceResponse)
    ensures Without(ApplyEvent(list, ev), ev.instance.instanceId) == Without(list, ev.instance.instanceId)
  {
    var id := ev.instance.instanceId;
    WithoutOne(ev.instance, id);
    match Position(list, id)
    case Some(i) =>
      assert list == list[..i] + [list[i]] + list[i + 1..];
      WithoutOne(list[i], id);
      WithoutConcat(list[..i] + [list[i]], list[i + 1..], id);
      WithoutConcat(list[..i], [list[i]], id);
      if ev.action == DELETE {
        WithoutConcat(list[..i], list[i + 1..], id);
      } else {
        WithoutConcat(list[..i] + [ev.instance], list[i + 1..], id);
        WithoutConcat(list[..i], [ev.instance], id);
      }
    case None =>
      if ev.action != DELETE {
        WithoutConcat(list, [ev.instance], id);
      }
  }

  /**
   * On a list without duplicate ids, a DELETE leaves no instance with the
   * event's id, any other action leaves exactly the event's instance under
   * that id, and ids stay unique.
   */
  lemma ApplyEventEffect(list: seq<Instance>, ev: WatchInstanceResponse)
    requires UniqueIds(list)
    ensures UniqueIds(ApplyEvent(list, ev))
    ensures ev.action == DELETE ==>
      forall k :: 0 <= k < |ApplyEvent(list, ev)| ==> ApplyEvent(list, ev)[k].instanceId != ev.instance.instanceId
    ensures ev.action != DELETE ==>
      exists k :: 0 <= k < |ApplyEvent(list, ev)| && ApplyEvent(list, ev)[k] == ev.instance
  {
    match Position(list, ev.instance.instanceId)
    case Some(i) =>
      if ev.action == DELETE {
        RemoveAt(list, i);
      } else {
        ReplaceAt(list, i, ev.instance);
      }
    case None =>
      if ev.action != DELETE {
        AppendNew(list, ev.instance);
      }
  }

  /** Removing the instance at `i` from a list with unique ids leaves unique ids and none with its id. */
  lemma RemoveAt(list: seq<Instance>, i: nat)
    requires UniqueIds(list) && i < |list|
    ensures var r := list[..i] + list[i + 1..];
      UniqueIds(r) && forall k :: 0 <= k < |r| ==> r[k].instanceId != list[i].instanceId
  {
    var r := list[..i] + list[i + 1..];
    assert forall k :: 0 <= k < |r| ==> r[k] == (if k < i then list[k] else list[k + 1]);
  }

  /** Replacing the instance at `i` by one with the same id keeps the ids unique. */
  lemma ReplaceAt(list: seq<Instance>, i: nat, x: Instance)
    requires UniqueIds(list) && i < |list| && x.instanceId == list[i].instanceId
    ensures var r := list[..i] + [x] + list[i + 1..];
      UniqueIds(r) && i < |r| && r[i] == x
  {
    var r := list[..i] + [x] + list[i + 1..];
    assert forall k :: 0 <= k < |r| ==> r[k] == (if k == i then x else list[k]);
  }

  /** Appending an instance whose id is new keeps the ids unique. */
  lemma AppendNew(list: seq<Instance>, x: Instance)
    requires UniqueIds(list) && forall k :: 0 <= k < |list| ==> list[k].instanceId != x.instanceId
    ensures UniqueIds(list + [x]) && (list + [x])[|list|] == x
  {
  }

  /** An upsert of a known instance, an upsert of a new one, then a delete of the first, leave only the new one. */
  lemma UpsertUpsertDelete(a: Instance, a2: Instance, b: Instance, upsert: string)
    requires a.instanceId == a2.instanceId && a.instanceId != b.instanceId && upsert != DELETE
    ensures var s1 := ApplyEvent([a], WatchInstanceResponse(upsert, a2));
      var s2 := ApplyEvent(s1, WatchInstanceResponse(upsert, b));
      s1 == [a2] && s2 == [a2, b] && ApplyEvent(s2, WatchInstanceResponse(DELETE, a)) == [b]
  {
    var s1 := ApplyEvent([a], WatchInstanceResponse(upsert, a2));
    assert Position([a], a2.instanceId) == Some(0);
    assert s1 == [a2];
    assert Position(s1, b.instanceId) == None;
    var s2 := ApplyEvent(s1, WatchInstanceResponse(upsert, b));
    assert s2 == [a2, b];
    assert Position(s2, a.instanceId) == Some(0);
  }

  /** The cache after one event: the list of the event's service is updated; events for services not cached are ignored. */
  function Applied(entries: map<string, seq<Instance>>, ev: WatchInstanceResponse): map<string, seq<Instance>> {
    var key := ev.instance.serviceId;
    if key in entries then entries[key := ApplyEvent(entries[key], ev)] else entries
  }

  /** The cache after a run of events, applied in order. */
  function ApplyAll(entries: map<string, seq<Instance>>, evs: seq<WatchInstanceResponse>): (r: map<string, seq<Instance>>)
    ensures r.Keys == entries.Keys
    decreases |evs|
  {
    if |evs| == 0 then entries else ApplyAll(Applied(entries, evs[0]), evs[1..])
  }

  /** A service that no event names keeps its cached list. */
  lemma {:induction false} ApplyAllUntouched(entries: map<string, seq<Instance>>, evs: seq<WatchInstanceResponse>, key: string)
    requires key in entries
    requires forall k :: 0 <= k < |evs| ==> evs[k].instance.serviceId != key
    ensures ApplyAll(entries, evs)[key] == entries[key]
    decreases |evs|
  {
    if |evs| > 0 {
      assert forall k :: 0 <= k < |evs| - 1 ==> evs[1..][k] == evs[k + 1];
      ApplyAllUntouched(Applied(entries, evs[0]), evs[1..], key);
    }
  }

  /** Every cached list whose instance ids are unique keeps them unique through any run of events. */
  predicate AllUnique(entries: map<string, seq<Instance>>) {
    forall key :: key in entries ==> UniqueIds(entries[key])
  }

  lemma {:induction false} ApplyAllKeepsUnique(entries: map<string, seq<Instance>>, evs: seq<WatchInstanceResponse>)
    requires AllUnique(entries)
    ensures AllUnique(ApplyAll(entries, evs))
    decreases |evs|
  {
    if |evs| > 0 {
      AppliedKeepsUnique(entries, evs[0]);
      ApplyAllKeepsUnique(Applied(entries, evs[0]), evs[1..]);
    }
  }

  lemma AppliedKeepsUnique(entries: map<string, seq<Instance>>, ev: WatchInstanceResponse)
    requires AllUnique(entries)
    ensures AllUnique(Applied(entries, ev))
  {
    var key := ev.instance.serviceId;
    if key in entries {
      ApplyEventEffect(entries[key], ev);
    }
  }

  /** Applying a run of events in two parts is applying it at once. */
  lemma {:induction false} ApplyAllConcat(entries: map<string, seq<Instance>>, a: seq<WatchInstanceResponse>, b: seq<WatchInstanceResponse>)
    ensures ApplyAll(entries, a + b) == ApplyAll(ApplyAll(entries, a), b)
    decreases |a|
  {
    if |a| == 0 {
      assert a + b == b;
    } else {
      assert (a + b)[1..] == a[1..] + b;
      ApplyAllConcat(Applied(entries, a[0]), a[1..], b);
    }
  }

  /** The cache of provider instances, keyed by service id (`providerCaches`). */
  class ProviderCache {
    var entries: map<string, seq<Instance>>

    constructor ()
      ensures entries == map[]
    {
      entries := map[];
    }

    method Store(key: string, list: seq<Instance>)
      modifies this
      ensures entries == old(entries)[key := list]
    {
      entries := entries[key := list];
    }

    /** `ProviderEndpoints`: the dialable endpoints of a cached provider, or an error naming it when it is not cached. */
    method Endpoints(provider: AppConfig.MicroService) returns (r: Result<seq<string>, string>)
      ensures provider.id in entries ==> r == Ok(InstanceEndpoints(entries[provider.id]))
      ensures provider.id !in entries ==> r == Err(ProviderMissing(provider.name))
    {
      if provider.id !in entries {
        return Err(ProviderMissing(provider.name));
      }
      var list := entries[provider.id];
      var found: seq<string> := [];
      var i := 0;
      while i < |list|
        invariant 0 <= i <= |list|
        invariant found == InstanceEndpoints(list[..i])
      {
        var more := DialableEndpoints(list[i].endpoints);
        InstancePrefixStep(list, i);
        found := found + more;
        i := i + 1;
      }
      assert list[..i] == list;
      return Ok(found);
    }

    /** The watch callback: apply one event to the cached list of its service. */
    method Apply(ev: WatchInstanceResponse)
      modifies this
      ensures entries == Applied(old(entries), ev)
    {
      var key := ev.instance.serviceId;
      if key !in entries {
        return;
      }
      var list := entries[key];
      var renew := false;
      var i := 0;
      var l := |list|;
      while i < l
        invariant 0 <= i <= l == |old(entries)[key]|
        invariant !renew ==> list == old(entries)[key] && forall k :: 0 <= k < i ==> list[k].instanceId != ev.instance.instanceId
        invariant renew ==> list == ApplyEvent(old(entries)[key], ev)
      {
        if list[i].instanceId == ev.instance.instanceId {
          assert Position(list, ev.instance.instanceId) == Some(i);
          if ev.action == DELETE {
            if i < l - 1 {
              list := list[..i] + list[i + 1..];
            } else {
              list := list[..i];
            }
          } else {
            list := list[..i] + [ev.instance] + list[i + 1..];
          }
          renew := true;
          break;
        }
        i := i + 1;
      }
      if !renew {
        assert Position(list, ev.instance.instanceId).None?;
      }
      if !renew && ev.action != DELETE {
        list := list + [ev.instance];
      }
      assert list == ApplyEvent(old(entries)[key], ev);
      assert entries == old(entries);
      entries := entries[key := list];
    }

    /** The events a watch stream delivers, applied one by one as they arrive. */
    method ApplyEach(evs: seq<WatchInstanceResponse>)
      modifies this
      ensures entries == ApplyAll(old(entries), evs)
    {
      var i := 0;
      while i < |evs|
        invariant 0 <= i <= |evs|
        invariant ApplyAll(old(entries), evs) == ApplyAll(entries, evs[i..])
      {
        assert evs[i..][1..] == evs[i + 1..];
        Apply(evs[i]);
        i := i + 1;
      }
    }
  }

  // ---------------------------------------------------------------------
  // Heartbeats
  // ---------------------------------------------------------------------

  /** What wakes the heartbeat loop: the ticker, or the context being cancelled. */
  datatype TimerEvent = Tick | Cancel

  /** Why the loop ended: it is still running at the end of the events, it was cancelled, or a heartbeat failed. */
  datatype Stop = Running | Cancelled | Failed(error: string)

  datatype Beats = Beats(sent: nat, stop: Stop)

  /**
   * The heartbeat loop over a run of timer events; heartbeat number `k`
   * (counting from 0) reports `beat(arg, k)`.
   */
  function Heartbeats<T>(events: seq<TimerEvent>, beat: (T, nat) -> Option<string>, arg: T, sent: nat): Beats
    decreases |events|
  {
    if |events| == 0 then Beats(sent, Running)
    else if events[0] == Cancel then Beats(sent, Cancelled)
    else if beat(arg, sent).Some? then Beats(sent + 1, Failed(beat(arg, sent).value))
    else Heartbeats(events[1..], beat, arg, sent + 1)
  }

  /**
   * One heartbeat goes out per tick until the first failure or
   * cancellation; every heartbeat before the last succeeded, a failure is
   * the last heartbeat's error, and a loop still running has seen only ticks.
   */
  lemma {:induction false} HeartbeatsStop<T>(events: seq<TimerEvent>, beat: (T, nat) -> Option<string>, arg: T, sent: nat)
    ensures var r := Heartbeats(events, beat, arg, sent);
      sent <= r.sent <= sent + |events| &&
      (forall k :: sent <= k < r.sent && (r.stop.Failed? ==> k < r.sent - 1) ==> beat(arg, k).None?) &&
      (r.stop.Failed? ==> sent < r.sent && events[r.sent - 1 - sent] == Tick && beat(arg, r.sent - 1) == Some(r.stop.error)) &&
      (r.stop == Cancelled ==> r.sent - sent < |events| && events[r.sent - sent] == Cancel) &&
      (r.stop == Running ==> r.sent == sent + |events| && forall k :: 0 <= k < |events| ==> events[k] == Tick)
    decreases |events|
  {
    if |events| > 0 && events[0] == Tick && beat(arg, sent).None? {
      HeartbeatsStop(events[1..], beat, arg, sent + 1);
      var r := Heartbeats(events[1..], beat, arg, sent + 1);
      assert forall k :: 0 <= k < |events| - 1 ==> events[1..][k] == events[k + 1];
      if r.stop.Failed? {
        assert events[r.sent - 1 - sent] == events[1..][r.sent - 1 - (sent + 1)];
      }
      if r.stop == Cancelled {
        assert events[r.sent - sent] == events[1..][r.sent - (sent + 1)];
      }
    }
  }

  /** Three good heartbeats and then a failing one: exactly four go out, and the loop stops with that failure. */
  lemma FourthHeartbeatFails<T>(events: seq<TimerEvent>, beat: (T, nat) -> Option<string>, arg: T, e: string)
    requires |events| >= 4 && forall k :: 0 <= k < |events| ==> events[k] == Tick
    requires beat(arg, 0).None? && beat(arg, 1).None? && beat(arg, 2).None? && beat(arg, 3) == Some(e)
    ensures Heartbeats(events, beat, arg, 0) == Beats(4, Failed(e))
  {
    assert Heartbeats(events, beat, arg, 0) == Heartbeats(events[1..], beat, arg, 1);
    assert Heartbeats(events[1..], beat, arg, 1) == Heartbeats(events[2..], beat, arg, 2) by {
      assert events[1..][1..] == events[2..];
    }
    assert Heartbeats(events[2..], beat, arg, 2) == Heartbeats(events[3..], beat, arg, 3) by {
      assert events[2..][1..] == events[3..];
    }
  }

  /** The heartbeat loop: wait for the next timer event, send on a tick, stop on a failure or a cancellation. */
  method HeartbeatLoop<T>(events: seq<TimerEvent>, beat: (T, nat) -> Option<string>, arg: T) returns (sent: nat, stop: Stop)
    ensures Beats(sent, stop) == Heartbeats(events, beat, arg, 0)
  {
    sent := 0;
    var i := 0;
    while i < |events|
      invariant 0 <= i <= |events| && sent == i
      invariant Heartbeats(events, beat, arg, 0) == Heartbeats(events[i..], beat, arg, sent)
    {
      assert events[i..][1..] == events[i + 1..];
      if events[i] == Cancel {
        return sent, Cancelled;
      }
      var err := beat(arg, sent);
      sent := sent + 1;
      if err.Some? {
        return sent, Failed(err.value);
      }
      i := i + 1;
    }
    return sent, Running;
  }
}
