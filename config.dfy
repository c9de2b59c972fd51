/**
 * helloworld/rest/config/config.go: the application configuration and
 * `LoadConfig`'s checks and normalisation after YAML decoding.
 *
 * Reading the file and decoding YAML are library behaviour: `LoadConfig`
 * receives their outcome.  `os.Hostname()` is a parameter (its error is
 * ignored by the source, which then keeps `""`).
 */
module AppConfig {
  import opened Wrappers
  import opened Text
  import Url

  datatype Tenant = Tenant(domain: string, project: string)

  /** `ID` is not read from the file; callers fill it in after registration. */
  datatype Instance = Instance(id: string, hostname: string, protocol: string, listenAddress: string)

  datatype MicroService = MicroService(id: string, appId: string, name: string, version: string, instance: Option<Instance>)

  /** `Endpoints` is not read from the file; `LoadConfig` derives it from `Address`. */
  datatype Registry = Registry(address: string, endpoints: seq<string>)

  datatype Config = Config(service: Option<MicroService>, registry: Option<Registry>, provider: Option<MicroService>, tenant: Option<Tenant>)

  const MissingPort: string := "missing port in address"
  const TooManyColons: string := "too many colons in address"

  /** `net.AddrError.Error()`. */
  function AddrError(addr: string, why: string): string {
    "address " + addr + ": " + why
  }

  /** A host that a `host:port` text can carry without brackets. */
  predicate PlainHost(h: string) {
    ':' !in h && '[' !in h && ']' !in h
  }

  /** A port text that `SplitHostPort` hands back unchanged. */
  predicate PlainPort(p: string) {
    ':' !in p && '[' !in p && ']' !in p
  }

  /**
   * Go's `net.SplitHostPort`: the port follows the last ':'; a host with a ':'
   * must be written in brackets; stray brackets are rejected.
   */
  function SplitHostPort(hostport: string): (r: Result<(string, string), string>)
    ensures r.Ok? ==> PlainPort(r.value.1) && '[' !in r.value.0 && ']' !in r.value.0
    ensures r.Ok? && |hostport| > 0 && hostport[0] == '[' ==> hostport == "[" + r.value.0 + "]:" + r.value.1
    ensures r.Ok? && (|hostport| == 0 || hostport[0] != '[') ==> hostport == r.value.0 + ":" + r.value.1 && PlainHost(r.value.0)
  {
    match LastIndex(hostport, ':')
    case None => Err(AddrError(hostport, MissingPort))
    case Some(i) =>
      if hostport[0] == '[' then SplitBracketed(hostport, i) else SplitPlain(hostport, i)
  }

  /** `SplitHostPort` of "[host]:port", `i` being the last ':'. */
  function SplitBracketed(hostport: string, i: nat): (r: Result<(string, string), string>)
    requires i < |hostport| && hostport[i] == ':' && ':' !in hostport[i + 1..] && hostport[0] == '['
    ensures r.Ok? ==> PlainPort(r.value.1) && '[' !in r.value.0 && ']' !in r.value.0
    ensures r.Ok? ==> hostport == "[" + r.value.0 + "]:" + r.value.1
  {
    match IndexOf(hostport, ']')
    case None => Err(AddrError(hostport, "missing ']' in address"))
    case Some(end) =>
      if end + 1 == |hostport| then Err(AddrError(hostport, MissingPort))
      else if end + 1 != i then
        (if hostport[end + 1] == ':' then Err(AddrError(hostport, TooManyColons)) else Err(AddrError(hostport, MissingPort)))
      else if '[' in hostport[1..] then Err(AddrError(hostport, "unexpected '[' in address"))
      else if ']' in hostport[end + 1..] then Err(AddrError(hostport, "unexpected ']' in address"))
      else
        assert hostport == [hostport[0]] + hostport[1..end] + [hostport[end], hostport[i]] + hostport[i + 1..];
        Ok((hostport[1..end], hostport[i + 1..]))
  }

  /** `SplitHostPort` of "host:port" without brackets, `i` being the last ':'. */
  function SplitPlain(hostport: string, i: nat): (r: Result<(string, string), string>)
    requires i < |hostport| && hostport[i] == ':' && ':' !in hostport[i + 1..]
    ensures r.Ok? ==> PlainPort(r.value.1) && PlainHost(r.value.0) && hostport == r.value.0 + ":" + r.value.1
  {
    var host := hostport[..i];
    if ':' in host then Err(AddrError(hostport, TooManyColons))
    else if '[' in hostport then Err(AddrError(hostport, "unexpected '[' in address"))
    else if ']' in hostport then Err(AddrError(hostport, "unexpected ']' in address"))
    else
      assert hostport == host + ":" + hostport[i + 1..];
      Ok((host, hostport[i + 1..]))
  }

  /** Go's `net.JoinHostPort`: a host holding a ':' is bracketed. */
  function JoinHostPort(host: string, port: string): string {
    if ':' in host then "[" + host + "]:" + port else host + ":" + port
  }

  /** Splitting a joined address gives the host and port back. */
  lemma SplitJoinHostPort(host: string, port: string)
    requires '[' !in host && ']' !in host && PlainPort(port)
    requires ':' !in host ==> |host| == 0 || host[0] != '['
    ensures SplitHostPort(JoinHostPort(host, port)) == Ok((host, port))
  {
    if ':' in host {
      SplitBracketedJoin(host, port);
    } else {
      SplitPlainJoin(host, port);
    }
  }

  lemma SplitBracketedJoin(host: string, port: string)
    requires '[' !in host && ']' !in host && PlainPort(port)
    ensures SplitHostPort("[" + host + "]:" + port) == Ok((host, port))
  {
    var s := "[" + host + "]:" + port;
    var i := |host| + 2;
    assert s[i] == ':' && s[i + 1..] == port;
    LastIndexAfter(s, i);
    SplitBracketedAt(s, host, port, i);
  }

  lemma SplitBracketedAt(s: string, host: string, port: string, i: nat)
    requires '[' !in host && ']' !in host && PlainPort(port)
    requires s == "[" + host + "]:" + port && i == |host| + 2
    requires i < |s| && s[i] == ':' && ':' !in s[i + 1..] && s[0] == '['
    ensures SplitBracketed(s, i) == Ok((host, port))
  {
    assert s[..|host| + 1] == "[" + host;
    FirstIndexAt(s, ']', |host| + 1);
    assert s[1..] == host + "]:" + port;
    assert s[|host| + 2..] == ":" + port;
    assert s[1..|host| + 1] == host;
  }

  lemma SplitPlainJoin(host: string, port: string)
    requires PlainHost(host) && PlainPort(port)
    ensures SplitHostPort(host + ":" + port) == Ok((host, port))
  {
    var s := host + ":" + port;
    var i := |host|;
    assert s[i + 1..] == port;
    LastIndexAfter(s, i);
    assert s[..i] == host;
    assert s[0] != '[' by {
      if |host| == 0 {
        assert s[0] == ':';
      } else {
        assert s[0] == host[0];
      }
    }
  }

  lemma LastIndexAfter(s: string, i: nat)
    requires i < |s| && s[i] == ':' && ':' !in s[i + 1..]
    ensures LastIndex(s, ':') == Some(i)
  {
    var j := LastIndex(s, ':').value;
    assert forall k :: i < k < |s| ==> s[k] == s[i + 1..][k - i - 1];
    assert forall k :: j < k < |s| ==> s[k] == s[j + 1..][k - j - 1];
  }

  lemma FirstIndexAt(s: string, c: char, i: nat)
    requires i < |s| && s[i] == c && c !in s[..i]
    ensures IndexOf(s, c) == Some(i)
  {
    var j := IndexOf(s, c).value;
    assert forall k :: 0 <= k < i ==> s[k] == s[..i][k];
    assert forall k :: 0 <= k < j ==> s[k] == s[..j][k];
  }

  /**
   * The listen-address rule as written: split, default the host to
   * 127.0.0.1, require a positive port, and rebuild `host + ":" + port`.
   * A non-positive port is reported with the nil `err` of the successful
   * `Atoi`, which `%s` prints as `%!s(<nil>)`.
   */
  function ListenAddressAsWritten(addr: string): (r: Result<string, string>)
    // it accepts and rejects exactly what the corrected rule does, with the same errors
    ensures r.Ok? <==> ListenAddress(addr).Ok?
    ensures r.Err? ==> r == ListenAddress(addr)
    // an accepted address is rebuilt as the (defaulted) host, ':' and the port, whatever the host holds
    ensures r.Ok? ==> var (host, port) := SplitHostPort(addr).value;
      r.value == (if host == "" then "127.0.0.1" else host) + ":" + port && Atoi(port).value > 0
  {
    if addr == "" then Err("instance lister address is empty")
    else
      match SplitHostPort(addr)
      case Err(e) => Err("instance lister address is wrong: " + e)
      case Ok((host, port)) =>
        match Atoi(port)
        case Err(e) => Err("instance lister port " + port + " is wrong: " + e)
        case Ok(n) =>
          if n <= 0 then Err("instance lister port " + port + " is wrong: %!s(<nil>)")
          else Ok((if host == "" then "127.0.0.1" else host) + ":" + port)
  }

  /** The same rule with the address rebuilt by `JoinHostPort`, so a bracketed host keeps its brackets. */
  function ListenAddress(addr: string): Result<string, string> {
    if addr == "" then Err("instance lister address is empty")
    else
      match SplitHostPort(addr)
      case Err(e) => Err("instance lister address is wrong: " + e)
      case Ok((host, port)) =>
        match Atoi(port)
        case Err(e) => Err("instance lister port " + port + " is wrong: " + e)
        case Ok(n) =>
          if n <= 0 then Err("instance lister port " + port + " is wrong: %!s(<nil>)")
          else Ok(JoinHostPort(if host == "" then "127.0.0.1" else host, port))
  }

  /** An accepted listen address names a host (127.0.0.1 by default) and a positive port that parse back out of it. */
  lemma ListenAddressAccepted(addr: string)
    requires ListenAddress(addr).Ok?
    ensures var (host, port) := SplitHostPort(addr).value;
      SplitHostPort(ListenAddress(addr).value) == Ok((if host == "" then "127.0.0.1" else host, port)) &&
      Atoi(port).Ok? && Atoi(port).value > 0
  {
    var (host, port) := SplitHostPort(addr).value;
    var h := if host == "" then "127.0.0.1" else host;
    PortIsPlain(port);
    if host != "" && ':' !in host && addr[0] == '[' {
      // a bracketed host without ':' is written back without brackets
      assert addr == "[" + host + "]:" + port;
      assert host[0] != '[';
    }
    SplitJoinHostPort(h, port);
  }

  lemma PortIsPlain(port: string)
    requires Atoi(port).Ok?
    ensures PlainPort(port)
  {
    AtoiAccepts(port);
  }

  /** Normalising an accepted listen address again changes nothing. */
  lemma ListenAddressIdempotent(addr: string)
    requires ListenAddress(addr).Ok?
    ensures ListenAddress(ListenAddress(addr).value) == ListenAddress(addr)
  {
    ListenAddressAccepted(addr);
  }

  /** For every host without ':' the corrected rule gives exactly what the source's rule gives. */
  lemma ListenAddressAgrees(addr: string)
    requires SplitHostPort(addr).Ok? ==> ':' !in SplitHostPort(addr).value.0
    ensures ListenAddress(addr) == ListenAddressAsWritten(addr)
  {
  }

  /**
   * The discrepancy: a bracketed host holding ':' (an IPv6 address) loses its
   * brackets, and the rebuilt address no longer splits.
   */
  lemma AsWrittenDropsBrackets(host: string, port: string)
    requires ':' in host && '[' !in host && ']' !in host
    requires Atoi(port).Ok? && Atoi(port).value > 0
    ensures ListenAddressAsWritten("[" + host + "]:" + port) == Ok(host + ":" + port)
    ensures SplitHostPort(host + ":" + port).Err?
  {
    PortIsPlain(port);
    SplitBracketedJoin(host, port);
    var t := host + ":" + port;
    LastIndexAfter(t, |host|);
    assert t[..|host|] == host;
    assert t[0] != '[' by {
      assert t[0] == host[0];
    }
  }

  /** The corrected rule keeps the brackets of such an address. */
  lemma CorrectedKeepsBrackets(host: string, port: string)
    requires ':' in host && '[' !in host && ']' !in host
    requires Atoi(port).Ok? && Atoi(port).value > 0
    ensures ListenAddress("[" + host + "]:" + port) == Ok("[" + host + "]:" + port)
  {
    PortIsPlain(port);
    SplitBracketedJoin(host, port);
  }

  /** The loopback address "[::1]:8080" becomes "::1:8080" as written, and stays "[::1]:8080" corrected. */
  lemma LoopbackListenAddress(addr: string, rebuilt: string)
    requires addr == "[::1]:8080" && rebuilt == "::1:8080"
    ensures ListenAddressAsWritten(addr) == Ok(rebuilt)
    ensures SplitHostPort(rebuilt).Err?
    ensures ListenAddress(addr) == Ok(addr)
  {
    var host, port := "::1", "8080";
    assert addr == "[" + host + "]:" + port;
    assert rebuilt == host + ":" + port;
    assert host[0] == ':';
    PortValue();
    AsWrittenDropsBrackets(host, port);
    CorrectedKeepsBrackets(host, port);
  }

  lemma PortValue()
    ensures Atoi("8080") == Ok(8080)
  {
    assert "8080"[..3] == "808" && "808"[..2] == "80" && "80"[..1] == "8" && "8"[..0] == "";
    assert DigitsValue("8") == 8;
    assert DigitsValue("80") == 80;
    assert DigitsValue("808") == 808;
    assert DigitsValue("8080") == 8080;
  }

  /** The first endpoint that does not parse, with `url.Parse`'s reason. */
  function FirstParseError(endpoints: seq<string>): (r: Option<string>)
    ensures r.None? <==> forall i :: 0 <= i < |endpoints| ==> Url.Parse(endpoints[i]).Ok?
    decreases |endpoints|
  {
    if |endpoints| == 0 then None
    else if Url.Parse(endpoints[0]).Err? then Some(Url.Parse(endpoints[0]).error)
    else
      var r := FirstParseError(endpoints[1..]);
      assert forall i :: 1 <= i < |endpoints| ==> endpoints[i] == endpoints[1..][i - 1];
      r
  }

  /** The tenant defaults: a missing tenant, domain or project becomes "default". */
  function DefaultTenant(tenant: Option<Tenant>): (t: Tenant)
    ensures t.domain != "" && t.project != ""
    ensures tenant.Some? && tenant.value.domain != "" ==> t.domain == tenant.value.domain
    ensures tenant.Some? && tenant.value.project != "" ==> t.project == tenant.value.project
  {
    var given := tenant.GetOr(Tenant("", ""));
    Tenant(if given.domain == "" then "default" else given.domain,
           if given.project == "" then "default" else given.project)
  }

  /**
   * How an accepted listen address is written back: `AsWritten` concatenates
   * host, ':' and port as config.go:102 does; `Corrected` uses `JoinHostPort`,
   * which keeps the brackets of an IPv6 host.
   */
  datatype Rebuild = AsWritten | Corrected

  function NormalisedAddress(rule: Rebuild, addr: string): Result<string, string> {
    match rule
    case AsWritten => ListenAddressAsWritten(addr)
    case Corrected => ListenAddress(addr)
  }

  /** The instance section after its checks: the host name defaults to the machine's and the listen address is normalised. */
  function LoadedInstance(instance: Option<Instance>, hostname: string, rule: Rebuild): Result<Option<Instance>, string> {
    match instance
    case None => Ok(None)
    case Some(given) =>
      match NormalisedAddress(rule, given.listenAddress)
      case Err(e) => Err(e)
      case Ok(address) =>
        Ok(Some(given.(hostname := if given.hostname == "" then hostname else given.hostname, listenAddress := address)))
  }

  /**
   * What `LoadConfig` makes of a decoded file: the checks run in the order
   * service, instance, registry; the first failure is the result.
   */
  function Loaded(decoded: Result<Config, string>, hostname: string, rule: Rebuild): Result<Config, string> {
    if decoded.Err? then Err(decoded.error)
    else
      var given := decoded.value;
      if given.service.None? then Err("microservice is empty")
      else
        match LoadedInstance(given.service.value.instance, hostname, rule)
        case Err(e) => Err(e)
        case Ok(instance) =>
          if given.registry.None? || given.registry.value.address == "" then Err("registry is empty")
          else
            var endpoints := Split(given.registry.value.address, ',');
            match FirstParseError(endpoints)
            case Some(e) => Err("parse registry address faild: " + e)
            case None =>
              Ok(Config(Some(given.service.value.(instance := instance)),
                        Some(given.registry.value.(endpoints := endpoints)),
                        given.provider,
                        Some(DefaultTenant(given.tenant))))
  }

  /**
   * `LoadConfig` after decoding, as written, updating the configuration
   * field by field as the source does.
   */
  method LoadConfig(decoded: Result<Config, string>, hostname: string) returns (r: Result<Config, string>)
    ensures r == Loaded(decoded, hostname, AsWritten)
  {
    if decoded.Err? {
      return Err(decoded.error);
    }
    var conf := decoded.value;
    if conf.service.None? {
      return Err("microservice is empty");
    }
    if conf.tenant.None? {
      conf := conf.(tenant := Some(Tenant("", "")));
    }
    if conf.tenant.value.domain == "" {
      conf := conf.(tenant := Some(conf.tenant.value.(domain := "default")));
    }
    if conf.tenant.value.project == "" {
      conf := conf.(tenant := Some(conf.tenant.value.(project := "default")));
    }
    assert conf.tenant == Some(DefaultTenant(decoded.value.tenant));
    var instance := LoadInstance(conf.service.value.instance, hostname);
    if instance.Err? {
      return Err(instance.error);
    }
    conf := conf.(service := Some(conf.service.value.(instance := instance.value)));
    if conf.registry.None? || conf.registry.value.address == "" {
      return Err("registry is empty");
    }
    var endpoints := Split(conf.registry.value.address, ',');
    conf := conf.(registry := Some(conf.registry.value.(endpoints := endpoints)));
    var failure := CheckEndpoints(endpoints);
    if failure.Some? {
      return Err("parse registry address faild: " + failure.value);
    }
    return Ok(conf);
  }

  /** The endpoint loop of `LoadConfig`: parse each endpoint in order and stop at the first failure. */
  method CheckEndpoints(endpoints: seq<string>) returns (failure: Option<string>)
    ensures failure == FirstParseError(endpoints)
  {
    var i := 0;
    while i < |endpoints|
      invariant 0 <= i <= |endpoints|
      invariant FirstParseError(endpoints) == FirstParseError(endpoints[i..])
    {
      assert endpoints[i..][1..] == endpoints[i + 1..];
      var parsed := Url.Parse(endpoints[i]);
      if parsed.Err? {
        return Some(parsed.error);
      }
      i := i + 1;
    }
    return None;
  }

  /** The instance section of `LoadConfig`, step by step, as written. */
  method LoadInstance(given: Option<Instance>, hostname: string) returns (r: Result<Option<Instance>, string>)
    ensures r == LoadedInstance(given, hostname, AsWritten)
  {
    if given.None? {
      return Ok(None);
    }
    var instance := given.value;
    if instance.hostname == "" {
      instance := instance.(hostname := hostname);
    }
    if instance.listenAddress == "" {
      return Err("instance lister address is empty");
    }
    var split := SplitHostPort(instance.listenAddress);
    if split.Err? {
      return Err("instance lister address is wrong: " + split.error);
    }
    var host, port := split.value.0, split.value.1;
    if host == "" {
      host := "127.0.0.1";
    }
    var num := Atoi(port);
    if num.Err? {
      return Err("instance lister port " + port + " is wrong: " + num.error);
    }
    if num.value <= 0 {
      return Err("instance lister port " + port + " is wrong: %!s(<nil>)");
    }
    instance := instance.(listenAddress := host + ":" + port);
    return Ok(Some(instance));
  }

  /** The instance's listen address, when it splits, has a host without ':' (no IPv6 literal). */
  predicate ColonFreeHost(instance: Option<Instance>) {
    instance.Some? && SplitHostPort(instance.value.listenAddress).Ok? ==>
      ':' !in SplitHostPort(instance.value.listenAddress).value.0
  }

  predicate ColonFreeListenHost(decoded: Result<Config, string>) {
    decoded.Ok? && decoded.value.service.Some? ==> ColonFreeHost(decoded.value.service.value.instance)
  }

  /** Without an IPv6 host, the instance section as written and as corrected agree. */
  lemma LoadedInstanceAgrees(instance: Option<Instance>, hostname: string)
    requires ColonFreeHost(instance)
    ensures LoadedInstance(instance, hostname, AsWritten) == LoadedInstance(instance, hostname, Corrected)
  {
    if instance.Some? {
      ListenAddressAgrees(instance.value.listenAddress);
    }
  }

  /** Without an IPv6 listen host, the loader as written and as corrected agree. */
  lemma LoadedAgrees(decoded: Result<Config, string>, hostname: string)
    requires ColonFreeListenHost(decoded)
    ensures Loaded(decoded, hostname, AsWritten) == Loaded(decoded, hostname, Corrected)
  {
    if decoded.Ok? && decoded.value.service.Some? {
      LoadedInstanceAgrees(decoded.value.service.value.instance, hostname);
    }
  }

  /**
   * A loaded configuration has a service, a tenant with both names set, a
   * registry whose endpoints are its address split on ',' and all parse,
   * and an instance (if any) whose listen address splits into a host and a
   * positive port.  As written, the last holds only without an IPv6 host.
   */
  lemma LoadedIsComplete(decoded: Result<Config, string>, hostname: string, rule: Rebuild)
    requires Loaded(decoded, hostname, rule).Ok?
    ensures var c := Loaded(decoded, hostname, rule).value;
      c.service.Some? && c.registry.Some? && c.tenant.Some? &&
      c.tenant.value.domain != "" && c.tenant.value.project != "" &&
      Join(c.registry.value.endpoints, ',') == c.registry.value.address &&
      (forall i :: 0 <= i < |c.registry.value.endpoints| ==> Url.Parse(c.registry.value.endpoints[i]).Ok?) &&
      (c.service.value.instance.Some? && (rule == Corrected || ColonFreeListenHost(decoded)) ==>
        SplitHostPort(c.service.value.instance.value.listenAddress).Ok? &&
        Atoi(SplitHostPort(c.service.value.instance.value.listenAddress).value.1).Ok? &&
        Atoi(SplitHostPort(c.service.value.instance.value.listenAddress).value.1).value > 0)
  {
    JoinSplit(decoded.value.registry.value.address, ',');
    var given := decoded.value.service.value.instance;
    if given.Some? && (rule == Corrected || ColonFreeListenHost(decoded)) {
      if rule == AsWritten {
        LoadedAgrees(decoded, hostname);
      }
      ListenAddressAccepted(given.value.listenAddress);
    }
  }

  /** Loading a loaded configuration again, on the same machine, changes nothing; as written, only without an IPv6 host. */
  lemma LoadedIdempotent(decoded: Result<Config, string>, hostname: string, rule: Rebuild)
    requires Loaded(decoded, hostname, rule).Ok?
    requires rule == Corrected || ColonFreeListenHost(decoded)
    ensures Loaded(Loaded(decoded, hostname, rule), hostname, rule) == Loaded(decoded, hostname, rule)
    decreases if rule == AsWritten then 1 else 0
  {
    if rule == AsWritten {
      LoadedAgrees(decoded, hostname);
      LoadedIdempotent(decoded, hostname, Corrected);
      var loaded := Loaded(decoded, hostname, Corrected);
      StaysColonFree(decoded.value.service.value.instance, hostname);
      LoadedAgrees(loaded, hostname);
    } else {
      var given := decoded.value;
      var c := Loaded(decoded, hostname, rule).value;
      var instance := LoadedInstance(given.service.value.instance, hostname, rule).value;
      assert c.service == Some(given.service.value.(instance := instance));
      LoadedInstanceIdempotent(given.service.value.instance, hostname, rule);
      var endpoints := Split(given.registry.value.address, ',');
      assert c.registry == Some(given.registry.value.(endpoints := endpoints));
      assert c.tenant == Some(DefaultTenant(given.tenant));
      assert DefaultTenant(c.tenant) == DefaultTenant(given.tenant);
      assert FirstParseError(endpoints).None?;
    }
  }

  /** Checking an already checked instance section gives it back; as written, only without an IPv6 host. */
  lemma LoadedInstanceIdempotent(given: Option<Instance>, hostname: string, rule: Rebuild)
    requires LoadedInstance(given, hostname, rule).Ok?
    requires rule == Corrected || ColonFreeHost(given)
    ensures LoadedInstance(LoadedInstance(given, hostname, rule).value, hostname, rule) == LoadedInstance(given, hostname, rule)
  {
    if given.Some? {
      if rule == AsWritten {
        LoadedInstanceAgrees(given, hostname);
        StaysColonFree(given, hostname);
        LoadedInstanceAgrees(LoadedInstance(given, hostname, Corrected).value, hostname);
      }
      ListenAddressIdempotent(given.value.listenAddress);
    }
  }

  /** Normalising keeps a listen host free of ':'. */
  lemma StaysColonFree(given: Option<Instance>, hostname: string)
    requires LoadedInstance(given, hostname, Corrected).Ok? && ColonFreeHost(given)
    ensures ColonFreeHost(LoadedInstance(given, hostname, Corrected).value)
  {
    if given.Some? {
      var addr := given.value.listenAddress;
      ListenAddressAccepted(addr);
      var host := SplitHostPort(addr).value.0;
      var loaded := LoadedInstance(given, hostname, Corrected).value.value;
      assert loaded.listenAddress == ListenAddress(addr).value;
      assert SplitHostPort(loaded.listenAddress).value.0 == if host == "" then "127.0.0.1" else host;
    }
  }

  /**
   * As written, an IPv6 listen address is loaded as `::1:8080`, and loading
   * that result again fails: the loader is not idempotent.
   */
  lemma AsWrittenReloadFails(given: Instance, hostname: string)
    requires given.listenAddress == "[::1]:8080"
    ensures var loaded := LoadedInstance(Some(given), hostname, AsWritten);
      loaded.Ok? && loaded.value == Some(given.(hostname := if given.hostname == "" then hostname else given.hostname,
                                                 listenAddress := "::1:8080")) &&
      LoadedInstance(loaded.value, hostname, AsWritten).Err?
  {
    LoopbackListenAddress("[::1]:8080", "::1:8080");
  }

  /** The registry endpoints keep the address's order and number one more than its commas. */
  lemma RegistryEndpointsShape(address: string)
    ensures |Split(address, ',')| == Count(address, ',') + 1
    ensures Join(Split(address, ','), ',') == address
    ensures forall i :: 0 <= i < |Split(address, ',')| ==> ',' !in Split(address, ',')[i]
  {
    JoinSplit(address, ',');
    SplitPieces(address, ',');
  }
}
