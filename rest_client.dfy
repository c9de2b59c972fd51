/**
 * helloworld/rest/common/restful/client.go: a round-robin endpoint selector
 * and a client that retries a call once per endpoint.
 *
 * The selector's atomic load / compare-and-swap is modelled sequentially: the
 * compare-and-swap always succeeds, so the fallback re-read after a lost race
 * never happens.  `index` is an `int32` in Go; endpoint lists are far shorter
 * than 2^31, so no wrap-around is modelled.
 */
module RestClient {
  import opened Wrappers
  import Url
  import opened Rest

  /** What one call of `Next` returns and where it leaves the cursor. */
  datatype Step = Step(endpoint: string, cursor: int)

  /** One sequential call of `RoundRobinLB.Next` on `endpoints` with cursor `index`. */
  function NextOf(endpoints: seq<string>, index: int): (s: Step)
    requires -1 <= index
    ensures |endpoints| == 0 ==> s == Step("", index)
    ensures |endpoints| > 0 ==> 0 <= s.cursor < |endpoints| && s.endpoint == endpoints[s.cursor]
  {
    if |endpoints| == 0 then Step("", index)
    else if index >= |endpoints| - 1 then Step(endpoints[0], 0)
    else Step(endpoints[index + 1], index + 1)
  }

  /** The cursor after `k` calls on a fresh balancer (whose cursor starts at -1). */
  function Cursor(endpoints: seq<string>, k: nat): (c: int)
    ensures -1 <= c
    decreases k
  {
    if k == 0 then -1 else NextOf(endpoints, Cursor(endpoints, k - 1)).cursor
  }

  /** What the call numbered `k` (counting from 0) on a fresh balancer returns. */
  function Selected(endpoints: seq<string>, k: nat): string {
    NextOf(endpoints, Cursor(endpoints, k)).endpoint
  }

  lemma ModUnique(k: int, n: int, q: int, r: int)
    requires n > 0 && 0 <= r < n && k == q * n + r
    ensures k % n == r
  {
    var x := q - k / n;
    assert x * n == k % n - r;
  }

  lemma ModAdd(a: int, b: int, n: int)
    requires n > 0
    ensures (a % n + b) % n == (a + b) % n
  {
    var q1, r1 := a / n, a % n;
    var q2, r2 := (r1 + b) / n, (r1 + b) % n;
    assert a + b == (q1 + q2) * n + r2;
    ModUnique(a + b, n, q1 + q2, r2);
  }

  /** One step of the selector from cursor `c` returns the endpoint at `(c + 1) mod n`. */
  lemma NextIsSuccessor(endpoints: seq<string>, c: int)
    requires 0 < |endpoints| && -1 <= c < |endpoints|
    ensures NextOf(endpoints, c) == Step(endpoints[(c + 1) % |endpoints|], (c + 1) % |endpoints|)
  {
    var n := |endpoints|;
    if c == n - 1 {
      ModUnique(c + 1, n, 1, 0);
    } else {
      ModUnique(c + 1, n, 0, c + 1);
    }
  }

  /**
   * Single-threaded, the call numbered `k` returns `endpoints[k mod n]` and
   * leaves the cursor at `k mod n`.
   */
  lemma {:induction false} KthCall(endpoints: seq<string>, k: nat)
    requires |endpoints| > 0
    ensures Cursor(endpoints, k + 1) == k % |endpoints|
    ensures Selected(endpoints, k) == endpoints[k % |endpoints|]
    decreases k
  {
    var n := |endpoints|;
    if k == 0 {
      NextIsSuccessor(endpoints, -1);
    } else {
      KthCall(endpoints, k - 1);
      NextIsSuccessor(endpoints, (k - 1) % n);
      ModAdd(k - 1, 1, n);
    }
  }

  /** Calling `n + 1` times visits every endpoint in order, then wraps back to the first. */
  lemma FullRotation(endpoints: seq<string>)
    requires |endpoints| > 0
    ensures forall j :: 0 <= j < |endpoints| ==> Selected(endpoints, j) == endpoints[j]
    ensures Selected(endpoints, |endpoints|) == endpoints[0]
  {
    var n := |endpoints|;
    forall j | 0 <= j < n ensures Selected(endpoints, j) == endpoints[j] {
      KthCall(endpoints, j);
      ModUnique(j, n, 0, j);
    }
    KthCall(endpoints, n);
    ModUnique(n, n, 1, 0);
  }

  /** Go's `RoundRobinLB`: a copy of the endpoints and a cursor that starts at -1. */
  class RoundRobinLB {
    const endpoints: seq<string>
    var index: int
    ghost var calls: nat  // how many times Next has been called

    ghost predicate Valid()
      reads this
    {
      index == Cursor(endpoints, calls)
    }

    /** `NewLoadBalancer(endpoints)`. */
    constructor (endpoints: seq<string>)
      ensures Valid()
      ensures this.endpoints == endpoints && index == -1 && calls == 0
    {
      this.endpoints := endpoints;
      index := -1;
      calls := 0;
    }

    /** `Next()`: the endpoint after the cursor, wrapping to the first once the cursor reaches the last. */
    method Next() returns (e: string)
      requires Valid()
      modifies this
      ensures Valid() && calls == old(calls) + 1
      ensures Step(e, index) == NextOf(endpoints, old(index))
      ensures |endpoints| == 0 ==> e == "" && index == old(index)
      ensures |endpoints| > 0 ==> e == endpoints[old(calls) % |endpoints|] && index == old(calls) % |endpoints|
    {
      var l := |endpoints|;
      if l > 0 {
        KthCall(endpoints, calls);
      }
      calls := calls + 1;
      if l == 0 {
        return "";
      }
      var c := index;
      if c >= l - 1 {
        index := 0;
        e := endpoints[0];
      } else {
        // the compare-and-swap from c to c + 1 succeeds: no other caller runs
        index := c + 1;
        e := endpoints[c + 1];
      }
    }
  }

  /** The outcome of `Do` as one value: no attempt, a response, or the last transport error. */
  type Outcome = Option<Result<Response, string>>

  /** Go's `(resp, err)` pair for an outcome: no attempt leaves both nil. */
  function ToGo(o: Outcome): (Option<Response>, Option<string>) {
    match o
    case None => (None, None)
    case Some(Ok(r)) => (Some(r), None)
    case Some(Err(e)) => (None, Some(e))
  }

  /** What `Do` does: its outcome, where it leaves the cursor and the endpoints it tried, in order. */
  datatype DoRun = DoRun(outcome: Outcome, cursor: int, tried: seq<string>)

  function DoLoop(endpoints: seq<string>, index: int, tries: nat, net: Network, verb: string, api: Api, header: Header, body: Body): (run: DoRun)
    requires -1 <= index
    ensures -1 <= run.cursor
    decreases tries
  {
    if tries == 0 then DoRun(None, index, [])
    else
      var step := NextOf(endpoints, index);
      var reply := DoRequest(net, verb, step.endpoint, api, header, body);
      if reply.Ok? then DoRun(Some(reply), step.cursor, [step.endpoint])
      else
        var rest := DoLoop(endpoints, step.cursor, tries - 1, net, verb, api, header, body);
        DoRun(if rest.outcome.None? then Some(reply) else rest.outcome, rest.cursor, [step.endpoint] + rest.tried)
  }

  /**
   * `Do` makes between one and `tries` attempts when it may make any, against
   * the endpoints that follow the cursor, in round-robin order.
   */
  lemma {:induction false} DoTriesInOrder(endpoints: seq<string>, index: int, tries: nat, net: Network, verb: string, api: Api, header: Header, body: Body)
    requires 0 < |endpoints| && -1 <= index < |endpoints|
    ensures var run := DoLoop(endpoints, index, tries, net, verb, api, header, body);
      |run.tried| <= tries && (tries > 0 <==> run.outcome.Some?) && (tries > 0 ==> |run.tried| > 0) &&
      (forall k :: 0 <= k < |run.tried| ==> run.tried[k] == endpoints[(index + 1 + k) % |endpoints|]) &&
      -1 <= run.cursor < |endpoints|
    decreases tries
  {
    if tries > 0 {
      var n := |endpoints|;
      var step := NextOf(endpoints, index);
      NextIsSuccessor(endpoints, index);
      DoTriesInOrder(endpoints, step.cursor, tries - 1, net, verb, api, header, body);
      var run := DoLoop(endpoints, index, tries, net, verb, api, header, body);
      var rest := DoLoop(endpoints, step.cursor, tries - 1, net, verb, api, header, body);
      forall k | 0 < k < |run.tried| ensures run.tried[k] == endpoints[(index + 1 + k) % n] {
        assert run.tried[k] == rest.tried[k - 1];
        ModAdd(index + 1, 1 + (k - 1), n);
      }
    }
  }

  /**
   * `Do` stops at the first attempt without a transport error and returns its
   * response; every attempt before it failed.  If no attempt succeeds, all
   * `tries` attempts were made and the last one's error is returned.
   */
  lemma {:induction false} DoStopsAtFirstSuccess(endpoints: seq<string>, index: int, tries: nat, net: Network, verb: string, api: Api, header: Header, body: Body)
    requires -1 <= index
    ensures var run := DoLoop(endpoints, index, tries, net, verb, api, header, body);
      (forall k :: 0 <= k < |run.tried| - 1 ==> DoRequest(net, verb, run.tried[k], api, header, body).Err?) &&
      (run.outcome.Some? ==> |run.tried| > 0 && run.outcome.value == DoRequest(net, verb, run.tried[|run.tried| - 1], api, header, body)) &&
      (run.outcome.Some? && run.outcome.value.Err? ==> |run.tried| == tries)
    decreases tries
  {
    if tries > 0 {
      var step := NextOf(endpoints, index);
      DoStopsAtFirstSuccess(endpoints, step.cursor, tries - 1, net, verb, api, header, body);
      var run := DoLoop(endpoints, index, tries, net, verb, api, header, body);
      var rest := DoLoop(endpoints, step.cursor, tries - 1, net, verb, api, header, body);
      if DoRequest(net, verb, step.endpoint, api, header, body).Err? {
        forall k | 0 < k < |run.tried| - 1
          ensures DoRequest(net, verb, run.tried[k], api, header, body).Err?
        {
          assert run.tried[k] == rest.tried[k - 1];
        }
        if rest.outcome.Some? {
          assert run.tried[|run.tried| - 1] == rest.tried[|rest.tried| - 1];
        }
      }
    }
  }

  lemma RotatedAt(endpoints: seq<string>, index: int, k: int)
    requires 0 < |endpoints| && -1 <= index < |endpoints| && 0 <= k < |endpoints|
    ensures var s := (index + 1) % |endpoints|;
      (endpoints[s..] + endpoints[..s])[k] == endpoints[(index + 1 + k) % |endpoints|]
  {
    var n := |endpoints|;
    var s := (index + 1) % n;
    ModAdd(index + 1, k, n);
    if s + k < n {
      ModUnique(s + k, n, 0, s + k);
    } else {
      ModUnique(s + k, n, 1, s + k - n);
    }
  }

  /**
   * When every attempt fails and there are as many attempts as endpoints
   * (which `NewClient` arranges), each endpoint was tried exactly once: the
   * attempts are the endpoint list rotated to start after the cursor.
   */
  lemma EveryEndpointTriedOnce(endpoints: seq<string>, index: int, net: Network, verb: string, api: Api, header: Header, body: Body)
    requires 0 < |endpoints| && -1 <= index < |endpoints|
    requires DoLoop(endpoints, index, |endpoints|, net, verb, api, header, body).outcome.Some?
    requires DoLoop(endpoints, index, |endpoints|, net, verb, api, header, body).outcome.value.Err?
    ensures var run := DoLoop(endpoints, index, |endpoints|, net, verb, api, header, body);
      var s := (index + 1) % |endpoints|;
      run.tried == endpoints[s..] + endpoints[..s] && multiset(run.tried) == multiset(endpoints)
  {
    var n := |endpoints|;
    var run := DoLoop(endpoints, index, n, net, verb, api, header, body);
    DoTriesInOrder(endpoints, index, n, net, verb, api, header, body);
    DoStopsAtFirstSuccess(endpoints, index, n, net, verb, api, header, body);
    var s := (index + 1) % n;
    var rotated := endpoints[s..] + endpoints[..s];
    assert |run.tried| == n;
    forall k | 0 <= k < n ensures run.tried[k] == rotated[k] {
      RotatedAt(endpoints, index, k);
    }
    assert endpoints == endpoints[..s] + endpoints[s..];
  }

  /** The transport scenario: with "http://a" unreachable and "http://b" answering, one failed attempt then b's response. */
  lemma FailoverToSecond(net: Network, verb: string, api: Api, header: Header, r: Response)
    requires net(Request(verb, "http://a", api, header, None)).Err?
    requires net(Request(verb, "http://b", api, header, None)) == Ok(r)
    ensures var run := DoLoop(["http://a", "http://b"], -1, 2, net, verb, api, header, NoBody);
      run.outcome == Some(Ok(r)) && run.tried == ["http://a", "http://b"] && run.cursor == 1
  {
  }

  /** Go's `Client`: a balancer and a retry count equal to the number of endpoints. */
  class Client {
    const lb: RoundRobinLB
    const retries: int

    ghost predicate Valid()
      reads this, lb
    {
      lb.Valid() && retries == |lb.endpoints|
    }

    /** `NewClient(endpoints...)`. */
    constructor (endpoints: seq<string>)
      ensures Valid() && fresh(lb)
      ensures lb.endpoints == endpoints && lb.index == -1 && lb.calls == 0 && retries == |endpoints|
    {
      lb := new RoundRobinLB(endpoints);
      retries := |endpoints|;
    }

    /**
     * `Do(method, api, headers, body)`: up to `retries` attempts, each against
     * `Next() + api`, stopping at the first one that gets a response.
     */
    method Do(verb: string, api: Api, header: Header, body: Body, net: Network) returns (resp: Option<Response>, err: Option<string>)
      requires Valid()
      modifies lb
      ensures Valid()
      ensures var run := DoLoop(lb.endpoints, old(lb.index), retries, net, verb, api, header, body);
        lb.index == run.cursor && lb.calls == old(lb.calls) + |run.tried| && (resp, err) == ToGo(run.outcome)
    {
      ghost var whole := DoLoop(lb.endpoints, lb.index, retries, net, verb, api, header, body);
      ghost var rest := whole;
      resp, err := None, None;
      var i := 0;
      while i < retries
        invariant 0 <= i <= retries && lb.Valid() && -1 <= lb.index
        invariant rest == DoLoop(lb.endpoints, lb.index, retries - i, net, verb, api, header, body)
        invariant whole.cursor == rest.cursor && lb.calls + |rest.tried| == old(lb.calls) + |whole.tried|
        invariant rest.outcome.Some? ==> whole.outcome == rest.outcome
        invariant rest.outcome.None? ==> ToGo(whole.outcome) == (resp, err)
        invariant i == 0 ==> resp.None? && err.None?
        invariant i > 0 ==> resp.None? && err.Some?
      {
        var address := lb.Next();
        var reply := DoRequest(net, verb, address, api, header, body);
        if reply.Ok? {
          resp, err := Some(reply.value), None;
          break;
        }
        rest := DoLoop(lb.endpoints, lb.index, retries - i - 1, net, verb, api, header, body);
        resp, err := None, Some(reply.error);
        i := i + 1;
      }
    }

    /**
     * `WebsocketDial(api, headers)` as written: the `err` declared inside the
     * loop shadows the named result, so the result error is never set, and a
     * failed dial leaves a nil connection.
     */
    method WebsocketDial(path: string, header: Header, dial: Dialer) returns (conn: Option<Conn>, err: Option<string>)
      requires Valid()
      modifies lb
      ensures Valid()
      ensures var run := DialLoopAsWritten(lb.endpoints, old(lb.index), retries, path, header, dial, None);
        lb.index == run.cursor && conn == run.conn && err == None
    {
      ghost var whole := DialLoopAsWritten(lb.endpoints, lb.index, retries, path, header, dial, None);
      conn, err := None, None;
      var i := 0;
      while i < retries
        invariant 0 <= i <= retries && lb.Valid() && -1 <= lb.index && err == None
        invariant var rest := DialLoopAsWritten(lb.endpoints, lb.index, retries - i, path, header, dial, conn);
          whole.conn == rest.conn && whole.cursor == rest.cursor
      {
        var endpoint := lb.Next();
        var address := endpoint + path;
        var target := WsTarget(address);
        if target.Err? {
          i := i + 1;
          continue;
        }
        var failure := dial(target.value, header);
        if failure.None? {
          conn := Some(Conn(target.value));
          break;
        }
        conn := None;
        i := i + 1;
      }
    }

    /** `WebsocketDial` with the shadowing removed: a failed parse or dial sets the result error. */
    method WebsocketDialChecked(path: string, header: Header, dial: Dialer) returns (conn: Option<Conn>, err: Option<string>)
      requires Valid()
      modifies lb
      ensures Valid()
      ensures var run := DialLoop(lb.endpoints, old(lb.index), retries, path, header, dial, None);
        lb.index == run.cursor && conn == run.conn && err == run.err
    {
      ghost var whole := DialLoop(lb.endpoints, lb.index, retries, path, header, dial, None);
      conn, err := None, None;
      var i := 0;
      while i < retries
        invariant 0 <= i <= retries && lb.Valid() && -1 <= lb.index && conn == None
        invariant var rest := DialLoop(lb.endpoints, lb.index, retries - i, path, header, dial, err);
          whole.conn == rest.conn && whole.err == rest.err && whole.cursor == rest.cursor
      {
        var endpoint := lb.Next();
        var address := endpoint + path;
        var target := WsTarget(address);
        if target.Err? {
          err := Some(target.error);
          i := i + 1;
          continue;
        }
        var failure := dial(target.value, header);
        if failure.None? {
          conn, err := Some(Conn(target.value)), None;
          break;
        }
        err := failure;
        i := i + 1;
      }
    }
  }

  /** An open WebSocket connection, named by the address it was dialled at. */
  datatype Conn = Conn(url: string)

  /** The WebSocket handshake, seen from one call: `None` when it succeeds, otherwise its error. */
  type Dialer = (string, Header) -> Option<string>

  /** Scheme `https` maps to `wss` and every other scheme to `ws` (the URI schemes of section 3 of RFC 6455). */
  function WsScheme(scheme: string): (s: string)
    ensures s == "wss" <==> scheme == "https"
    ensures s == "ws" <==> scheme != "https"
  {
    if scheme == "https" then "wss" else "ws"
  }

  /** The address dialled for `address`: its scheme mapped to `ws`/`wss`, or why it does not parse. */
  function WsTarget(address: string): Result<string, string> {
    match Url.Parse(address)
    case Err(e) => Err(e)
    case Ok(u) => Ok(Url.ToString(u.(scheme := WsScheme(u.scheme))))
  }

  /** What a dial loop leaves: the connection, the error, the cursor, and the addresses dialled. */
  datatype DialRun = DialRun(conn: Option<Conn>, err: Option<string>, cursor: int, dialed: seq<string>)

  /** The dial loop as written: `conn` is whatever the last dial left, the result error stays nil. */
  function DialLoopAsWritten(endpoints: seq<string>, index: int, tries: nat, path: string, header: Header, dial: Dialer, conn: Option<Conn>): (run: DialRun)
    requires -1 <= index
    decreases tries
  {
    if tries == 0 then DialRun(conn, None, index, [])
    else
      var step := NextOf(endpoints, index);
      match WsTarget(step.endpoint + path)
      case Err(_) => DialLoopAsWritten(endpoints, step.cursor, tries - 1, path, header, dial, conn)
      case Ok(target) =>
        if dial(target, header).None? then DialRun(Some(Conn(target)), None, step.cursor, [target])
        else
          var rest := DialLoopAsWritten(endpoints, step.cursor, tries - 1, path, header, dial, None);
          rest.(dialed := [target] + rest.dialed)
  }

  /** The dial loop with the error kept: `err` is the last parse or dial error. */
  function DialLoop(endpoints: seq<string>, index: int, tries: nat, path: string, header: Header, dial: Dialer, err: Option<string>): (run: DialRun)
    requires -1 <= index
    decreases tries
  {
    if tries == 0 then DialRun(None, err, index, [])
    else
      var step := NextOf(endpoints, index);
      match WsTarget(step.endpoint + path)
      case Err(e) => DialLoop(endpoints, step.cursor, tries - 1, path, header, dial, Some(e))
      case Ok(target) =>
        var failure := dial(target, header);
        if failure.None? then DialRun(Some(Conn(target)), None, step.cursor, [target])
        else
          var rest := DialLoop(endpoints, step.cursor, tries - 1, path, header, dial, failure);
          rest.(dialed := [target] + rest.dialed)
  }

  /** As written, the dial loop never reports an error, whatever happens. */
  lemma {:induction false} WebsocketDialNeverFails(endpoints: seq<string>, index: int, tries: nat, path: string, header: Header, dial: Dialer, conn: Option<Conn>)
    requires -1 <= index
    ensures DialLoopAsWritten(endpoints, index, tries, path, header, dial, conn).err == None
    decreases tries
  {
    if tries > 0 {
      var step := NextOf(endpoints, index);
      WebsocketDialNeverFails(endpoints, step.cursor, tries - 1, path, header, dial, conn);
      WebsocketDialNeverFails(endpoints, step.cursor, tries - 1, path, header, dial, None);
    }
  }

  /** The discrepancy: one endpoint whose dial fails yields neither a connection nor an error. */
  lemma WebsocketDialLosesError(path: string, header: Header, dial: Dialer)
    requires WsTarget("http://a" + path).Ok?
    requires dial(WsTarget("http://a" + path).value, header).Some?
    ensures var run := DialLoopAsWritten(["http://a"], -1, 1, path, header, dial, None);
      run.conn == None && run.err == None && run.dialed == [WsTarget("http://a" + path).value]
  {
  }

  /** With the error kept, a dial loop that may make an attempt yields a connection exactly when it reports no error. */
  lemma {:induction false} DialReportsFailure(endpoints: seq<string>, index: int, tries: nat, path: string, header: Header, dial: Dialer, err: Option<string>)
    requires -1 <= index
    requires tries > 0 || err.Some?
    ensures var run := DialLoop(endpoints, index, tries, path, header, dial, err);
      run.conn.Some? <==> run.err.None?
    decreases tries
  {
    if tries > 0 {
      var step := NextOf(endpoints, index);
      var target := WsTarget(step.endpoint + path);
      if target.Err? {
        DialReportsFailure(endpoints, step.cursor, tries - 1, path, header, dial, Some(target.error));
      } else {
        var failure := dial(target.value, header);
        if failure.Some? {
          DialReportsFailure(endpoints, step.cursor, tries - 1, path, header, dial, failure);
        }
      }
    }
  }

  /** An endpoint `scheme:rest` is dialled at `ws:rest` + path, or `wss:rest` + path for `https`. */
  lemma DialTarget(scheme: string, rest: string, path: string)
    requires Url.ValidScheme(scheme) && !Url.HasCtl(rest + path)
    ensures WsTarget(scheme + ":" + rest + path) == Ok(WsScheme(scheme) + ":" + rest + path)
  {
    Url.ParseToString(Url.Url(scheme, rest + path));
    assert scheme + ":" + rest + path == scheme + ":" + (rest + path);
    var u := Url.Url(WsScheme(scheme), rest + path);
    assert Url.ToString(u) == WsScheme(scheme) + ":" + (rest + path);
    assert WsScheme(scheme) + ":" + (rest + path) == WsScheme(scheme) + ":" + rest + path;
  }
}
