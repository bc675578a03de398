/**
 The resolver maps: what one report teaches about which host owns an address and which
 process owns a port, how a thousand of those are merged, and what the merged maps
 leave in Redis.
 */
module Resolvers {
  import opened Identifiers

  datatype EndpointResolvers = EndpointResolvers(networkMap: StringMap, ipPortToIPPID: StringMap)

  const NO_RESOLVERS := EndpointResolvers(map[], map[])

  // ----- what one report teaches -----

  datatype HostNode = HostNode(hostName: string, interfaceIPs: seq<string>)
  datatype EndpointNode = EndpointNode(nodeID: string, hostName: string, pid: int)

  // An endpoint that is entered in the maps.
  predicate Recorded(e: EndpointNode)
    requires e.hostName != "" ==> ExtractIPPort(e.nodeID).Some?
  {
    e.hostName != "" && ExtractIPPort(e.nodeID).value.0 != LOCALHOST
  }

  predicate Parseable(es: seq<EndpointNode>) {
    forall e :: e in es && e.hostName != "" ==> ExtractIPPort(e.nodeID).Some?
  }

  function IPOf(e: EndpointNode): string
    requires ExtractIPPort(e.nodeID).Some?
  {
    ExtractIPPort(e.nodeID).value.0
  }

  function KeyOf(e: EndpointNode): string
    requires ExtractIPPort(e.nodeID).Some?
  {
    ResolverKey(ExtractIPPort(e.nodeID).value.0, ExtractIPPort(e.nodeID).value.1)
  }

  // The last of the first n endpoints entered under a key, or -1.
  function LastUnder(es: seq<EndpointNode>, n: nat, key: string): (j: int)
    requires n <= |es| && Parseable(es)
    ensures j == -1 || (0 <= j < n && Recorded(es[j]) && KeyOf(es[j]) == key)
    ensures forall i :: j < i < n && 0 <= i && Recorded(es[i]) ==> KeyOf(es[i]) != key
  {
    if n == 0 then -1
    else if Recorded(es[n - 1]) && KeyOf(es[n - 1]) == key then n - 1
    else LastUnder(es, n - 1, key)
  }

  // The process map after the first n endpoints, looked up by key.
  ghost predicate PidMapOk(es: seq<EndpointNode>, n: nat, m: StringMap)
    requires n <= |es| && Parseable(es)
  {
    forall key: string ::
      var j := LastUnder(es, n, key);
      if j < 0 then key !in m else key in m && m[key] == ProcessRef(IPOf(es[j]), es[j].pid)
  }

  lemma PidMapStep(es: seq<EndpointNode>, n: nat, m: StringMap)
    requires n < |es| && Parseable(es) && PidMapOk(es, n, m)
    ensures PidMapOk(es, n + 1,
      if Recorded(es[n]) then m[KeyOf(es[n]) := ProcessRef(IPOf(es[n]), es[n].pid)] else m)
  {
  }

  // The last of the first n hosts that has an interface with this address, or -1.
  function LastHost(hosts: seq<HostNode>, n: nat, ip: string): (j: int)
    requires n <= |hosts|
    ensures -1 <= j < n
  {
    if n == 0 then -1
    else if ip in hosts[n - 1].interfaceIPs then n - 1
    else LastHost(hosts, n - 1, ip)
  }

  // The last of the first n endpoints entered with this address, or -1.
  function LastAt(es: seq<EndpointNode>, n: nat, ip: string): (j: int)
    requires n <= |es| && Parseable(es)
    ensures -1 <= j < n
  {
    if n == 0 then -1
    else if Recorded(es[n - 1]) && IPOf(es[n - 1]) == ip then n - 1
    else LastAt(es, n - 1, ip)
  }

  // The name an address resolves to: an endpoint's host before a host's interface, the last one of each.
  function NameOf(hosts: seq<HostNode>, n: nat, es: seq<EndpointNode>, m: nat, ip: string): Option<string>
    requires n <= |hosts| && m <= |es| && Parseable(es)
  {
    var e, h := LastAt(es, m, ip), LastHost(hosts, n, ip);
    if e >= 0 then Some(es[e].hostName) else if h >= 0 then Some(hosts[h].hostName) else None
  }

  ghost predicate NetMapOk(hosts: seq<HostNode>, n: nat, es: seq<EndpointNode>, m: nat, net: StringMap)
    requires n <= |hosts| && m <= |es| && Parseable(es)
  {
    forall ip: string :: (if ip in net then Some(net[ip]) else None) == NameOf(hosts, n, es, m, ip)
  }

  lemma NetMapStep(hosts: seq<HostNode>, es: seq<EndpointNode>, n: nat, net: StringMap)
    requires n < |es| && Parseable(es) && NetMapOk(hosts, |hosts|, es, n, net)
    ensures NetMapOk(hosts, |hosts|, es, n + 1, if Recorded(es[n]) then net[IPOf(es[n]) := es[n].hostName] else net)
  {
  }

  lemma NetMapHost(hosts: seq<HostNode>, n: nat, es: seq<EndpointNode>, net: StringMap, r: StringMap)
    requires n < |hosts| && Parseable(es) && NetMapOk(hosts, n, es, 0, net)
    requires forall ip: string :: ip in r <==> ip in net || ip in hosts[n].interfaceIPs
    requires forall ip :: ip in r ==> r[ip] == if ip in hosts[n].interfaceIPs then hosts[n].hostName else net[ip]
    ensures NetMapOk(hosts, n + 1, es, 0, r)
  {
  }

  // One host's interfaces all get its name.
  method EnterInterfaces(net: StringMap, h: HostNode) returns (r: StringMap)
    ensures forall ip: string :: ip in r <==> ip in net || ip in h.interfaceIPs
    ensures forall ip :: ip in r ==> r[ip] == if ip in h.interfaceIPs then h.hostName else net[ip]
  {
    r := net;
    for i := 0 to |h.interfaceIPs|
      invariant forall ip: string :: ip in r <==> ip in net || ip in h.interfaceIPs[..i]
      invariant forall ip :: ip in r ==> r[ip] == if ip in h.interfaceIPs[..i] then h.hostName else net[ip]
    {
      r := r[h.interfaceIPs[i] := h.hostName];
    }
    assert h.interfaceIPs[..|h.interfaceIPs|] == h.interfaceIPs;
  }

  method EnterHosts(hosts: seq<HostNode>, ghost es: seq<EndpointNode>) returns (net: StringMap)
    requires Parseable(es)
    ensures NetMapOk(hosts, |hosts|, es, 0, net)
  {
    net := map[];
    for h := 0 to |hosts|
      invariant NetMapOk(hosts, h, es, 0, net)
    {
      var entered := EnterInterfaces(net, hosts[h]);
      NetMapHost(hosts, h, es, net, entered);
      net := entered;
    }
  }

  /**
   computeResolvers: the process map holds, under every key, the reference written by the
   last endpoint with that key; the network map holds the name of the last endpoint with an
   address, or failing that of the last host with such an interface.
   */
  method ComputeResolvers(hosts: seq<HostNode>, es: seq<EndpointNode>) returns (r: EndpointResolvers)
    requires Parseable(es)
    ensures PidMapOk(es, |es|, r.ipPortToIPPID)
    ensures NetMapOk(hosts, |hosts|, es, |es|, r.networkMap)
  {
    var net := EnterHosts(hosts, es);
    var pids: StringMap := map[];
    for n := 0 to |es|
      invariant NetMapOk(hosts, |hosts|, es, n, net)
      invariant PidMapOk(es, n, pids)
    {
      var e := es[n];
      PidMapStep(es, n, pids);
      NetMapStep(hosts, es, n, net);
      if Recorded(e) {
        net := net[IPOf(e) := e.hostName];
        pids := pids[KeyOf(e) := ProcessRef(IPOf(e), e.pid)];
      }
    }
    r := EndpointResolvers(net, pids);
  }

  // The local address is never entered for an endpoint, so it has a name only as a host's interface.
  lemma {:induction false} LocalNotEntered(es: seq<EndpointNode>, n: nat)
    requires n <= |es| && Parseable(es)
    ensures LastAt(es, n, "127.0.0.1") == -1
  {
    if n > 0 { LocalNotEntered(es, n - 1); }
  }

  lemma LocalUnresolved(hosts: seq<HostNode>, es: seq<EndpointNode>, net: StringMap)
    requires Parseable(es) && NetMapOk(hosts, |hosts|, es, |es|, net)
    requires forall h :: h in hosts ==> "127.0.0.1" !in h.interfaceIPs
    ensures "127.0.0.1" !in net
  {
    LocalNotEntered(es, |es|);
    NoInterface(hosts, |hosts|, "127.0.0.1");
    assert NameOf(hosts, |hosts|, es, |es|, "127.0.0.1") == None;
  }

  lemma {:induction false} NoInterface(hosts: seq<HostNode>, n: nat, ip: string)
    requires n <= |hosts| && forall h :: h in hosts ==> ip !in h.interfaceIPs
    ensures LastHost(hosts, n, ip) == -1
  {
    if n > 0 {
      assert hosts[n - 1] in hosts;
      NoInterface(hosts, n - 1, ip);
    }
  }

  lemma AddressHasNoSeparator(nodeID: string)
    requires ExtractIPPort(nodeID).Some?
    ensures ';' !in ExtractIPPort(nodeID).value.0
  {
    var scope := PartsOfExtract(nodeID);
  }

  /**
   A recorded endpoint's pid is read back through the map exactly when the last
   endpoint with the same key has that pid; because address and port are joined
   without a separator, that can be an endpoint of another address.
   */
  lemma PidReadBack(es: seq<EndpointNode>, m: StringMap, i: nat)
    requires Parseable(es) && PidMapOk(es, |es|, m) && i < |es| && Recorded(es[i])
    requires forall e :: e in es ==> MIN_INT <= e.pid <= MAX_INT
    requires forall e :: e in es && Recorded(e) ==> IPOf(e) != ""
    ensures KeyOf(es[i]) in m
    ensures ExtractPid(m[KeyOf(es[i])]) == es[i].pid <==> es[LastUnder(es, |es|, KeyOf(es[i]))].pid == es[i].pid
  {
    var j := LastUnder(es, |es|, KeyOf(es[i]));
    assert j >= 0 && es[j] in es;
    AddressHasNoSeparator(es[j].nodeID);
    PidRoundTrip(IPOf(es[j]), es[j].pid);
  }

  // ----- merging and pushing -----

  // Later maps overwrite earlier ones.
  function Overlay(m: StringMap, ms: seq<StringMap>): StringMap {
    if ms == [] then m else Overlay(m, ms[..|ms| - 1]) + ms[|ms| - 1]
  }

  function Nets(ers: seq<EndpointResolvers>): seq<StringMap> {
    seq(|ers|, i requires 0 <= i < |ers| => ers[i].networkMap)
  }
  function Pids(ers: seq<EndpointResolvers>): seq<StringMap> {
    seq(|ers|, i requires 0 <= i < |ers| => ers[i].ipPortToIPPID)
  }

  // The loop over one map: every pair is stored, whatever the order of the keys.
  method StoreAll(m: StringMap, add: StringMap) returns (r: StringMap)
    ensures r == m + add
  {
    r := m;
    var todo := add.Keys;
    while todo != {}
      invariant todo <= add.Keys
      invariant r == m + (add - todo)
      decreases todo
    {
      var k :| k in todo;
      assert add - (todo - {k}) == (add - todo)[k := add[k]];
      r := r[k := add[k]];
      todo := todo - {k};
    }
    assert add - {} == add;
  }

  method MergeResolvers(others: seq<EndpointResolvers>) returns (res: EndpointResolvers)
    ensures res.networkMap == Overlay(map[], Nets(others))
    ensures res.ipPortToIPPID == Overlay(map[], Pids(others))
  {
    res := NO_RESOLVERS;
    for i := 0 to |others|
      invariant res.networkMap == Overlay(map[], Nets(others[..i]))
      invariant res.ipPortToIPPID == Overlay(map[], Pids(others[..i]))
    {
      assert Nets(others[..i + 1])[..i] == Nets(others[..i]) && Pids(others[..i + 1])[..i] == Pids(others[..i]);
      var net := StoreAll(res.networkMap, others[i].networkMap);
      var pid := StoreAll(res.ipPortToIPPID, others[i].ipPortToIPPID);
      res := EndpointResolvers(net, pid);
    }
    assert others[..|others|] == others;
  }

  // One flush of the updater: the map is first cleared if it has grown too large; the write may fail.
  datatype Flush = Flush(batch: seq<StringMap>, evict: bool, written: bool)

  // What a flush writes.
  function Wrote(f: Flush): seq<StringMap> { if f.written then f.batch else [] }

  function PushBatches(m: StringMap, fs: seq<Flush>): StringMap {
    if fs == [] then m
    else
      var f := fs[|fs| - 1];
      (if f.evict then map[] else PushBatches(m, fs[..|fs| - 1]))
      + (if f.written then Overlay(map[], f.batch) else map[])
  }

  // The maps written since the last eviction, by the evicting flush included.
  function SinceEviction(fs: seq<Flush>): seq<StringMap> {
    if fs == [] then []
    else
      var f := fs[|fs| - 1];
      (if f.evict then [] else SinceEviction(fs[..|fs| - 1])) + Wrote(f)
  }

  predicate Evicted(fs: seq<Flush>) { exists i :: 0 <= i < |fs| && fs[i].evict }

  lemma Regroup(x: StringMap, y: StringMap, z: StringMap)
    ensures x + (y + z) == (x + y) + z
  {
  }

  lemma {:induction false} OverlayAppend(m: StringMap, a: seq<StringMap>, b: seq<StringMap>)
    ensures Overlay(m, a + b) == Overlay(m, a) + Overlay(map[], b)
  {
    if b == [] {
      assert a + b == a;
    } else {
      var init, last := b[..|b| - 1], b[|b| - 1];
      assert (a + b)[..|a + b| - 1] == a + init && (a + b)[|a + b| - 1] == last;
      OverlayAppend(m, a, init);
      Regroup(Overlay(m, a), Overlay(map[], init), last);
    }
  }

  lemma EvictedSnoc(fs: seq<Flush>, f: Flush)
    ensures Evicted(fs + [f]) <==> f.evict || Evicted(fs)
  {
    var gs := fs + [f];
    if i :| 0 <= i < |fs| && fs[i].evict { assert gs[i].evict; }
    if f.evict { assert gs[|fs|].evict; }
  }

  /**
   Batched updates refine one-at-a-time updates: for every way of cutting the stream
   of resolvers into flushes and for every pattern of evictions and failed writes, Redis ends
   up as if the resolvers written since the last eviction had been pushed one by one; with no
   eviction, all that were written onto the original map.
   */
  lemma {:induction false} BatchedIsOneByOne(m: StringMap, fs: seq<Flush>)
    ensures PushBatches(m, fs) == Overlay(if Evicted(fs) then map[] else m, SinceEviction(fs))
  {
    if fs != [] {
      var init, f := fs[..|fs| - 1], fs[|fs| - 1];
      BatchedIsOneByOne(m, init);
      var base := if Evicted(init) then map[] else m;
      OverlayAppend(base, SinceEviction(init), Wrote(f));
      EvictedSnoc(init, f);
      assert fs == init + [f];
      if f.evict { OverlayAppend(map[], [], Wrote(f)); }
    }
  }

  // Without evictions the cutting does not matter at all.
  lemma CuttingDoesNotMatter(m: StringMap, fs: seq<Flush>, gs: seq<Flush>)
    requires !Evicted(fs) && !Evicted(gs) && SinceEviction(fs) == SinceEviction(gs)
    ensures PushBatches(m, fs) == PushBatches(m, gs)
  {
    BatchedIsOneByOne(m, fs);
    BatchedIsOneByOne(m, gs);
  }
}
