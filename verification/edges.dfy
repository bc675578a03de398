/**
 From resolvers to connections: what an edge says about the endpoints it connects, when
 the resolver maps are those that `computeResolvers` made of a report.
 */
module Edges {
  import opened Identifiers
  import opened Connections
  import R = Resolvers

  // The maps of a report, as the resolver of another.
  function ResolverOf(er: R.EndpointResolvers): Resolver { Resolver(er.networkMap, er.ipPortToIPPID) }

  lemma HostFound(hosts: seq<R.HostNode>, es: seq<R.EndpointNode>, net: StringMap, j: nat)
    requires R.Parseable(es) && j < |es| && R.Recorded(es[j]) && R.NetMapOk(hosts, |hosts|, es, |es|, net)
    requires R.LastAt(es, |es|, R.IPOf(es[j])) == j
    ensures Lookup(net, R.IPOf(es[j])) == Some(es[j].hostName)
  {
    assert R.NameOf(hosts, |hosts|, es, |es|, R.IPOf(es[j])) == Some(es[j].hostName);
  }

  lemma PidFound(es: seq<R.EndpointNode>, pids: StringMap, j: nat)
    requires R.Parseable(es) && j < |es| && R.Recorded(es[j]) && R.PidMapOk(es, |es|, pids)
    requires R.LastUnder(es, |es|, R.KeyOf(es[j])) == j
    requires MIN_INT <= es[j].pid <= MAX_INT && R.IPOf(es[j]) != ""
    ensures var ref := Lookup(pids, R.KeyOf(es[j])); ref.Some? && ExtractPid(ref.value) == es[j].pid
  {
    R.AddressHasNoSeparator(es[j].nodeID);
    PidRoundTrip(R.IPOf(es[j]), es[j].pid);
    assert Lookup(pids, R.KeyOf(es[j])) == Some(ProcessRef(R.IPOf(es[j]), es[j].pid));
  }

  lemma EdgeInBetween(i: Item, r: Resolver, host: string, pid: int)
    requires Lookup(r.hosts, i.ip) == Some(host) && i.host != "" && i.host != host
    requires var ref := Lookup(r.pids, ResolverKey(i.ip, i.port)); ref.Some? && ExtractPid(ref.value) == pid
    ensures Edge(i, r) == [Connection(i.host, host, i.pid, pid, i.localPort, None, None)]
  {
  }

  // The neighbour of the item is this recorded endpoint, the last one for its address and for its key.
  predicate LeadsTo(i: Item, es: seq<R.EndpointNode>, j: nat)
    requires R.Parseable(es) && j < |es| && R.Recorded(es[j])
  {
    && R.LastAt(es, |es|, R.IPOf(es[j])) == j && R.LastUnder(es, |es|, R.KeyOf(es[j])) == j
    && MIN_INT <= es[j].pid <= MAX_INT && R.IPOf(es[j]) != ""
    && ExtractIPPort(es[j].nodeID) == Some((i.ip, i.port))
  }

  /**
   An edge to a recorded endpoint names the endpoint's own host and pid: provided it is the
   last one recorded for its address and for its key, the edge from another host
   carries both hosts, both pids and the local port.
   */
  lemma EdgeBetweenRecorded(hosts: seq<R.HostNode>, es: seq<R.EndpointNode>, er: R.EndpointResolvers, j: nat, i: Item)
    requires R.Parseable(es) && j < |es| && R.Recorded(es[j])
    requires R.PidMapOk(es, |es|, er.ipPortToIPPID) && R.NetMapOk(hosts, |hosts|, es, |es|, er.networkMap)
    requires LeadsTo(i, es, j)
    requires i.host != "" && i.host != es[j].hostName
    ensures Edge(i, ResolverOf(er)) ==
      [Connection(i.host, es[j].hostName, i.pid, es[j].pid, i.localPort, None, None)]
  {
    HostFound(hosts, es, er.networkMap, j);
    PidFound(es, er.ipPortToIPPID, j);
    EdgeInBetween(i, ResolverOf(er), es[j].hostName, es[j].pid);
  }

  /**
   The two ends of a connection agree: when both are recorded and each reports the other
   as its neighbour, their edges are mirror images, hosts and pids exchanged.
   */
  lemma EdgesMirror(
    hosts: seq<R.HostNode>, es: seq<R.EndpointNode>, er: R.EndpointResolvers, j: nat, k: nat, i: Item, i': Item)
    requires R.Parseable(es) && j < |es| && k < |es| && R.Recorded(es[j]) && R.Recorded(es[k])
    requires R.PidMapOk(es, |es|, er.ipPortToIPPID) && R.NetMapOk(hosts, |hosts|, es, |es|, er.networkMap)
    requires LeadsTo(i, es, k) && i.host == es[j].hostName && i.pid == es[j].pid
    requires LeadsTo(i', es, j) && i'.host == es[k].hostName && i'.pid == es[k].pid
    requires es[j].hostName != es[k].hostName
    ensures var e, e' := Edge(i, ResolverOf(er)), Edge(i', ResolverOf(er));
      && |e| == 1 && |e'| == 1
      && e[0].source == e'[0].destination && e[0].destination == e'[0].source
      && e[0].leftPID == e'[0].rightPID && e[0].rightPID == e'[0].leftPID
  {
    EdgeBetweenRecorded(hosts, es, er, k, i);
    EdgeBetweenRecorded(hosts, es, er, j, i');
  }
}
