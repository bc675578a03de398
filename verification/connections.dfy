/**
 The connections derived from a report: for every endpoint and every endpoint it is
 adjacent to, the two hosts are resolved and an edge between them is recorded.  An
 address once found to belong to the endpoint's own host is memoised and skipped for
 the rest of the report.  The resolver is fixed here: it answers the same throughout.
 */
module Connections {
  import opened Identifiers

  const INBOUND := "in-the-internet"
  const OUTBOUND := "out-the-internet"

  // An endpoint as it is reported.
  datatype Reported = Reported(nodeID: string, hostName: string, pid: int, adjacency: seq<string>)

  // The same with its ids taken apart.
  datatype Neighbour = Neighbour(nodeID: string, ip: string, port: string, portNum: int)
  datatype Endpoint = Endpoint(
    nodeID: string, ip: string, portNum: int, hostName: string, pid: int, adjacency: seq<Neighbour>)

  datatype Connection = Connection(
    source: string, destination: string, leftPID: int, rightPID: int, localPort: int,
    leftIP: Option<string>, rightIP: Option<string>)

  // What the two Redis maps answer.
  datatype Resolver = Resolver(hosts: StringMap, pids: StringMap)

  function Lookup(m: StringMap, k: string): Option<string> {
    if k in m then Some(m[k]) else None
  }

  // The ids that are taken apart have both separators; the code panics on others.
  predicate WellFormed(e: Reported) {
    e.adjacency != [] ==>
      && ExtractIPPort(e.nodeID).Some?
      && (ExtractIPPort(e.nodeID).value.0 != LOCALHOST ==> forall a :: a in e.adjacency ==> ExtractIPPort(a).Some?)
  }

  function ParseNeighbour(a: string): Neighbour {
    match ExtractIPPort(a)
    case Some((ip, port)) => Neighbour(a, ip, port, Atoi(port).value)
    case None => Neighbour(a, "", "", 0)
  }

  function Parse(e: Reported): Endpoint
    requires WellFormed(e)
  {
    if e.adjacency == [] then Endpoint(e.nodeID, "", 0, e.hostName, e.pid, [])
    else
      var n := ParseNeighbour(e.nodeID);
      Endpoint(e.nodeID, n.ip, n.portNum, e.hostName, e.pid,
               seq(|e.adjacency|, i requires 0 <= i < |e.adjacency| => ParseNeighbour(e.adjacency[i])))
  }

  // ----- one adjacency at a time -----

  // An endpoint with its host resolved, and one of its neighbours.
  datatype Item = Item(host: string, pid: int, nodeIP: string, localPort: int, ip: string, port: string, portNum: int)

  // The neighbour is on the endpoint's own host.
  predicate Self(i: Item, r: Resolver) { Lookup(r.hosts, i.ip) == Some(i.host) }

  // The edge recorded for a neighbour, if any.
  function Edge(i: Item, r: Resolver): (es: seq<Connection>)
    ensures |es| <= 1 && (Self(i, r) ==> es == [])
  {
    match Lookup(r.hosts, i.ip)
    case None => [Connection(i.host, OUTBOUND, i.pid, 0, i.localPort, None, Some(i.ip))]
    case Some(host) =>
      if i.host == host then []
      else match Lookup(r.pids, ResolverKey(i.ip, i.port))
        case None => []
        case Some(ref) =>
          if i.host == ""
          then [Connection(INBOUND, host, i.pid, ExtractPid(ref), i.portNum, Some(i.nodeIP), None)]
          else [Connection(i.host, host, i.pid, ExtractPid(ref), i.localPort, None, None)]
  }

  // Every edge, with no memoisation.
  function Plain(items: seq<Item>, r: Resolver): seq<Connection> {
    if items == [] then [] else Edge(items[0], r) + Plain(items[1..], r)
  }

  // The edges the code records, having memoised some addresses already.
  function Memoised(items: seq<Item>, memo: set<string>, r: Resolver): seq<Connection> {
    if items == [] then []
    else if items[0].ip in memo then Memoised(items[1..], memo, r)
    else if Self(items[0], r) then Memoised(items[1..], memo + {items[0].ip}, r)
    else Edge(items[0], r) + Memoised(items[1..], memo, r)
  }

  function MemoAfter(items: seq<Item>, memo: set<string>, r: Resolver): set<string> {
    if items == [] then memo
    else MemoAfter(items[1..], if items[0].ip !in memo && Self(items[0], r) then memo + {items[0].ip} else memo, r)
  }

  // ----- from endpoints to items -----

  function HostOf(e: Endpoint, r: Resolver): string {
    if e.hostName == "" && Lookup(r.hosts, e.ip).Some? then Lookup(r.hosts, e.ip).value else e.hostName
  }

  predicate Considered(e: Endpoint) { e.adjacency != [] && e.ip != LOCALHOST }

  function ItemOf(e: Endpoint, a: Neighbour, keep: set<int>, r: Resolver): Item {
    Item(HostOf(e, r), if e.pid in keep then e.pid else -1, e.ip, e.portNum, a.ip, a.port, a.portNum)
  }

  // The items of the first n neighbours of an endpoint.
  function Neighbours(e: Endpoint, n: nat, keep: set<int>, r: Resolver): seq<Item>
    requires n <= |e.adjacency|
  {
    if n == 0 then []
    else Neighbours(e, n - 1, keep, r)
         + if e.adjacency[n - 1].nodeID == e.nodeID then [] else [ItemOf(e, e.adjacency[n - 1], keep, r)]
  }

  // The items of the first n endpoints of a report.
  function Items(es: seq<Endpoint>, n: nat, keep: set<int>, r: Resolver): seq<Item>
    requires n <= |es|
  {
    if n == 0 then []
    else Items(es, n - 1, keep, r)
         + if Considered(es[n - 1]) then Neighbours(es[n - 1], |es[n - 1].adjacency|, keep, r) else []
  }

  lemma {:induction false} MemoisedAppend(a: seq<Item>, b: seq<Item>, memo: set<string>, r: Resolver)
    ensures Memoised(a + b, memo, r) == Memoised(a, memo, r) + Memoised(b, MemoAfter(a, memo, r), r)
    ensures MemoAfter(a + b, memo, r) == MemoAfter(b, MemoAfter(a, memo, r), r)
  {
    if a == [] {
      assert a + b == b;
    } else {
      assert (a + b)[1..] == a[1..] + b;
      MemoisedAppend(a[1..], b, if a[0].ip !in memo && Self(a[0], r) then memo + {a[0].ip} else memo, r);
    }
  }

  lemma MemoisedSnoc(items: seq<Item>, i: Item, memo: set<string>, r: Resolver)
    ensures var m := MemoAfter(items, memo, r);
      && Memoised(items + [i], memo, r) == Memoised(items, memo, r) + (if i.ip in m then [] else Edge(i, r))
      && MemoAfter(items + [i], memo, r) == if i.ip !in m && Self(i, r) then m + {i.ip} else m
  {
    MemoisedAppend(items, [i], memo, r);
    var m := MemoAfter(items, memo, r);
    assert [i][1..] == [];
    assert Memoised([i], m, r) == if i.ip in m then [] else Edge(i, r);
  }

  // The state of the loop: the connections recorded and the addresses memoised.
  datatype Progress = Progress(connections: seq<Connection>, memo: set<string>)

  function Visited(p: Progress, i: Item, r: Resolver): Progress {
    if i.ip in p.memo then p
    else if Self(i, r) then p.(memo := p.memo + {i.ip})
    else p.(connections := p.connections + Edge(i, r))
  }

  function VisitedUpTo(e: Endpoint, n: nat, keep: set<int>, r: Resolver, memo: set<string>): Progress
    requires n <= |e.adjacency|
  {
    if n == 0 then Progress([], memo)
    else
      var p := VisitedUpTo(e, n - 1, keep, r, memo);
      if e.adjacency[n - 1].nodeID == e.nodeID then p else Visited(p, ItemOf(e, e.adjacency[n - 1], keep, r), r)
  }

  lemma {:induction false} VisitedIsMemoised(e: Endpoint, n: nat, keep: set<int>, r: Resolver, memo: set<string>)
    requires n <= |e.adjacency|
    ensures var items := Neighbours(e, n, keep, r);
      VisitedUpTo(e, n, keep, r, memo) == Progress(Memoised(items, memo, r), MemoAfter(items, memo, r))
  {
    if n > 0 {
      VisitedIsMemoised(e, n - 1, keep, r, memo);
      var before := Neighbours(e, n - 1, keep, r);
      if e.adjacency[n - 1].nodeID == e.nodeID {
        assert Neighbours(e, n, keep, r) == before;
      } else {
        MemoisedSnoc(before, ItemOf(e, e.adjacency[n - 1], keep, r), memo, r);
      }
    }
  }

  // The inner loop: one endpoint's neighbours, with the addresses memoised so far.
  method DeriveNeighbours(e: Endpoint, keep: set<int>, r: Resolver, memo: set<string>)
    returns (connections: seq<Connection>, localMemoization: set<string>)
    ensures connections == Memoised(Neighbours(e, |e.adjacency|, keep, r), memo, r)
    ensures localMemoization == MemoAfter(Neighbours(e, |e.adjacency|, keep, r), memo, r)
  {
    connections, localMemoization := [], memo;
    for n := 0 to |e.adjacency|
      invariant Progress(connections, localMemoization) == VisitedUpTo(e, n, keep, r, memo)
    {
      var a := e.adjacency[n];
      if e.nodeID != a.nodeID {
        var i := ItemOf(e, a, keep, r);
        if i.ip in localMemoization {
          continue;
        }
        if Self(i, r) {
          localMemoization := localMemoization + {i.ip};
          continue;
        }
        connections := connections + Edge(i, r);
      }
    }
    VisitedIsMemoised(e, |e.adjacency|, keep, r, memo);
  }

  // The outer loop, over the endpoints of a report.
  method DeriveAll(es: seq<Endpoint>, keep: set<int>, r: Resolver) returns (connections: seq<Connection>)
    ensures connections == Memoised(Items(es, |es|, keep, r), {}, r)
  {
    connections := [];
    var localMemoization: set<string> := {};
    for k := 0 to |es|
      invariant connections == Memoised(Items(es, k, keep, r), {}, r)
      invariant localMemoization == MemoAfter(Items(es, k, keep, r), {}, r)
    {
      var e := es[k];
      if Considered(e) {
        MemoisedAppend(Items(es, k, keep, r), Neighbours(e, |e.adjacency|, keep, r), {}, r);
        var more;
        more, localMemoization := DeriveNeighbours(e, keep, r, localMemoization);
        connections := connections + more;
      } else {
        assert Items(es, k + 1, keep, r) == Items(es, k, keep, r);
      }
    }
  }

  function ParseAll(es: seq<Reported>): seq<Endpoint>
    requires forall e :: e in es ==> WellFormed(e)
  {
    seq(|es|, i requires 0 <= i < |es| => Parse(es[i]))
  }

  function ItemsOf(es: seq<Reported>, keep: set<int>, r: Resolver): seq<Item>
    requires forall e :: e in es ==> WellFormed(e)
  {
    Items(ParseAll(es), |es|, keep, r)
  }

  /**
   The connections of a report: exactly the memoised edges of its adjacencies, in order;
   compared with no memoisation only edges are left out, and none exactly when no
   address found on one endpoint's own host is an edge of a later endpoint; the connections
   to the outside are those of all adjacencies whose address no host has, in order.
   */
  method DeriveConnections(es: seq<Reported>, keep: set<int>, r: Resolver) returns (connections: seq<Connection>)
    requires forall e :: e in es ==> WellFormed(e)
    ensures connections == Memoised(ItemsOf(es, keep, r), {}, r)
    ensures Subsequence(connections, Plain(ItemsOf(es, keep, r), r))
    ensures connections == Plain(ItemsOf(es, keep, r), r) <==> NoEdgeLost(ItemsOf(es, keep, r), r)
    ensures ToOutside(connections) == Unknown(ItemsOf(es, keep, r), r)
  {
    connections := DeriveAll(ParseAll(es), keep, r);
    MemoisedIsSubsequence(ItemsOf(es, keep, r), {}, r);
    LosslessExactly(ItemsOf(es, keep, r), r);
    OutboundKept(ItemsOf(es, keep, r), {}, r);
  }

  // ----- connections to the outside -----

  // The connections that carry the address of their far end.
  function ToOutside(cs: seq<Connection>): seq<Connection> {
    if cs == [] then [] else (if cs[0].rightIP.Some? then [cs[0]] else []) + ToOutside(cs[1..])
  }

  // The connection to an address outside.
  function Leaving(i: Item): Connection {
    Connection(i.host, "out-the-internet", i.pid, 0, i.localPort, None, Some(i.ip))
  }

  // The connections of the adjacencies whose address no host has.
  function Unknown(items: seq<Item>, r: Resolver): seq<Connection> {
    if items == [] then []
    else (if items[0].ip !in r.hosts then [Leaving(items[0])] else []) + Unknown(items[1..], r)
  }

  lemma ToOutsideAppend(a: seq<Connection>, b: seq<Connection>)
    requires |a| <= 1
    ensures ToOutside(a + b) == ToOutside(a) + ToOutside(b)
  {
    if a == [] {
      assert a + b == b;
    } else {
      assert (a + b)[1..] == b && a[1..] == [];
    }
  }

  lemma EdgeToOutside(i: Item, r: Resolver)
    ensures ToOutside(Edge(i, r)) == Unknown([i], r)
  {
    assert [i][1..] == [];
    var es := Edge(i, r);
    if es != [] { assert es[1..] == []; }
  }

  // Memoisation loses no connection to the outside: an address that no host has is never memoised.
  lemma {:induction false} OutboundKept(items: seq<Item>, memo: set<string>, r: Resolver)
    requires memo <= r.hosts.Keys
    ensures ToOutside(Memoised(items, memo, r)) == Unknown(items, r)
  {
    if items != [] {
      var i, rest := items[0], items[1..];
      if i.ip in memo {
        OutboundKept(rest, memo, r);
      } else if Self(i, r) {
        OutboundKept(rest, memo + {i.ip}, r);
      } else {
        OutboundKept(rest, memo, r);
        EdgeToOutside(i, r);
        ToOutsideAppend(Edge(i, r), Memoised(rest, memo, r));
        assert [i][1..] == [] && Unknown([i], r) == Unknown([i], r) + Unknown([], r);
      }
    }
  }

  lemma {:induction false} UnknownHas(items: seq<Item>, r: Resolver, i: Item)
    requires i in items && i.ip !in r.hosts
    ensures Leaving(i) in Unknown(items, r)
  {
    if items[0] != i { UnknownHas(items[1..], r, i); }
  }

  lemma {:induction false} NeighboursHas(e: Endpoint, n: nat, j: nat, keep: set<int>, r: Resolver)
    requires j < n <= |e.adjacency| && e.adjacency[j].nodeID != e.nodeID
    ensures ItemOf(e, e.adjacency[j], keep, r) in Neighbours(e, n, keep, r)
  {
    if j < n - 1 { NeighboursHas(e, n - 1, j, keep, r); }
  }

  lemma {:induction false} ItemsHas(es: seq<Endpoint>, n: nat, k: nat, j: nat, keep: set<int>, r: Resolver)
    requires k < n <= |es| && Considered(es[k]) && j < |es[k].adjacency| && es[k].adjacency[j].nodeID != es[k].nodeID
    ensures ItemOf(es[k], es[k].adjacency[j], keep, r) in Items(es, n, keep, r)
  {
    if k < n - 1 {
      ItemsHas(es, n - 1, k, j, keep, r);
    } else {
      NeighboursHas(es[k], |es[k].adjacency|, j, keep, r);
    }
  }

  /**
   Every adjacency of a reported endpoint to an address that no host has is recorded, with the
   endpoint's host, resolved if it was not reported, its pid if that is kept, its own port and
   the address.
   */
  lemma OutboundRecorded(es: seq<Reported>, k: nat, j: nat, keep: set<int>, r: Resolver)
    requires (forall e :: e in es ==> WellFormed(e)) && k < |es| && j < |es[k].adjacency|
    requires es[k].adjacency[j] != es[k].nodeID
    requires var own, other := ExtractIPPort(es[k].nodeID), ExtractIPPort(es[k].adjacency[j]);
      own.Some? && other.Some? && own.value.0 != LOCALHOST && other.value.0 !in r.hosts
    ensures var own, other := ExtractIPPort(es[k].nodeID).value, ExtractIPPort(es[k].adjacency[j]).value;
      var host :=
        if es[k].hostName != "" then es[k].hostName else if own.0 in r.hosts then r.hosts[own.0] else "";
      Connection(host, "out-the-internet", if es[k].pid in keep then es[k].pid else -1, 0,
                 Atoi(own.1).value, None, Some(other.0)) in Unknown(ItemsOf(es, keep, r), r)
  {
    assert es[k] in es;
    var parsed := ParseAll(es);
    ItemsHas(parsed, |es|, k, j, keep, r);
    UnknownHas(ItemsOf(es, keep, r), r, ItemOf(parsed[k], parsed[k].adjacency[j], keep, r));
  }

  // The connection is one of the adjacency's, to another host and a known process there.
  predicate Between(i: Item, r: Resolver, c: Connection) {
    && i.ip in r.hosts && r.hosts[i.ip] == c.destination != i.host
    && ResolverKey(i.ip, i.port) in r.pids && c.rightPID == ExtractPid(r.pids[ResolverKey(i.ip, i.port)])
    && c.leftPID == i.pid && (c.source == i.host || (i.host == "" && c.source == "in-the-internet"))
  }

  /**
   No other connections: one that does not lead outside comes from an adjacency to a host other
   than its own, whose process is known, and carries that host and the process's pid.
   */
  lemma {:induction false} InsideExactly(items: seq<Item>, r: Resolver, c: Connection)
    requires c in Plain(items, r) && c.rightIP == None
    ensures exists i :: i in items && Between(i, r, c)
  {
    var i := items[0];
    if c in Edge(i, r) {
      assert i in items && Between(i, r, c);
    } else {
      InsideExactly(items[1..], r, c);
    }
  }

  // Endpoints on the local address give no connections.
  lemma {:induction false} LocalSkipped(es: seq<Endpoint>, n: nat, keep: set<int>, r: Resolver)
    requires n <= |es| && forall e :: e in es ==> e.ip == "127.0.0.1"
    ensures Items(es, n, keep, r) == []
  {
    if n > 0 {
      assert es[n - 1] in es;
      LocalSkipped(es, n - 1, keep, r);
    }
  }

  // ----- memoisation against no memoisation -----

  // `a` is `b` with some elements left out.
  ghost predicate Subsequence<T>(a: seq<T>, b: seq<T>) {
    a == [] || (b != [] && ((a[0] == b[0] && Subsequence(a[1..], b[1..])) || Subsequence(a, b[1..])))
  }

  lemma {:induction false} SubsequenceShorter<T>(a: seq<T>, b: seq<T>)
    requires Subsequence(a, b)
    ensures |a| <= |b|
  {
    if a != [] {
      if a[0] == b[0] && Subsequence(a[1..], b[1..]) {
        SubsequenceShorter(a[1..], b[1..]);
      } else {
        SubsequenceShorter(a, b[1..]);
      }
    }
  }

  lemma {:induction false} SubsequenceExtend<T>(x: seq<T>, a: seq<T>, b: seq<T>)
    requires Subsequence(a, b) && |x| <= 1
    ensures Subsequence(a, x + b) && Subsequence(x + a, x + b)
  {
    if x == [] {
      assert x + a == a && x + b == b;
    } else {
      assert (x + a)[1..] == a && (x + b)[1..] == b;
    }
  }

  // Memoisation only leaves edges out, and keeps the order of the others.
  lemma {:induction false} MemoisedIsSubsequence(items: seq<Item>, memo: set<string>, r: Resolver)
    ensures Subsequence(Memoised(items, memo, r), Plain(items, r))
  {
    if items != [] {
      var h := items[0];
      if h.ip in memo {
        MemoisedIsSubsequence(items[1..], memo, r);
        SubsequenceExtend(Edge(h, r), Memoised(items[1..], memo, r), Plain(items[1..], r));
      } else if Self(h, r) {
        MemoisedIsSubsequence(items[1..], memo + {h.ip}, r);
        SubsequenceExtend(Edge(h, r), Memoised(items[1..], memo + {h.ip}, r), Plain(items[1..], r));
      } else {
        MemoisedIsSubsequence(items[1..], memo, r);
        SubsequenceExtend(Edge(h, r), Memoised(items[1..], memo, r), Plain(items[1..], r));
      }
    }
  }

  // An address was found on the own host of an earlier endpoint, and a later one has an edge to it.
  predicate Loses(items: seq<Item>, p: int, q: int, r: Resolver)
    requires 0 <= p < q < |items|
  {
    Self(items[p], r) && items[p].ip == items[q].ip && Edge(items[q], r) != []
  }

  ghost predicate NoEdgeLost(items: seq<Item>, r: Resolver) {
    forall p, q :: 0 <= p < q < |items| ==> !Loses(items, p, q, r)
  }

  ghost predicate NoneMemoised(items: seq<Item>, memo: set<string>, r: Resolver) {
    forall q :: 0 <= q < |items| && items[q].ip in memo ==> Edge(items[q], r) == []
  }

  lemma TailConditions(items: seq<Item>, memo: set<string>, r: Resolver)
    requires items != []
    ensures var h, rest := items[0], items[1..];
      NoneMemoised(items, memo, r) && NoEdgeLost(items, r) <==>
        && (h.ip in memo ==> Edge(h, r) == [])
        && NoneMemoised(rest, if Self(h, r) then memo + {h.ip} else memo, r) && NoEdgeLost(rest, r)
  {
    var h, rest := items[0], items[1..];
    var memo' := if Self(h, r) then memo + {h.ip} else memo;
    if NoneMemoised(items, memo, r) && NoEdgeLost(items, r) {
      forall q | 0 <= q < |rest| && rest[q].ip in memo' ensures Edge(rest[q], r) == [] {
        assert rest[q] == items[q + 1];
        assert !Loses(items, 0, q + 1, r);
      }
      forall p, q | 0 <= p < q < |rest| ensures !Loses(rest, p, q, r) {
        assert !Loses(items, p + 1, q + 1, r);
      }
    }
    if (h.ip in memo ==> Edge(h, r) == []) && NoneMemoised(rest, memo', r) && NoEdgeLost(rest, r) {
      forall q | 0 <= q < |items| && items[q].ip in memo ensures Edge(items[q], r) == [] {
        if q > 0 { assert items[q] == rest[q - 1]; }
      }
      forall p, q | 0 <= p < q < |items| ensures !Loses(items, p, q, r) {
        assert items[q] == rest[q - 1];
        if p > 0 { assert !Loses(rest, p - 1, q - 1, r); }
      }
    }
  }

  lemma {:induction false} LosslessFrom(items: seq<Item>, memo: set<string>, r: Resolver)
    ensures Memoised(items, memo, r) == Plain(items, r) <==> NoneMemoised(items, memo, r) && NoEdgeLost(items, r)
  {
    if items != [] {
      var h, rest := items[0], items[1..];
      var memo' := if Self(h, r) then memo + {h.ip} else memo;
      TailConditions(items, memo, r);
      if h.ip in memo {
        assert memo' == memo;
        LosslessFrom(rest, memo, r);
        MemoisedIsSubsequence(rest, memo, r);
        SubsequenceShorter(Memoised(rest, memo, r), Plain(rest, r));
      } else {
        LosslessFrom(rest, memo', r);
        var e, m, b := Edge(h, r), Memoised(rest, memo', r), Plain(rest, r);
        assert (e + m)[|e|..] == m && (e + b)[|e|..] == b;
      }
    }
  }

  /**
   Exactly when memoisation loses nothing: no address found on the own host of one
   endpoint is an edge of a later one.
   */
  lemma LosslessExactly(items: seq<Item>, r: Resolver)
    ensures Memoised(items, {}, r) == Plain(items, r) <==> NoEdgeLost(items, r)
  {
    LosslessFrom(items, {}, r);
  }

  lemma {:induction false} NeighboursHost(e: Endpoint, n: nat, keep: set<int>, r: Resolver)
    requires n <= |e.adjacency|
    ensures forall i :: i in Neighbours(e, n, keep, r) ==> i.host == HostOf(e, r)
  {
    if n > 0 { NeighboursHost(e, n - 1, keep, r); }
  }

  predicate OneHost(es: seq<Endpoint>, host: string, r: Resolver) {
    forall e :: e in es && Considered(e) ==> HostOf(e, r) == host
  }

  lemma {:induction false} ItemsHost(es: seq<Endpoint>, n: nat, host: string, keep: set<int>, r: Resolver)
    requires n <= |es| && OneHost(es, host, r)
    ensures forall i :: i in Items(es, n, keep, r) ==> i.host == host
  {
    if n > 0 {
      ItemsHost(es, n - 1, host, keep, r);
      var e := es[n - 1];
      assert e in es;
      if Considered(e) { NeighboursHost(e, |e.adjacency|, keep, r); }
    }
  }

  // A report whose endpoints all resolve to one host keeps every edge.
  lemma OneHostLosesNothing(es: seq<Endpoint>, host: string, keep: set<int>, r: Resolver)
    requires OneHost(es, host, r)
    ensures Memoised(Items(es, |es|, keep, r), {}, r) == Plain(Items(es, |es|, keep, r), r)
  {
    var items := Items(es, |es|, keep, r);
    ItemsHost(es, |es|, host, keep, r);
    forall p, q | 0 <= p < q < |items| ensures !Loses(items, p, q, r) {
      assert items[p] in items && items[q] in items;
    }
    LosslessExactly(items, r);
  }

  lemma PairDropped(i: Item, i': Item, r: Resolver)
    requires Self(i, r) && i.ip == i'.ip && Edge(i', r) != []
    ensures Memoised([i, i'], {}, r) == [] && Plain([i, i'], r) == Edge(i', r)
  {
    assert [i, i'][1..] == [i'] && [i'][1..] == [];
    assert Memoised([i'], {} + {i.ip}, r) == Memoised([], {} + {i.ip}, r);
    assert Plain([i'], r) == Edge(i', r) + Plain([], r);
  }

  lemma TwoItems(e: Endpoint, e': Endpoint, a: Neighbour, keep: set<int>, r: Resolver)
    requires e.adjacency == [a] && e'.adjacency == [a]
    requires Considered(e) && Considered(e') && a.nodeID != e.nodeID && a.nodeID != e'.nodeID
    ensures Items([e, e'], 2, keep, r) == [ItemOf(e, a, keep, r), ItemOf(e', a, keep, r)]
  {
    var es := [e, e'];
    assert Neighbours(e, 1, keep, r) == Neighbours(e, 0, keep, r) + [ItemOf(e, a, keep, r)];
    assert Neighbours(e', 1, keep, r) == Neighbours(e', 0, keep, r) + [ItemOf(e', a, keep, r)];
    assert Items(es, 1, keep, r) == Items(es, 0, keep, r) + Neighbours(e, 1, keep, r);
    assert Items(es, 2, keep, r) == Items(es, 1, keep, r) + Neighbours(e', 1, keep, r);
  }

  // The two endpoints have the same neighbour, whose process is known and whose host is the first one's only.
  predicate SharedNeighbour(e: Endpoint, e': Endpoint, a: Neighbour, r: Resolver) {
    && e.adjacency == [a] && e'.adjacency == [a] && a.nodeID != e.nodeID && a.nodeID != e'.nodeID
    && Considered(e) && Considered(e')
    && Lookup(r.hosts, a.ip) == Some(HostOf(e, r)) && HostOf(e', r) != HostOf(e, r)
    && Lookup(r.pids, ResolverKey(a.ip, a.port)).Some?
  }

  /**
   Two hosts in one report lose an edge: the first endpoint sits on the neighbour's host, the
   second elsewhere, and the second's edge, whatever it is, is not recorded.
   */
  lemma EdgeDropped(e: Endpoint, e': Endpoint, a: Neighbour, keep: set<int>, r: Resolver)
    requires SharedNeighbour(e, e', a, r)
    ensures Memoised(Items([e, e'], 2, keep, r), {}, r) == []
    ensures Plain(Items([e, e'], 2, keep, r), r) == Edge(ItemOf(e', a, keep, r), r) != []
  {
    TwoItems(e, e', a, keep, r);
    PairDropped(ItemOf(e, a, keep, r), ItemOf(e', a, keep, r), r);
  }

  // In particular an inbound edge, from an address outside to the first endpoint's host.
  lemma InboundEdgeDropped(e: Endpoint, e': Endpoint, a: Neighbour, keep: set<int>, r: Resolver)
    requires SharedNeighbour(e, e', a, r) && e'.hostName == "" && Lookup(r.hosts, e'.ip) == None
    ensures Memoised(Items([e, e'], 2, keep, r), {}, r) == []
    ensures var lost := Plain(Items([e, e'], 2, keep, r), r);
      lost == [Connection("in-the-internet", HostOf(e, r), if e'.pid in keep then e'.pid else -1,
                          ExtractPid(r.pids[ResolverKey(a.ip, a.port)]), a.portNum, Some(e'.ip), None)]
  {
    EdgeDropped(e, e', a, keep, r);
  }
}
