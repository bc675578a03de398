/**
 Admission of scans: which requests become scans in the graph store, and the invariant that
 the guard against a second scan of the same resource keeps.

 A transaction is one step.  `Single` on a query result succeeds on exactly one row, so
 two running scans are read by the guard as none; when that happens is the subject of
 `ScanRuns`.  A scan node is identified by its type and id, and merging an
 existing id onto another resource adds an edge to the node that is there.
 */
module ScanAdmission {
  import opened Identifiers

  // ----- data -----

  datatype ResourceType = Host | Container | Image | KubernetesCluster | RegistryAccount | CloudAccount | Pod

  datatype Resource = Resource(kind: ResourceType, nodeID: string)

  datatype Status =
    | Starting | InProgress | Success | Failed | CancelPending | Cancelling | Cancelled | DeletePending

  predicate Terminal(st: Status) { st.Success? || st.Failed? || st.Cancelled? }

  // A node id and the second the scan was requested in; the text form is injective (Identifiers.ScanIDInjective).
  datatype ScanRef = ScanRef(nodeID: string, seconds: int)

  datatype Key = Key(scanType: string, id: ScanRef)

  datatype Scan = Scan(status: Status, retries: int, isPriority: bool, targets: set<Resource>)

  datatype NodeInfo = NodeInfo(isSystem: Option<bool>, agentRunning: Option<bool>)

  datatype Graph = Graph(
    nodes: map<Resource, NodeInfo>,
    scans: map<Key, Scan>,
    latest: map<(string, Resource), ScanRef>)     // the latest scan id of a resource, per scan type

  datatype Error =
    | NodeNotFound | SystemScan | AlreadyRunning(id: ScanRef) | AgentNotInstalled | BuildFailed | CommitFailed

  datatype Result<T> = Ok(value: T) | Err(error: Error)

  // ----- one scan -----

  predicate Active(g: Graph, k: Key, scanType: string, r: Resource) {
    k in g.scans && k.scanType == scanType && r in g.scans[k].targets && !Terminal(g.scans[k].status)
  }

  // The rows of the guard query.
  function Rows(g: Graph, scanType: string, r: Resource): set<Key> {
    set k | k in g.scans && Active(g, k, scanType, r)
  }

  // Some row's id; the guard only asks for it when there is exactly one.
  function IdOf(rows: set<Key>): ScanRef
    requires |rows| == 1
  {
    SingleRow(rows);
    var k :| k in rows && rows == {k}; k.id
  }

  lemma SingleRow<T>(rows: set<T>)
    requires |rows| == 1
    ensures exists k :: k in rows && rows == {k}
  {
    assert rows != {};
    var k :| k in rows;
    assert |rows - {k}| == 0;
    assert rows == {k};
  }

  // The writes: merge the scan node and its edge, reset it, and point the resource at it.
  function Written(g: Graph, k: Key, r: Resource, isPriority: bool): Graph {
    var targets := if k in g.scans then g.scans[k].targets else {};
    g.(scans := g.scans[k := Scan(Starting, 0, isPriority, targets + {r})],
       latest := g.latest[(k.scanType, r) := k.id])
  }

  function AddNewScan(g: Graph, scanType: string, r: Resource, seconds: int, isPriority: bool, systemScan: bool)
    : Result<Graph>
  {
    if r !in g.nodes then Err(NodeNotFound)
    else if !systemScan && g.nodes[r].isSystem == Some(true) then Err(SystemScan)
    else if |Rows(g, scanType, r)| == 1 then
      SingleRow(Rows(g, scanType, r));
      Err(AlreadyRunning(IdOf(Rows(g, scanType, r))))
    else if (r.kind.Host? || r.kind.KubernetesCluster?) && g.nodes[r].agentRunning == Some(false) then
      Err(AgentNotInstalled)
    else Ok(Written(g, Key(scanType, ScanRef(r.nodeID, seconds)), r, isPriority))
  }

  // ----- one request for many scans -----

  // A requested node, the second its scan id is made in, and whether its action can be built.
  datatype Request = Request(r: Resource, seconds: int, builds: bool)

  datatype Batch = Batch(scanType: string, isPriority: bool, systemScan: bool, requests: seq<Request>)

  // The graph and the scan ids after the first n requests.
  datatype Progress = Progress(g: Graph, ids: seq<ScanRef>)

  function Added(g: Graph, b: Batch, n: nat): Result<Progress>
    requires n <= |b.requests|
  {
    if n == 0 then Ok(Progress(g, []))
    else
      match Added(g, b, n - 1)
      case Err(e) => Err(e)
      case Ok(p) => AddOne(p, b, b.requests[n - 1])
  }

  function AddOne(p: Progress, b: Batch, q: Request): Result<Progress> {
    if q.r.kind.Pod? then Ok(p)
    else if !q.builds then Err(BuildFailed)
    else
      match AddNewScan(p.g, b.scanType, q.r, q.seconds, b.isPriority, b.systemScan)
      case Ok(g') => Ok(Progress(g', p.ids + [ScanRef(q.r.nodeID, q.seconds)]))
      case Err(AlreadyRunning(id)) => Ok(p.(ids := p.ids + [id]))
      case Err(AgentNotInstalled) => Ok(p)
      case Err(SystemScan) => Ok(p)
      case Err(e) => Err(e)
  }

  // The committed graph: nothing is written on an error, without a scan, or if the commit fails.
  function Committed(g: Graph, b: Batch, commits: bool): Graph {
    var r := Added(g, b, |b.requests|);
    if r.Ok? && r.value.ids != [] && commits then r.value.g else g
  }

  class GraphStore {
    var graph: Graph

    constructor (g: Graph)
      ensures graph == g
    {
      graph := g;
    }

    // StartMultiScan: one transaction over a working copy of the graph.
    method StartMultiScan(b: Batch, commits: bool) returns (ids: Result<seq<ScanRef>>)
      modifies this
      ensures graph == Committed(old(graph), b, commits)
      ensures var r := Added(old(graph), b, |b.requests|);
        && (ids.Err? <==> r.Err? || (r.value.ids != [] && !commits))
        && (ids.Ok? ==> ids.value == r.value.ids)
      ensures ids.Err? || ids.value == [] ==> graph == old(graph)
    {
      var tx := graph;
      var scanIds: seq<ScanRef> := [];
      for n := 0 to |b.requests|
        invariant graph == old(graph)
        invariant Added(old(graph), b, n) == Ok(Progress(tx, scanIds))
      {
        var q := b.requests[n];
        if !q.r.kind.Pod? {
          if !q.builds {
            ErrPersists(old(graph), b, n + 1, |b.requests|);
            return Err(BuildFailed);
          }
          match AddNewScan(tx, b.scanType, q.r, q.seconds, b.isPriority, b.systemScan) {
            case Ok(g') =>
              tx := g';
              scanIds := scanIds + [ScanRef(q.r.nodeID, q.seconds)];
            case Err(e) =>
              if e.AlreadyRunning? {
                scanIds := scanIds + [e.id];
              } else if !e.AgentNotInstalled? && !e.SystemScan? {
                ErrPersists(old(graph), b, n + 1, |b.requests|);
                return Err(e);
              }
          }
        }
      }
      if scanIds == [] { return Ok([]); }
      if !commits { return Err(CommitFailed); }
      graph := tx;
      return Ok(scanIds);
    }
  }

  lemma {:induction false} ErrPersists(g: Graph, b: Batch, n: nat, m: nat)
    requires n <= m <= |b.requests| && Added(g, b, n).Err?
    ensures Added(g, b, m).Err?
  {
    if n < m { ErrPersists(g, b, n, m - 1); }
  }

  // ----- the invariant -----

  // Two scans of one type share a resource.
  predicate Rivals(g: Graph, k: Key, k': Key, r: Resource) {
    k.scanType == k'.scanType && Scanned(g, k, r) && Scanned(g, k', r)
  }

  predicate Scanned(g: Graph, k: Key, r: Resource) { k in g.scans && r in g.scans[k].targets }

  // A scan's id is made from its resources' node id, no later than now.
  ghost predicate Dated(g: Graph, now: int) {
    forall k, r :: Scanned(g, k, r) ==> r.nodeID == k.id.nodeID && k.id.seconds <= now
  }

  // A running scan is the newest of its type on each of its resources.
  ghost predicate RunningIsNewest(g: Graph) {
    forall k, k', r :: Rivals(g, k, k', r) && !Terminal(g.scans[k].status) ==>
      k'.id.seconds <= k.id.seconds
  }

  ghost predicate Inv(g: Graph, now: int) { Dated(g, now) && RunningIsNewest(g) }

  predicate PointsAtNewer(g: Graph, k: Key, r: Resource) {
    && (k.scanType, r) in g.latest
    && var l := Key(k.scanType, g.latest[(k.scanType, r)]);
       Scanned(g, l, r) && k.id.seconds <= l.id.seconds
  }

  // A scanned resource points at its newest scan.
  ghost predicate LatestIsNewest(g: Graph) {
    forall k, r :: Scanned(g, k, r) ==> PointsAtNewer(g, k, r)
  }

  lemma AtMostOneActive(g: Graph, now: int, k: Key, k': Key, scanType: string, r: Resource)
    requires Inv(g, now) && Active(g, k, scanType, r) && Active(g, k', scanType, r)
    ensures k == k'
  {
    assert Rivals(g, k, k', r) && Rivals(g, k', k, r);
  }

  lemma RowsAtMostOne(g: Graph, now: int, scanType: string, r: Resource)
    requires Inv(g, now)
    ensures |Rows(g, scanType, r)| <= 1
  {
    var rows := Rows(g, scanType, r);
    if k :| k in rows {
      forall k' | k' in rows ensures k' == k { AtMostOneActive(g, now, k, k', scanType, r); }
      assert rows == {k};
    }
  }

  lemma WrittenDated(g: Graph, now: int, k: Key, r: Resource, isPriority: bool)
    requires Dated(g, now) && r.nodeID == k.id.nodeID && now <= k.id.seconds
    ensures Dated(Written(g, k, r, isPriority), k.id.seconds)
  {
  }

  // A running scan other than the written one shares no resource with it.
  lemma NoRunningRival(g: Graph, now: int, k: Key, r: Resource, isPriority: bool, a: Key, r': Resource)
    requires Inv(g, now) && r.nodeID == k.id.nodeID && now <= k.id.seconds && Rows(g, k.scanType, r) == {}
    requires a in g.scans && a != k && !Terminal(g.scans[a].status)
    ensures !Rivals(Written(g, k, r, isPriority), a, k, r')
  {
    assert a !in Rows(g, k.scanType, r);
    assert Scanned(g, a, r') ==> a.id.seconds <= now && a.id.nodeID == r'.nodeID;
    assert Scanned(g, k, r') ==> k.id.seconds <= now && k.id.nodeID == r'.nodeID;
    assert !Rivals(g, a, k, r');
  }

  lemma WrittenRunning(g: Graph, now: int, k: Key, r: Resource, isPriority: bool)
    requires Inv(g, now) && r.nodeID == k.id.nodeID && now <= k.id.seconds && Rows(g, k.scanType, r) == {}
    ensures RunningIsNewest(Written(g, k, r, isPriority))
  {
    var g' := Written(g, k, r, isPriority);
    WrittenDated(g, now, k, r, isPriority);
    forall a, b, r' | Rivals(g', a, b, r') && !Terminal(g'.scans[a].status)
      ensures b.id.seconds <= a.id.seconds
    {
      if a == k {
        assert Scanned(g', b, r');
      } else if b == k {
        NoRunningRival(g, now, k, r, isPriority, a, r');
      } else {
        assert Rivals(g, a, b, r');
      }
    }
  }

  lemma WrittenLatest(g: Graph, now: int, k: Key, r: Resource, isPriority: bool)
    requires Inv(g, now) && LatestIsNewest(g) && r.nodeID == k.id.nodeID && now <= k.id.seconds
    ensures LatestIsNewest(Written(g, k, r, isPriority))
  {
    var g' := Written(g, k, r, isPriority);
    WrittenDated(g, now, k, r, isPriority);
    forall a, r' | Scanned(g', a, r') ensures PointsAtNewer(g', a, r') {
      if a.scanType != k.scanType || r' != r {
        assert PointsAtNewer(g, a, r');
        assert Scanned(g', Key(a.scanType, g.latest[(a.scanType, r')]), r');
      } else {
        assert Scanned(g', k, r);
      }
    }
  }

  lemma AddInv(g: Graph, now: int, scanType: string, r: Resource, seconds: int, isPriority: bool, systemScan: bool)
    requires Inv(g, now) && now <= seconds
    ensures var res := AddNewScan(g, scanType, r, seconds, isPriority, systemScan);
      res.Ok? ==> Inv(res.value, seconds) && (LatestIsNewest(g) ==> LatestIsNewest(res.value))
  {
    var k := Key(scanType, ScanRef(r.nodeID, seconds));
    RowsAtMostOne(g, now, scanType, r);
    if |Rows(g, scanType, r)| == 0 {
      assert Rows(g, scanType, r) == {};
      WrittenDated(g, now, k, r, isPriority);
      WrittenRunning(g, now, k, r, isPriority);
      if LatestIsNewest(g) { WrittenLatest(g, now, k, r, isPriority); }
    }
  }

  predicate StatusesKept(g: Graph, h: Graph) {
    forall k :: k in g.scans ==> k in h.scans && h.scans[k].status == g.scans[k].status
  }

  /**
   Which requests are admitted, in a graph that satisfies the invariant: those for a known
   resource, not a system one unless asked for, with no running scan of the type and
   with an agent where one is needed.  A refusal for a running scan names that scan.  An
   admission keeps the status of every scan exactly when none has the new id, made from the same
   node id within the same second, or that one is waiting anyway.
   */
  lemma AdmittedExactly(
    g: Graph, now: int, scanType: string, r: Resource, seconds: int, isPriority: bool, systemScan: bool)
    requires Inv(g, now)
    ensures var res := AddNewScan(g, scanType, r, seconds, isPriority, systemScan);
      var allowed := r in g.nodes && (systemScan || g.nodes[r].isSystem != Some(true));
      && (res.Ok? <==>
            && allowed && (forall k :: !Active(g, k, scanType, r))
            && (r.kind.Host? || r.kind.KubernetesCluster? ==> g.nodes[r].agentRunning != Some(false)))
      && (forall id :: res == Err(AlreadyRunning(id)) <==>
            allowed && exists k :: Active(g, k, scanType, r) && k.id == id)
      && (res.Ok? ==>
            var k := Key(scanType, ScanRef(r.nodeID, seconds));
            && Active(res.value, k, scanType, r) && res.value.scans[k].retries == 0
            && res.value.scans[k].isPriority == isPriority
            && res.value.scans - {k} == g.scans - {k}
            && (StatusesKept(g, res.value) <==> k !in g.scans || g.scans[k].status.Starting?))
  {
    var rows := Rows(g, scanType, r);
    RowsAtMostOne(g, now, scanType, r);
    assert forall k :: k in rows <==> Active(g, k, scanType, r);
    if |rows| == 1 {
      SingleRow(rows);
    } else {
      assert rows == {};
    }
  }

  // The clock does not go back while requests are served.
  predicate InOrder(b: Batch, now: int) {
    && (forall n :: 0 <= n < |b.requests| ==> now <= b.requests[n].seconds)
    && forall n, m :: 0 <= n < m < |b.requests| ==> b.requests[n].seconds <= b.requests[m].seconds
  }

  function Later(b: Batch, n: nat, now: int): int
    requires n <= |b.requests|
  {
    if n == 0 then now else b.requests[n - 1].seconds
  }

  lemma InvLater(g: Graph, now: int, later: int)
    requires Inv(g, now) && now <= later
    ensures Inv(g, later)
  {
  }

  lemma {:induction false} AddedInv(g: Graph, b: Batch, n: nat, now: int)
    requires Inv(g, now) && InOrder(b, now) && n <= |b.requests| && Added(g, b, n).Ok?
    ensures Inv(Added(g, b, n).value.g, Later(b, n, now))
    ensures LatestIsNewest(g) ==> LatestIsNewest(Added(g, b, n).value.g)
  {
    if n > 0 {
      AddedInv(g, b, n - 1, now);
      var p, q := Added(g, b, n - 1).value, b.requests[n - 1];
      AddInv(p.g, Later(b, n - 1, now), b.scanType, q.r, q.seconds, b.isPriority, b.systemScan);
      InvLater(p.g, Later(b, n - 1, now), q.seconds);
    }
  }

  // Completed, failed and cancelled scans do not stand in the way of another; a scan in any other status does.
  lemma StatusBlocksExactly(g: Graph, k: Key, r: Resource, seconds: int, isPriority: bool, systemScan: bool)
    requires k in g.scans && r in g.scans[k].targets && r in g.nodes && g.nodes[r] == NodeInfo(None, None)
    requires forall k' :: k' in g.scans && k' != k ==> k'.scanType != k.scanType || r !in g.scans[k'].targets
    ensures AddNewScan(g, k.scanType, r, seconds, isPriority, systemScan).Ok?
      <==> g.scans[k].status in {Success, Failed, Cancelled}
  {
    var rows := Rows(g, k.scanType, r);
    assert rows == if Active(g, k, k.scanType, r) then {k} else {};
  }

  /**
   When the guard fails, in any graph: beside a running scan a further one is admitted
   exactly when yet another is running, which makes `Single` fail, and nothing else forbids it.
   */
  lemma TwoRunningOpenTheGuard(
    g: Graph, k: Key, scanType: string, r: Resource, seconds: int, isPriority: bool, systemScan: bool)
    requires Active(g, k, scanType, r)
    ensures AddNewScan(g, scanType, r, seconds, isPriority, systemScan).Ok? <==>
      && (exists k' :: k' != k && Active(g, k', scanType, r))
      && r in g.nodes && (systemScan || g.nodes[r].isSystem != Some(true))
      && (r.kind.Host? || r.kind.KubernetesCluster? ==> g.nodes[r].agentRunning != Some(false))
  {
    var rows := Rows(g, scanType, r);
    assert k in rows;
    if k' :| k' != k && Active(g, k', scanType, r) {
      assert {k, k'} <= rows;
      if |rows| == 1 { SingleRow(rows); }
    } else {
      assert rows == {k};
    }
  }
}
