/**
 What a request for many scans answers: which ids it returns, which requests it skips and
 when it fails as a whole.
 */
module ScanBatches {
  import opened Identifiers
  import opened ScanAdmission

  // A request that is not for a pod and names a node that is not there, or whose action cannot be built.
  predicate Breaks(g: Graph, q: Request) { !q.r.kind.Pod? && (!q.builds || q.r !in g.nodes) }

  lemma {:induction false} NodesKept(g: Graph, b: Batch, n: nat)
    requires n <= |b.requests| && Added(g, b, n).Ok?
    ensures Added(g, b, n).value.g.nodes == g.nodes
  {
    if n > 0 { NodesKept(g, b, n - 1); }
  }

  /**
   A batch fails exactly when one of its requests is for a node that is not there or cannot be
   built; a system node, a missing agent or a running scan does not make it fail.
   */
  lemma {:induction false} FailsExactly(g: Graph, b: Batch, n: nat)
    requires n <= |b.requests|
    ensures Added(g, b, n).Err? <==> exists m: nat :: m < n && Breaks(g, b.requests[m])
  {
    if n > 0 {
      FailsExactly(g, b, n - 1);
      if Added(g, b, n - 1).Ok? {
        NodesKept(g, b, n - 1);
        assert Added(g, b, n).Err? <==> Breaks(g, b.requests[n - 1]);
        assert Breaks(g, b.requests[n - 1]) ==> exists m: nat :: m < n && Breaks(g, b.requests[m]);
      } else {
        var m: nat :| m < n - 1 && Breaks(g, b.requests[m]);
        assert m < n && Breaks(g, b.requests[m]);
      }
    }
  }

  // The request's resource is a system one, which was not asked for.
  predicate SystemNode(g: Graph, b: Batch, r: Resource) {
    r in g.nodes && g.nodes[r].isSystem == Some(true) && !b.systemScan
  }

  predicate AgentMissing(g: Graph, r: Resource) {
    r in g.nodes && (r.kind.Host? || r.kind.KubernetesCluster?) && g.nodes[r].agentRunning == Some(false)
  }

  // Nothing is done for the request, and nothing is answered.
  predicate Skipped(g: Graph, b: Batch, q: Request) {
    q.r.kind.Pod? || SystemNode(g, b, q.r) || (AgentMissing(g, q.r) && |Rows(g, b.scanType, q.r)| != 1)
  }

  /**
   The answer to one request of a batch that goes on: nothing is answered and nothing changes
   exactly for pods, system nodes and hosts or clusters without an agent and without a single
   running scan; otherwise one id is appended, and it names a scan that runs on the resource.
   */
  lemma RequestAnswered(g: Graph, b: Batch, n: nat)
    requires n < |b.requests| && Added(g, b, n + 1).Ok?
    ensures var p, p', q := Added(g, b, n).value, Added(g, b, n + 1).value, b.requests[n];
      if Skipped(p.g, b, q) then p' == p
      else
        && |p'.ids| == |p.ids| + 1 && p'.ids[..|p.ids|] == p.ids
        && Active(p'.g, Key(b.scanType, p'.ids[|p.ids|]), b.scanType, q.r)
        && (|Rows(p.g, b.scanType, q.r)| == 1 ==> p'.g == p.g)
        && (|Rows(p.g, b.scanType, q.r)| != 1 ==> p'.ids[|p.ids|] == ScanRef(q.r.nodeID, q.seconds))
  {
    var p, q := Added(g, b, n).value, b.requests[n];
    if |Rows(p.g, b.scanType, q.r)| == 1 { OnlyRowRuns(p.g, b.scanType, q.r); }
  }

  lemma OnlyRowRuns(g: Graph, scanType: string, r: Resource)
    requires |Rows(g, scanType, r)| == 1
    ensures Active(g, Key(scanType, IdOf(Rows(g, scanType, r))), scanType, r)
  {
    var rows := Rows(g, scanType, r);
    SingleRow(rows);
    var k :| k in rows && rows == {k};
    assert k == Key(scanType, IdOf(rows));
  }

  // A running scan keeps running on its resources, whatever a request writes.
  lemma StaysActive(g: Graph, k: Key, r: Resource, isPriority: bool, a: Key, scanType: string, r': Resource)
    requires Active(g, a, scanType, r')
    ensures Active(Written(g, k, r, isPriority), a, scanType, r')
  {
  }

  ghost predicate RunsOnRequested(g: Graph, b: Batch, n: nat, id: ScanRef)
    requires n <= |b.requests|
  {
    exists m: nat :: m < n && Active(g, Key(b.scanType, id), b.scanType, b.requests[m].r)
  }

  lemma RunsLater(g: Graph, g': Graph, b: Batch, n: nat, id: ScanRef)
    requires n < |b.requests| && RunsOnRequested(g, b, n, id)
    requires forall a, r :: Active(g, a, b.scanType, r) ==> Active(g', a, b.scanType, r)
    ensures RunsOnRequested(g', b, n + 1, id)
  {
    var m: nat :| m < n && Active(g, Key(b.scanType, id), b.scanType, b.requests[m].r);
    assert Active(g', Key(b.scanType, id), b.scanType, b.requests[m].r);
  }

  lemma KeepsRunning(g: Graph, b: Batch, n: nat)
    requires n < |b.requests| && Added(g, b, n + 1).Ok?
    ensures forall a, r :: Active(Added(g, b, n).value.g, a, b.scanType, r) ==>
      Active(Added(g, b, n + 1).value.g, a, b.scanType, r)
  {
    var p, p', q := Added(g, b, n).value, Added(g, b, n + 1).value, b.requests[n];
    var k := Key(b.scanType, ScanRef(q.r.nodeID, q.seconds));
    forall a, r | Active(p.g, a, b.scanType, r) ensures Active(p'.g, a, b.scanType, r) {
      StaysActive(p.g, k, q.r, b.isPriority, a, b.scanType, r);
    }
  }

  /**
   The answer to a batch: every id it returns names a scan of the type that runs, once the
   whole batch is written, on a resource that was requested.
   */
  lemma {:induction false} IdsRun(g: Graph, b: Batch, n: nat)
    requires n <= |b.requests| && Added(g, b, n).Ok?
    ensures var p := Added(g, b, n).value; forall id :: id in p.ids ==> RunsOnRequested(p.g, b, n, id)
  {
    if n > 0 {
      IdsRun(g, b, n - 1);
      RequestAnswered(g, b, n - 1);
      KeepsRunning(g, b, n - 1);
      var p, p' := Added(g, b, n - 1).value, Added(g, b, n).value;
      forall id | id in p'.ids ensures RunsOnRequested(p'.g, b, n, id) {
        if id in p.ids {
          RunsLater(p.g, p'.g, b, n - 1, id);
        } else {
          assert p'.ids == p'.ids[..|p.ids|] + [p'.ids[|p.ids|]];
          assert Active(p'.g, Key(b.scanType, id), b.scanType, b.requests[n - 1].r);
        }
      }
    }
  }
}
