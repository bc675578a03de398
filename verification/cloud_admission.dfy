/**
 Admission of cloud compliance scans.  Unlike other scans they are kept apart by the
 list of benchmarks they run, a new scan always makes a new node, several nodes may share
 one scan id, and a status is set on all nodes with the id.
 */
module CloudAdmission {
  import opened Identifiers
  import opened ScanAdmission

  datatype CloudScan = CloudScan(
    scanType: string, id: ScanRef, benchmarks: seq<string>, target: Resource, status: Status)

  datatype CloudInfo = CloudInfo(
    active: Option<bool>, agentRunning: Option<bool>,
    hosts: nat)                                   // active agents that host a cloud account

  datatype CloudGraph = CloudGraph(nodes: map<Resource, CloudInfo>, scans: seq<CloudScan>)

  datatype Refusal = NotFound | NotActive | Running(id: ScanRef) | Ambiguous | NoAgent | NoHost

  datatype Reply = Accepted(g: CloudGraph) | Refused(why: Refusal)

  function ScanTypeOf(r: Resource): string {
    if r.kind.KubernetesCluster? || r.kind.Host? then "ComplianceScan" else "CloudComplianceScan"
  }

  predicate ActiveAt(g: CloudGraph, i: int, r: Resource, benchmarks: seq<string>) {
    && 0 <= i < |g.scans|
    && g.scans[i].scanType == ScanTypeOf(r) && g.scans[i].target == r && g.scans[i].benchmarks == benchmarks
    && !Terminal(g.scans[i].status)
  }

  function ActiveRows(g: CloudGraph, r: Resource, benchmarks: seq<string>): set<int> {
    set i | 0 <= i < |g.scans| && ActiveAt(g, i, r, benchmarks)
  }

  // A new node for the scan; then every node with its id is set to starting.
  function Inserted(g: CloudGraph, r: Resource, benchmarks: seq<string>, seconds: int): CloudGraph {
    var id := ScanRef(r.nodeID, seconds);
    var all := g.scans + [CloudScan(ScanTypeOf(r), id, benchmarks, r, Starting)];
    g.(scans := seq(|all|, i requires 0 <= i < |all| =>
      if all[i].scanType == ScanTypeOf(r) && all[i].id == id then all[i].(status := Starting) else all[i]))
  }

  function AddNewCloudComplianceScan(g: CloudGraph, r: Resource, benchmarks: seq<string>, seconds: int): Reply {
    if r !in g.nodes then Refused(NotFound)
    else if g.nodes[r].active != Some(true) then Refused(NotActive)
    else
      var rows := ActiveRows(g, r, benchmarks);
      if |rows| > 1 then Refused(Ambiguous)
      else if |rows| == 1 then (SingleRow(rows); var i :| i in rows && rows == {i}; Refused(Running(g.scans[i].id)))
      else if g.nodes[r].agentRunning == Some(false) then Refused(NoAgent)
      else if !r.kind.KubernetesCluster? && !r.kind.Host? && g.nodes[r].hosts != 1 then Refused(NoHost)
      else Accepted(Inserted(g, r, benchmarks, seconds))
  }

  /**
   The cloud guard fails closed: whatever the graph, a resource with a running scan of
   the same benchmarks gets no second one.
   */
  lemma GuardFailsClosed(g: CloudGraph, i: int, r: Resource, benchmarks: seq<string>, seconds: int)
    requires ActiveAt(g, i, r, benchmarks)
    ensures AddNewCloudComplianceScan(g, r, benchmarks, seconds).Refused?
  {
    assert i in ActiveRows(g, r, benchmarks);
  }

  predicate OnlyActive(g: CloudGraph, i: int, r: Resource, benchmarks: seq<string>) {
    ActiveAt(g, i, r, benchmarks) && ActiveRows(g, r, benchmarks) == {i}
  }

  /**
   Which requests are accepted, in any graph: those for a known, active resource with no
   running scan of the same benchmarks, whose agent is not known to be down and, for a cloud
   account, which exactly one active agent hosts.  A refusal for a running scan names the only
   one there is.  An accepted scan is a new, running node.
   */
  lemma AcceptedExactly(g: CloudGraph, r: Resource, benchmarks: seq<string>, seconds: int)
    ensures var reply := AddNewCloudComplianceScan(g, r, benchmarks, seconds);
      var known := r in g.nodes && g.nodes[r].active == Some(true);
      && (reply.Accepted? <==>
            && known && (forall i :: !ActiveAt(g, i, r, benchmarks)) && g.nodes[r].agentRunning != Some(false)
            && (r.kind.KubernetesCluster? || r.kind.Host? || g.nodes[r].hosts == 1))
      && (forall id :: reply == Refused(Running(id)) <==>
            known && exists i :: OnlyActive(g, i, r, benchmarks) && g.scans[i].id == id)
      && (reply.Accepted? ==>
            && |reply.g.scans| == |g.scans| + 1 && reply.g.nodes == g.nodes
            && ActiveAt(reply.g, |g.scans|, r, benchmarks)
            && reply.g.scans[|g.scans|].id == ScanRef(r.nodeID, seconds)
            && (reply.g.scans[|g.scans|].scanType == "ComplianceScan" <==> r.kind.KubernetesCluster? || r.kind.Host?))
  {
    var rows := ActiveRows(g, r, benchmarks);
    assert forall i :: i in rows <==> ActiveAt(g, i, r, benchmarks);
    if |rows| == 1 {
      SingleRow(rows);
      var i :| i in rows && rows == {i};
      assert OnlyActive(g, i, r, benchmarks);
    } else if |rows| == 0 {
      assert rows == {};
    }
  }

  // ----- over whole runs -----

  predicate Rival(x: CloudScan, y: CloudScan) {
    x.scanType == y.scanType && x.target == y.target && x.benchmarks == y.benchmarks
  }

  predicate CloudDated(g: CloudGraph, now: int) {
    forall i :: 0 <= i < |g.scans| ==> g.scans[i].id.nodeID == g.scans[i].target.nodeID && g.scans[i].id.seconds <= now
  }

  predicate RunningNewest(g: CloudGraph) {
    forall i, j | 0 <= i < |g.scans| && 0 <= j < |g.scans| ::
      Rival(g.scans[i], g.scans[j]) && !Terminal(g.scans[i].status) ==>
        g.scans[j].id.seconds <= g.scans[i].id.seconds
  }

  predicate CloudInv(g: CloudGraph, now: int) { CloudDated(g, now) && RunningNewest(g) }

  lemma InsertedRunning(g: CloudGraph, now: int, r: Resource, benchmarks: seq<string>, seconds: int)
    requires CloudInv(g, now) && now <= seconds && ActiveRows(g, r, benchmarks) == {}
    ensures CloudInv(Inserted(g, r, benchmarks, seconds), seconds)
  {
    var h := Inserted(g, r, benchmarks, seconds);
    var n := |g.scans|;
    assert forall i :: 0 <= i < n ==> h.scans[i].id == g.scans[i].id && Rival(h.scans[i], g.scans[i]);
    forall i, j | 0 <= i < |h.scans| && 0 <= j < |h.scans| && Rival(h.scans[i], h.scans[j])
      && !Terminal(h.scans[i].status)
      ensures h.scans[j].id.seconds <= h.scans[i].id.seconds
    {
      if i < n && h.scans[i] == g.scans[i] {
        assert i !in ActiveRows(g, r, benchmarks);
        if j < n { assert Rival(g.scans[i], g.scans[j]); }
      }
    }
  }

  datatype CloudAction =
    | Add(r: Resource, benchmarks: seq<string>, seconds: int)
    | Status(scanType: string, id: ScanRef, st: ScanAdmission.Status)
    | Nodes(nodes: map<Resource, CloudInfo>)

  // A finished scan is set running again although a newer one of its resource and benchmarks exists.
  predicate LateStatus(g: CloudGraph, scanType: string, id: ScanRef, st: ScanAdmission.Status) {
    !Terminal(st) && exists i, j | 0 <= i < |g.scans| && 0 <= j < |g.scans| ::
      && g.scans[i].scanType == scanType && g.scans[i].id == id && Terminal(g.scans[i].status)
      && Rival(g.scans[i], g.scans[j]) && g.scans[i].id.seconds < g.scans[j].id.seconds
  }

  datatype CloudWorld = CloudWorld(g: CloudGraph, now: int)

  predicate CloudEnabled(w: CloudWorld, a: CloudAction) {
    match a
    case Add(_, _, seconds) => w.now <= seconds
    case Status(scanType, id, st) => !LateStatus(w.g, scanType, id, st)
    case Nodes(_) => true
  }

  function StatusSet(g: CloudGraph, scanType: string, id: ScanRef, st: ScanAdmission.Status): CloudGraph {
    g.(scans := seq(|g.scans|, i requires 0 <= i < |g.scans| =>
      if g.scans[i].scanType == scanType && g.scans[i].id == id then g.scans[i].(status := st) else g.scans[i]))
  }

  function CloudApply(w: CloudWorld, a: CloudAction): CloudWorld {
    match a
    case Add(r, benchmarks, seconds) =>
      (match AddNewCloudComplianceScan(w.g, r, benchmarks, seconds)
       case Accepted(g) => CloudWorld(g, seconds)
       case Refused(_) => w.(now := seconds))
    case Status(scanType, id, st) => w.(g := StatusSet(w.g, scanType, id, st))
    case Nodes(nodes) => w.(g := w.g.(nodes := nodes))
  }

  // Exactly which status changes keep the invariant: all but the late ones.
  lemma StatusExactly(g: CloudGraph, now: int, scanType: string, id: ScanRef, st: ScanAdmission.Status)
    requires CloudInv(g, now)
    ensures CloudInv(StatusSet(g, scanType, id, st), now) <==> !LateStatus(g, scanType, id, st)
  {
    var h := StatusSet(g, scanType, id, st);
    assert forall i | 0 <= i < |g.scans| :: h.scans[i] == g.scans[i].(status := h.scans[i].status);
    forall i, j | 0 <= i < |g.scans| && 0 <= j < |g.scans|
      ensures Rival(h.scans[i], h.scans[j]) <==> Rival(g.scans[i], g.scans[j])
    {
    }
    if !LateStatus(g, scanType, id, st) {
      forall i, j | 0 <= i < |h.scans| && 0 <= j < |h.scans| && Rival(h.scans[i], h.scans[j])
        && !Terminal(h.scans[i].status)
        ensures h.scans[j].id.seconds <= h.scans[i].id.seconds
      {
        assert Rival(g.scans[i], g.scans[j]);
      }
    } else {
      var i, j :| 0 <= i < |g.scans| && 0 <= j < |g.scans|
        && g.scans[i].scanType == scanType && g.scans[i].id == id && Terminal(g.scans[i].status)
        && Rival(g.scans[i], g.scans[j]) && g.scans[i].id.seconds < g.scans[j].id.seconds;
      assert Rival(h.scans[i], h.scans[j]) && !Terminal(h.scans[i].status);
    }
  }

  lemma CloudStep(w: CloudWorld, a: CloudAction)
    requires CloudInv(w.g, w.now) && CloudEnabled(w, a)
    ensures CloudInv(CloudApply(w, a).g, CloudApply(w, a).now)
  {
    match a
    case Add(r, benchmarks, seconds) =>
      if |ActiveRows(w.g, r, benchmarks)| == 0 {
        assert ActiveRows(w.g, r, benchmarks) == {};
        InsertedRunning(w.g, w.now, r, benchmarks, seconds);
      }
    case Status(scanType, id, st) => StatusExactly(w.g, w.now, scanType, id, st);
    case Nodes(_) =>
  }

  predicate IsCloudRun(w: CloudWorld, acts: seq<CloudAction>)
    decreases |acts|
  {
    acts == [] || (CloudEnabled(w, acts[0]) && IsCloudRun(CloudApply(w, acts[0]), acts[1..]))
  }

  function CloudFinal(w: CloudWorld, acts: seq<CloudAction>): CloudWorld
    requires IsCloudRun(w, acts)
    decreases |acts|
  {
    if acts == [] then w else CloudFinal(CloudApply(w, acts[0]), acts[1..])
  }

  lemma {:induction false} CloudRun(w: CloudWorld, acts: seq<CloudAction>)
    requires CloudInv(w.g, w.now) && IsCloudRun(w, acts)
    ensures CloudInv(CloudFinal(w, acts).g, CloudFinal(w, acts).now)
    decreases |acts|
  {
    if acts != [] {
      CloudStep(w, acts[0]);
      CloudRun(CloudApply(w, acts[0]), acts[1..]);
    }
  }

  /**
   One active cloud scan: on every run that revives no finished scan after a newer one was
   made, all running scans of one resource with one list of benchmarks have the same scan id.
   */
  lemma OneActiveCloudScan(w: CloudWorld, acts: seq<CloudAction>, i: int, j: int, r: Resource, benchmarks: seq<string>)
    requires w.g.scans == [] && IsCloudRun(w, acts)
    requires var g := CloudFinal(w, acts).g; ActiveAt(g, i, r, benchmarks) && ActiveAt(g, j, r, benchmarks)
    ensures var g := CloudFinal(w, acts).g; g.scans[i].id == g.scans[j].id
  {
    CloudRun(w, acts);
    var g := CloudFinal(w, acts).g;
    assert Rival(g.scans[i], g.scans[j]) && Rival(g.scans[j], g.scans[i]);
  }

  // ----- one node, and not only one id -----

  // The node has the scan id that a request made in this second gets.
  predicate SameId(x: CloudScan, r: Resource, seconds: int) {
    x.scanType == ScanTypeOf(r) && x.id == ScanRef(r.nodeID, seconds)
  }

  // The request repeats one that was accepted within the same second.
  predicate Repeats(g: CloudGraph, r: Resource, benchmarks: seq<string>, seconds: int) {
    exists i :: 0 <= i < |g.scans| && SameId(g.scans[i], r, seconds)
      && g.scans[i].target == r && g.scans[i].benchmarks == benchmarks
  }

  /**
   A new scan is the only running node of its resource and benchmarks exactly when the
   request does not repeat another of the same second; a repetition leaves two.
   */
  lemma SecondRowExactly(g: CloudGraph, r: Resource, benchmarks: seq<string>, seconds: int)
    requires ActiveRows(g, r, benchmarks) == {}
    ensures var rows := ActiveRows(Inserted(g, r, benchmarks, seconds), r, benchmarks);
      (|rows| == 1 <==> !Repeats(g, r, benchmarks, seconds)) && (|rows| >= 2 <==> Repeats(g, r, benchmarks, seconds))
  {
    var h, n := Inserted(g, r, benchmarks, seconds), |g.scans|;
    var rows := ActiveRows(h, r, benchmarks);
    assert n in rows;
    if Repeats(g, r, benchmarks, seconds) {
      var i :| 0 <= i < n && SameId(g.scans[i], r, seconds)
        && g.scans[i].target == r && g.scans[i].benchmarks == benchmarks;
      TwoRows(rows, i, n);
    } else {
      forall i | i in rows ensures i == n {
        assert i !in ActiveRows(g, r, benchmarks);
      }
      assert rows == {n};
    }
  }

  lemma TwoRows(rows: set<int>, i: int, j: int)
    requires i in rows && j in rows && i != j
    ensures |rows| >= 2
  {
    assert rows == {i, j} + (rows - {i, j});
  }

  ghost predicate OneNode(g: CloudGraph) {
    forall r, benchmarks, i, j :: ActiveAt(g, i, r, benchmarks) && ActiveAt(g, j, r, benchmarks) ==> i == j
  }

  ghost predicate OneNodeThroughout(w: CloudWorld, acts: seq<CloudAction>)
    requires IsCloudRun(w, acts)
    decreases |acts|
  {
    OneNode(w.g) && (acts != [] ==> OneNodeThroughout(CloudApply(w, acts[0]), acts[1..]))
  }

  predicate StepRepeats(w: CloudWorld, a: CloudAction) {
    && a.Add? && AddNewCloudComplianceScan(w.g, a.r, a.benchmarks, a.seconds).Accepted?
    && Repeats(w.g, a.r, a.benchmarks, a.seconds)
  }

  // No accepted request of the run repeats another of the same second.
  ghost predicate NoRepeats(w: CloudWorld, acts: seq<CloudAction>)
    requires IsCloudRun(w, acts)
    decreases |acts|
  {
    acts == [] || (!StepRepeats(w, acts[0]) && NoRepeats(CloudApply(w, acts[0]), acts[1..]))
  }

  predicate Unrepeated(g: CloudGraph) {
    forall i, j | 0 <= i < |g.scans| && 0 <= j < |g.scans| ::
      Rival(g.scans[i], g.scans[j]) && g.scans[i].id == g.scans[j].id ==> i == j
  }

  lemma UnrepeatedOneNode(g: CloudGraph, now: int)
    requires CloudInv(g, now) && Unrepeated(g)
    ensures OneNode(g)
  {
    forall r, benchmarks, i, j | ActiveAt(g, i, r, benchmarks) && ActiveAt(g, j, r, benchmarks) ensures i == j {
      assert Rival(g.scans[i], g.scans[j]) && Rival(g.scans[j], g.scans[i]);
    }
  }

  // The scans before and after a step that adds none differ in status only.
  predicate SameNodes(g: CloudGraph, h: CloudGraph, n: nat) {
    && n <= |g.scans| && n <= |h.scans|
    && forall i :: 0 <= i < n ==> h.scans[i] == g.scans[i].(status := h.scans[i].status)
  }

  lemma UnrepeatedKept(g: CloudGraph, h: CloudGraph)
    requires Unrepeated(g) && SameNodes(g, h, |g.scans|) && |h.scans| == |g.scans|
    ensures Unrepeated(h)
  {
    forall i, j | 0 <= i < |h.scans| && 0 <= j < |h.scans|
      && Rival(h.scans[i], h.scans[j]) && h.scans[i].id == h.scans[j].id
      ensures i == j
    {
      assert Rival(g.scans[i], g.scans[j]);
    }
  }

  lemma InsertedUnrepeated(g: CloudGraph, r: Resource, benchmarks: seq<string>, seconds: int)
    requires Unrepeated(g) && !Repeats(g, r, benchmarks, seconds)
    ensures Unrepeated(Inserted(g, r, benchmarks, seconds))
  {
    var h, n := Inserted(g, r, benchmarks, seconds), |g.scans|;
    assert SameNodes(g, h, n);
    forall i, j | 0 <= i < |h.scans| && 0 <= j < |h.scans|
      && Rival(h.scans[i], h.scans[j]) && h.scans[i].id == h.scans[j].id
      ensures i == j
    {
      if i < n && j < n {
        assert Rival(g.scans[i], g.scans[j]);
      } else if i < n {
        assert SameId(g.scans[i], r, seconds);
      } else if j < n {
        assert SameId(g.scans[j], r, seconds);
      }
    }
  }

  lemma UnrepeatedStep(w: CloudWorld, a: CloudAction)
    requires Unrepeated(w.g) && CloudEnabled(w, a) && !StepRepeats(w, a)
    ensures Unrepeated(CloudApply(w, a).g)
  {
    if a.Add? && AddNewCloudComplianceScan(w.g, a.r, a.benchmarks, a.seconds).Accepted? {
      InsertedUnrepeated(w.g, a.r, a.benchmarks, a.seconds);
    } else {
      UnrepeatedKept(w.g, CloudApply(w, a).g);
    }
  }

  lemma RepeatBreaks(w: CloudWorld, a: CloudAction)
    requires StepRepeats(w, a)
    ensures !OneNode(CloudApply(w, a).g)
  {
    var g, n := w.g, |w.g.scans|;
    var h := Inserted(g, a.r, a.benchmarks, a.seconds);
    var i :| 0 <= i < n && SameId(g.scans[i], a.r, a.seconds)
      && g.scans[i].target == a.r && g.scans[i].benchmarks == a.benchmarks;
    assert ActiveAt(h, i, a.r, a.benchmarks) && ActiveAt(h, n, a.r, a.benchmarks);
  }

  lemma {:induction false} OneNodeFrom(w: CloudWorld, acts: seq<CloudAction>)
    requires CloudInv(w.g, w.now) && Unrepeated(w.g) && IsCloudRun(w, acts)
    ensures OneNodeThroughout(w, acts) <==> NoRepeats(w, acts)
    decreases |acts|
  {
    UnrepeatedOneNode(w.g, w.now);
    if acts != [] {
      if StepRepeats(w, acts[0]) {
        RepeatBreaks(w, acts[0]);
      } else {
        CloudStep(w, acts[0]);
        UnrepeatedStep(w, acts[0]);
        OneNodeFrom(CloudApply(w, acts[0]), acts[1..]);
      }
    }
  }

  /**
   One node: throughout a run with no such revival, every resource has at most one
   running node for each list of benchmarks exactly when no accepted request repeats another
   of the same second.
   */
  lemma OneNodeExactly(w: CloudWorld, acts: seq<CloudAction>)
    requires w.g.scans == [] && IsCloudRun(w, acts)
    ensures OneNodeThroughout(w, acts) <==> NoRepeats(w, acts)
  {
    OneNodeFrom(w, acts);
  }

  // Every request comes in a later second than anything before it.
  predicate Spaced(w: CloudWorld, acts: seq<CloudAction>)
    requires IsCloudRun(w, acts)
    decreases |acts|
  {
    acts == [] || ((acts[0].Add? ==> w.now < acts[0].seconds) && Spaced(CloudApply(w, acts[0]), acts[1..]))
  }

  // Requests in different seconds never repeat one another.
  lemma {:induction false} SpacedNoRepeats(w: CloudWorld, acts: seq<CloudAction>)
    requires CloudInv(w.g, w.now) && IsCloudRun(w, acts) && Spaced(w, acts)
    ensures NoRepeats(w, acts)
    decreases |acts|
  {
    if acts != [] {
      CloudStep(w, acts[0]);
      SpacedNoRepeats(CloudApply(w, acts[0]), acts[1..]);
    }
  }

  /**
   What an accepted request does to the other scans: it leaves them all alone exactly when
   every node that shares its scan id, whatever its benchmarks, is waiting anyway.
   */
  lemma OthersUntouchedExactly(g: CloudGraph, r: Resource, benchmarks: seq<string>, seconds: int)
    requires AddNewCloudComplianceScan(g, r, benchmarks, seconds).Accepted?
    ensures var h := AddNewCloudComplianceScan(g, r, benchmarks, seconds).g;
      h.scans[..|g.scans|] == g.scans
      <==> forall i :: 0 <= i < |g.scans| && SameId(g.scans[i], r, seconds) ==> g.scans[i].status.Starting?
  {
    var h, n := Inserted(g, r, benchmarks, seconds), |g.scans|;
    if h.scans[..n] == g.scans {
      forall i | 0 <= i < n && SameId(g.scans[i], r, seconds) ensures g.scans[i].status.Starting? {
        assert g.scans[i] == h.scans[..n][i];
      }
    }
  }

  /**
   Otherwise a scan is set back: in any graph, a scan of other benchmarks requested in the
   same second, running or finished, is waiting again once the request is accepted.
   */
  lemma OtherBenchmarksReset(g: CloudGraph, r: Resource, benchmarks: seq<string>, seconds: int, i: int)
    requires AddNewCloudComplianceScan(g, r, benchmarks, seconds).Accepted?
    requires 0 <= i < |g.scans| && SameId(g.scans[i], r, seconds) && g.scans[i].benchmarks != benchmarks
    requires g.scans[i].target == r && !g.scans[i].status.Starting?
    ensures var h := AddNewCloudComplianceScan(g, r, benchmarks, seconds).g;
      ActiveAt(h, i, r, g.scans[i].benchmarks) && h.scans[i] != g.scans[i]
  {
  }

  /**
   A repetition does happen: a scan that finishes within the second it was requested in
   and is requested again leaves two running nodes with its id, and the resource is then
   refused as ambiguous until both have finished.
   */
  lemma SameSecondTwice(g: CloudGraph, r: Resource, benchmarks: seq<string>, seconds: int, i: int)
    requires ActiveRows(g, r, benchmarks) == {} && 0 <= i < |g.scans|
    requires g.scans[i] == CloudScan(ScanTypeOf(r), ScanRef(r.nodeID, seconds), benchmarks, r, Success)
    requires r in g.nodes && g.nodes[r] == CloudInfo(Some(true), None, 1)
    ensures var reply := AddNewCloudComplianceScan(g, r, benchmarks, seconds);
      reply.Accepted? && AddNewCloudComplianceScan(reply.g, r, benchmarks, seconds) == Refused(Ambiguous)
  {
    SecondRowExactly(g, r, benchmarks, seconds);
    assert SameId(g.scans[i], r, seconds);
    assert AddNewCloudComplianceScan(g, r, benchmarks, seconds).g == Inserted(g, r, benchmarks, seconds);
  }
}
