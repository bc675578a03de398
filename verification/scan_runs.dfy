/**
 Scan admission over whole runs of requests, status changes and reported statuses: when at
 most one scan of a type runs on a resource, and when the latest-scan field names it.
 */
module ScanRuns {
  import opened Identifiers
  import opened ScanAdmission

  // ----- steps -----

  datatype Action =
    | Start(b: Batch, commits: bool)
    | SetStatus(k: Key, st: Status)                  // UpdateScanStatus, the retry job, cancellation
    | Ingest(k: Key, st: Status)                     // a status reported by an agent
    | SetNodes(nodes: map<Resource, NodeInfo>)       // reports come in
    | Pass(dt: nat)

  datatype World = World(g: Graph, now: int)

  // The clock moves forward; otherwise anything can happen.
  predicate Enabled(w: World, a: Action) { a.Start? ==> InOrder(a.b, w.now) }

  // Merging an unknown scan id makes a node without a resource.
  function StatusSet(g: Graph, k: Key, st: Status): Graph {
    g.(scans := g.scans[k := if k in g.scans then g.scans[k].(status := st) else Scan(st, 0, false, {})])
  }

  // A reported status is for a known scan, and progress of a scan that is being cancelled is ignored.
  predicate Heeded(g: Graph, k: Key, st: Status) {
    k in g.scans && !(st.InProgress? && (g.scans[k].status.Cancelling? || g.scans[k].status.CancelPending?))
  }

  // A reported status also points the scan's resources at the scan.
  function Ingested(g: Graph, k: Key, st: Status): Graph {
    if !Heeded(g, k, st) then g
    else
      var h := StatusSet(g, k, st);
      h.(latest := g.latest + map r | r in g.scans[k].targets :: (k.scanType, r) := k.id)
  }

  function Apply(w: World, a: Action): World {
    match a
    case Start(b, commits) => World(Committed(w.g, b, commits), Later(b, |b.requests|, w.now))
    case SetStatus(k, st) => w.(g := StatusSet(w.g, k, st))
    case Ingest(k, st) => w.(g := Ingested(w.g, k, st))
    case SetNodes(nodes) => w.(g := w.g.(nodes := nodes))
    case Pass(dt) => w.(now := w.now + dt)
  }

  predicate IsRun(w: World, acts: seq<Action>)
    decreases |acts|
  {
    acts == [] || (Enabled(w, acts[0]) && IsRun(Apply(w, acts[0]), acts[1..]))
  }

  function Final(w: World, acts: seq<Action>): World
    requires IsRun(w, acts)
    decreases |acts|
  {
    if acts == [] then w else Final(Apply(w, acts[0]), acts[1..])
  }

  // ----- late statuses -----

  // A finished scan is set running again.
  predicate Revives(g: Graph, k: Key, st: Status) {
    k in g.scans && Terminal(g.scans[k].status) && !Terminal(st)
  }

  // One of the scan's resources has a newer scan of the type.
  ghost predicate Superseded(g: Graph, k: Key) { exists k', r :: Rivals(g, k, k', r) && k.id.seconds < k'.id.seconds }

  /**
   Exactly which status changes keep the invariant: all but those that set a finished scan
   running again although one of its resources has a newer scan.
   */
  lemma StatusInvExactly(g: Graph, now: int, k: Key, st: Status)
    requires Inv(g, now)
    ensures Inv(StatusSet(g, k, st), now) <==> !(Revives(g, k, st) && Superseded(g, k))
  {
    var h := StatusSet(g, k, st);
    forall a, r ensures Scanned(h, a, r) <==> Scanned(g, a, r) {}
    forall a, b, r ensures Rivals(h, a, b, r) <==> Rivals(g, a, b, r) {}
    if Revives(g, k, st) && Superseded(g, k) {
      var k', r :| Rivals(g, k, k', r) && k.id.seconds < k'.id.seconds;
      assert Rivals(h, k, k', r);
    }
  }

  lemma SameScansInv(g: Graph, h: Graph, now: int)
    requires g.scans == h.scans
    ensures Inv(g, now) <==> Inv(h, now)
  {
    forall k, r ensures Scanned(h, k, r) <==> Scanned(g, k, r) {}
    forall k, k', r ensures Rivals(h, k, k', r) <==> Rivals(g, k, k', r) {}
  }

  // The step sets a finished scan running again after a newer one was made.
  ghost predicate LateRevival(w: World, a: Action) {
    (a.SetStatus? || a.Ingest?) && Revives(w.g, a.k, a.st) && Superseded(w.g, a.k)
  }

  ghost predicate NoLateRevival(w: World, acts: seq<Action>)
    requires IsRun(w, acts)
    decreases |acts|
  {
    acts == [] || (!LateRevival(w, acts[0]) && NoLateRevival(Apply(w, acts[0]), acts[1..]))
  }

  lemma InvStep(w: World, a: Action)
    requires Inv(w.g, w.now) && Enabled(w, a) && !LateRevival(w, a)
    ensures Inv(Apply(w, a).g, Apply(w, a).now)
  {
    match a
    case Start(b, commits) =>
      var n := |b.requests|;
      if Added(w.g, b, n).Ok? { AddedInv(w.g, b, n, w.now); }
      InvLater(w.g, w.now, Later(b, n, w.now));
    case SetStatus(k, st) => StatusInvExactly(w.g, w.now, k, st);
    case Ingest(k, st) =>
      StatusInvExactly(w.g, w.now, k, st);
      SameScansInv(StatusSet(w.g, k, st), StatusSet(w.g, k, st).(latest := Apply(w, a).g.latest), w.now);
    case SetNodes(nodes) => SameScansInv(w.g, Apply(w, a).g, w.now);
    case Pass(dt) => InvLater(w.g, w.now, w.now + dt);
  }

  lemma {:induction false} InvRun(w: World, acts: seq<Action>)
    requires Inv(w.g, w.now) && IsRun(w, acts) && NoLateRevival(w, acts)
    ensures Inv(Final(w, acts).g, Final(w, acts).now)
    decreases |acts|
  {
    if acts != [] {
      InvStep(w, acts[0]);
      InvRun(Apply(w, acts[0]), acts[1..]);
    }
  }

  /**
   One active scan: on every run of requests and status changes that sets no finished scan
   running again after a newer one was made, a resource has at most one running scan of
   each type, and the guard therefore finds it whenever there is one.
   */
  lemma OneActiveScan(w: World, acts: seq<Action>, k: Key, k': Key, scanType: string, r: Resource)
    requires w.g.scans == map[] && IsRun(w, acts) && NoLateRevival(w, acts)
    requires var g := Final(w, acts).g; Active(g, k, scanType, r) && Active(g, k', scanType, r)
    ensures k == k' && |Rows(Final(w, acts).g, scanType, r)| == 1
  {
    InvRun(w, acts);
    var u := Final(w, acts);
    AtMostOneActive(u.g, u.now, k, k', scanType, r);
    RowsAtMostOne(u.g, u.now, scanType, r);
    assert k in Rows(u.g, scanType, r);
  }

  // ----- the latest-scan field -----

  /**
   Exactly which reported statuses keep the fields pointing at the newest scans: those that are
   not heeded, and those of scans without a newer one on any of their resources.
   */
  lemma IngestLatestExactly(g: Graph, k: Key, st: Status)
    requires LatestIsNewest(g)
    ensures LatestIsNewest(Ingested(g, k, st)) <==> !(Heeded(g, k, st) && Superseded(g, k))
  {
    var h := Ingested(g, k, st);
    forall a, r ensures Scanned(h, a, r) <==> Scanned(g, a, r) {}
    if Heeded(g, k, st) && Superseded(g, k) {
      var k', r :| Rivals(g, k, k', r) && k.id.seconds < k'.id.seconds;
      assert Scanned(h, k', r) && !PointsAtNewer(h, k', r);
    } else {
      forall a, r | Scanned(h, a, r) ensures PointsAtNewer(h, a, r) {
        assert PointsAtNewer(g, a, r);
        if Heeded(g, k, st) && a.scanType == k.scanType && Scanned(g, k, r) { assert Rivals(g, k, a, r); }
      }
    }
  }

  lemma LatestKept(g: Graph, h: Graph)
    requires LatestIsNewest(g) && g.latest == h.latest && forall k, r :: Scanned(h, k, r) <==> Scanned(g, k, r)
    ensures LatestIsNewest(h)
  {
    forall k, r | Scanned(h, k, r) ensures PointsAtNewer(h, k, r) { assert PointsAtNewer(g, k, r); }
  }

  // The step reports the status of a scan after a newer one was made.
  ghost predicate LateReport(w: World, a: Action) {
    a.Ingest? && Heeded(w.g, a.k, a.st) && Superseded(w.g, a.k)
  }

  ghost predicate NoLateReport(w: World, acts: seq<Action>)
    requires IsRun(w, acts)
    decreases |acts|
  {
    acts == [] || (!LateReport(w, acts[0]) && NoLateReport(Apply(w, acts[0]), acts[1..]))
  }

  ghost predicate LatestThroughout(w: World, acts: seq<Action>)
    requires IsRun(w, acts)
    decreases |acts|
  {
    LatestIsNewest(w.g) && (acts != [] ==> LatestThroughout(Apply(w, acts[0]), acts[1..]))
  }

  lemma LatestStep(w: World, a: Action)
    requires Inv(w.g, w.now) && LatestIsNewest(w.g) && Enabled(w, a)
    ensures LatestIsNewest(Apply(w, a).g) <==> !LateReport(w, a)
  {
    match a
    case Start(b, commits) => if Added(w.g, b, |b.requests|).Ok? { AddedInv(w.g, b, |b.requests|, w.now); }
    case Ingest(k, st) => IngestLatestExactly(w.g, k, st);
    case _ =>
      forall k, r ensures Scanned(Apply(w, a).g, k, r) <==> Scanned(w.g, k, r) {}
      LatestKept(w.g, Apply(w, a).g);
  }

  lemma {:induction false} LatestFrom(w: World, acts: seq<Action>)
    requires Inv(w.g, w.now) && LatestIsNewest(w.g) && IsRun(w, acts) && NoLateRevival(w, acts)
    ensures LatestThroughout(w, acts) <==> NoLateReport(w, acts)
    ensures NoLateReport(w, acts) ==> LatestIsNewest(Final(w, acts).g)
    decreases |acts|
  {
    if acts != [] {
      LatestStep(w, acts[0]);
      if !LateReport(w, acts[0]) {
        InvStep(w, acts[0]);
        LatestFrom(Apply(w, acts[0]), acts[1..]);
      }
    }
  }

  predicate Names(g: Graph, k: Key, r: Resource) {
    (k.scanType, r) in g.latest && g.latest[(k.scanType, r)] == k.id
  }

  ghost predicate NamesRunning(g: Graph) { forall k: Key, r :: Active(g, k, k.scanType, r) ==> Names(g, k, r) }

  /**
   The latest-scan field: throughout a run every resource points at its newest scan exactly
   when no status is reported for a scan after a newer one was made; the field then
   names the running scan whenever there is one.
   */
  lemma LatestExactly(w: World, acts: seq<Action>)
    requires w.g.scans == map[] && IsRun(w, acts) && NoLateRevival(w, acts)
    ensures LatestThroughout(w, acts) <==> NoLateReport(w, acts)
    ensures NoLateReport(w, acts) ==> NamesRunning(Final(w, acts).g)
  {
    LatestFrom(w, acts);
    InvRun(w, acts);
    if NoLateReport(w, acts) { NewestNamesRunning(Final(w, acts).g, Final(w, acts).now); }
  }

  lemma NewestNamesRunning(g: Graph, now: int)
    requires Inv(g, now) && LatestIsNewest(g)
    ensures NamesRunning(g)
  {
    forall k: Key, r | Active(g, k, k.scanType, r) ensures Names(g, k, r) {
      assert PointsAtNewer(g, k, r);
      assert Rivals(g, k, Key(k.scanType, g.latest[(k.scanType, r)]), r);
    }
  }

  // A late report of a finished scan, which revives nothing, turns the field away from the running one.
  lemma LateReportMisleads(g: Graph, k: Key, running: Key, r: Resource, st: Status)
    requires Active(g, running, running.scanType, r) && Rivals(g, k, running, r) && k != running && Terminal(st)
    ensures var h := Ingested(g, k, st);
      && Active(h, running, running.scanType, r)
      && h.latest[(running.scanType, r)] == k.id != running.id
  {
  }

  // ----- cancellation -----

  predicate BeingCancelled(g: Graph, k: Key) {
    k in g.scans && (g.scans[k].status.CancelPending? || g.scans[k].status.Cancelling?)
  }

  /**
   What a reported status does: nothing for an unknown scan, nor as progress of a scan that is
   being cancelled; else the scan takes the status, all its resources point at it, and
   nothing else changes.
   */
  lemma ReportExactly(g: Graph, k: Key, st: Status)
    ensures var h := Ingested(g, k, st);
      if k !in g.scans || (st.InProgress? && BeingCancelled(g, k)) then h == g
      else
        && h.scans[k] == g.scans[k].(status := st) && h.scans - {k} == g.scans - {k} && h.nodes == g.nodes
        && (forall r :: r in g.scans[k].targets ==> Names(h, k, r))
        && (forall x: (string, Resource) :: x.0 != k.scanType || x.1 !in g.scans[k].targets ==>
              (x in h.latest <==> x in g.latest) && (x in g.latest ==> h.latest[x] == g.latest[x]))
  {
  }

  // Reports of progress, and anything about other scans.
  predicate LeavesCancelled(a: Action, k: Key) {
    match a
    case Ingest(x, st) => x != k || st.InProgress?
    case SetStatus(x, _) => x != k
    case Start(_, _) => false
    case _ => true
  }

  // A scan that is being cancelled stays so, whatever progress is still reported.
  lemma {:induction false} CancellationSticks(w: World, acts: seq<Action>, k: Key)
    requires BeingCancelled(w.g, k) && IsRun(w, acts) && forall i :: 0 <= i < |acts| ==> LeavesCancelled(acts[i], k)
    ensures BeingCancelled(Final(w, acts).g, k)
    decreases |acts|
  {
    if acts != [] { CancellationSticks(Apply(w, acts[0]), acts[1..], k); }
  }

  // ----- exactly when two scans run at once -----

  ghost predicate OneActive(g: Graph) {
    forall k, k', scanType, r :: Active(g, k, scanType, r) && Active(g, k', scanType, r) ==> k == k'
  }

  // Another scan of the type is running on one of the scan's resources.
  ghost predicate Beside(g: Graph, k: Key) {
    exists k', r :: k' != k && Scanned(g, k, r) && Active(g, k', k.scanType, r)
  }

  // A finished scan is set running again beside one that runs.
  ghost predicate Clashes(g: Graph, k: Key, st: Status) { Revives(g, k, st) && Beside(g, k) }

  lemma FinishedBeside(g: Graph, k: Key, running: Key, r: Resource)
    requires OneActive(g) && k != running && Scanned(g, k, r) && Active(g, running, k.scanType, r)
    ensures Terminal(g.scans[k].status) && Beside(g, k)
  {
    assert Active(g, k, k.scanType, r) <==> !Terminal(g.scans[k].status);
  }

  lemma StatusClashExactly(g: Graph, k: Key, st: Status)
    requires OneActive(g)
    ensures OneActive(StatusSet(g, k, st)) <==> !Clashes(g, k, st)
  {
    var h := StatusSet(g, k, st);
    forall a, t, r | a != k ensures Active(h, a, t, r) <==> Active(g, a, t, r) {}
    if Clashes(g, k, st) {
      var k', r :| k' != k && Scanned(g, k, r) && Active(g, k', k.scanType, r);
      assert Active(h, k, k.scanType, r) && Active(h, k', k.scanType, r);
    } else {
      forall a, b, t, r | Active(h, a, t, r) && Active(h, b, t, r) ensures a == b {
        if a == k && b != k { FinishedBeside(g, k, b, r); }
        if b == k && a != k { FinishedBeside(g, k, a, r); }
      }
    }
  }

  // Writing a scan on a resource where none runs: only an older node with its id can clash, elsewhere.
  lemma WrittenClashExactly(g: Graph, k: Key, r: Resource, isPriority: bool)
    requires OneActive(g) && Rows(g, k.scanType, r) == {}
    ensures OneActive(Written(g, k, r, isPriority)) <==> !Clashes(g, k, Starting)
  {
    var h := Written(g, k, r, isPriority);
    forall a, t, r' | a != k ensures Active(h, a, t, r') <==> Active(g, a, t, r') {}
    forall a ensures !Active(g, a, k.scanType, r) { assert a !in Rows(g, k.scanType, r); }
    if Clashes(g, k, Starting) {
      var k', r' :| k' != k && Scanned(g, k, r') && Active(g, k', k.scanType, r');
      assert Active(h, k, k.scanType, r') && Active(h, k', k.scanType, r');
    } else {
      forall a, b, t, r' | Active(h, a, t, r') && Active(h, b, t, r') ensures a == b {
        if a == k && b != k { FinishedBeside(g, k, b, r'); }
        if b == k && a != k { FinishedBeside(g, k, a, r'); }
      }
    }
  }

  lemma TwoStayTwo(g: Graph, k: Key, r: Resource, isPriority: bool)
    requires !OneActive(g)
    ensures !OneActive(Written(g, k, r, isPriority))
  {
    var h := Written(g, k, r, isPriority);
    var a, b, t, r' :| Active(g, a, t, r') && Active(g, b, t, r') && a != b;
    assert Active(h, a, t, r') && Active(h, b, t, r');
  }

  lemma OneActiveRows(g: Graph, scanType: string, r: Resource)
    requires OneActive(g)
    ensures |Rows(g, scanType, r)| <= 1
  {
    var rows := Rows(g, scanType, r);
    if k :| k in rows { assert rows == {k}; }
  }

  // The request is admitted under the id of an older node, which runs again beside another scan.
  ghost predicate RequestClashes(g: Graph, b: Batch, q: Request) {
    && !q.r.kind.Pod? && AddNewScan(g, b.scanType, q.r, q.seconds, b.isPriority, b.systemScan).Ok?
    && Clashes(g, Key(b.scanType, ScanRef(q.r.nodeID, q.seconds)), Starting)
  }

  ghost predicate BatchClashes(g: Graph, b: Batch, n: nat)
    requires n <= |b.requests| && Added(g, b, n).Ok?
  {
    n > 0 && (BatchClashes(g, b, n - 1) || RequestClashes(Added(g, b, n - 1).value.g, b, b.requests[n - 1]))
  }

  lemma {:induction false} AddedClashExactly(g: Graph, b: Batch, n: nat)
    requires OneActive(g) && n <= |b.requests| && Added(g, b, n).Ok?
    ensures OneActive(Added(g, b, n).value.g) <==> !BatchClashes(g, b, n)
  {
    if n > 0 {
      AddedClashExactly(g, b, n - 1);
      var p, q := Added(g, b, n - 1).value, b.requests[n - 1];
      var k := Key(b.scanType, ScanRef(q.r.nodeID, q.seconds));
      if !q.r.kind.Pod? && AddNewScan(p.g, b.scanType, q.r, q.seconds, b.isPriority, b.systemScan).Ok? {
        if OneActive(p.g) {
          OneActiveRows(p.g, b.scanType, q.r);
          assert |Rows(p.g, b.scanType, q.r)| == 0;
          WrittenClashExactly(p.g, k, q.r, b.isPriority);
        } else {
          TwoStayTwo(p.g, k, q.r, b.isPriority);
        }
      }
    }
  }

  // The step sets a finished scan running beside one that runs.
  ghost predicate StepClashes(w: World, a: Action) {
    match a
    case Start(b, commits) =>
      var r := Added(w.g, b, |b.requests|);
      commits && r.Ok? && r.value.ids != [] && BatchClashes(w.g, b, |b.requests|)
    case SetStatus(k, st) => Clashes(w.g, k, st)
    case Ingest(k, st) => Clashes(w.g, k, st)
    case _ => false
  }

  ghost predicate NoClash(w: World, acts: seq<Action>)
    requires IsRun(w, acts)
    decreases |acts|
  {
    acts == [] || (!StepClashes(w, acts[0]) && NoClash(Apply(w, acts[0]), acts[1..]))
  }

  ghost predicate OneActiveThroughout(w: World, acts: seq<Action>)
    requires IsRun(w, acts)
    decreases |acts|
  {
    OneActive(w.g) && (acts != [] ==> OneActiveThroughout(Apply(w, acts[0]), acts[1..]))
  }

  lemma SameScansActive(g: Graph, h: Graph)
    requires g.scans == h.scans
    ensures OneActive(g) <==> OneActive(h)
  {
    forall k, t, r ensures Active(h, k, t, r) <==> Active(g, k, t, r) {}
  }

  lemma ClashStep(w: World, a: Action)
    requires OneActive(w.g)
    ensures OneActive(Apply(w, a).g) <==> !StepClashes(w, a)
  {
    match a
    case Start(b, commits) => if Added(w.g, b, |b.requests|).Ok? { AddedClashExactly(w.g, b, |b.requests|); }
    case SetStatus(k, st) => StatusClashExactly(w.g, k, st);
    case Ingest(k, st) =>
      StatusClashExactly(w.g, k, st);
      SameScansActive(if Heeded(w.g, k, st) then StatusSet(w.g, k, st) else w.g, Apply(w, a).g);
    case _ => SameScansActive(w.g, Apply(w, a).g);
  }

  /**
   Exactly when no two scans run at once: from any graph with at most one running scan
   per resource and type, that stays so throughout a run, whatever the status changes, exactly
   when no step sets a finished scan running again beside one that runs.
   */
  lemma {:induction false} OneActiveExactly(w: World, acts: seq<Action>)
    requires OneActive(w.g) && IsRun(w, acts)
    ensures OneActiveThroughout(w, acts) <==> NoClash(w, acts)
    decreases |acts|
  {
    if acts != [] {
      ClashStep(w, acts[0]);
      if !StepClashes(w, acts[0]) { OneActiveExactly(Apply(w, acts[0]), acts[1..]); }
    }
  }

  // ----- a late report opens the guard -----

  function OneRequest(scanType: string, r: Resource, seconds: int): Batch {
    Batch(scanType, false, false, [Request(r, seconds, true)])
  }

  // A resource with nothing against a scan of it.
  predicate Free(g: Graph, r: Resource) { r in g.nodes && g.nodes[r] == NodeInfo(None, None) && !r.kind.Pod? }

  lemma RequestWritten(g: Graph, scanType: string, r: Resource, seconds: int)
    requires Free(g, r) && |Rows(g, scanType, r)| != 1
    ensures Committed(g, OneRequest(scanType, r, seconds), true)
      == Written(g, Key(scanType, ScanRef(r.nodeID, seconds)), r, false)
  {
    var b := OneRequest(scanType, r, seconds);
    assert Added(g, b, 0) == Ok(Progress(g, []));
    assert Added(g, b, 1) == AddOne(Progress(g, []), b, b.requests[0]);
  }

  // A scan finishes, a second one is started, and a late report sets the first one running again.
  function LateReportRun(scanType: string, r: Resource, t0: int, t1: int, t2: int): seq<Action> {
    var k := Key(scanType, ScanRef(r.nodeID, t0));
    [Start(OneRequest(scanType, r, t0), true), Ingest(k, Success), Start(OneRequest(scanType, r, t1), true)]
    + [Ingest(k, InProgress), Start(OneRequest(scanType, r, t2), true)]
  }

  lemma Prepend(w: World, a: Action, rest: seq<Action>)
    requires Enabled(w, a) && IsRun(Apply(w, a), rest)
    ensures IsRun(w, [a] + rest) && Final(w, [a] + rest) == Final(Apply(w, a), rest)
  {
    assert ([a] + rest)[1..] == rest;
  }

  // The graph after a scan has run to its end.
  lemma FirstEnds(w: World, scanType: string, r: Resource, t0: int)
    requires w.g.scans == map[] && Free(w.g, r)
    ensures var k := Key(scanType, ScanRef(r.nodeID, t0));
      var v := Apply(Apply(w, Start(OneRequest(scanType, r, t0), true)), Ingest(k, Success));
      v.g.scans == map[k := Scan(Success, 0, false, {r})] && v.g.nodes == w.g.nodes && v.now == t0
  {
    RequestWritten(w.g, scanType, r, t0);
  }

  lemma SecondRuns(w: World, scanType: string, r: Resource, k: Key, t1: int)
    requires k.scanType == scanType && k.id.nodeID == r.nodeID && k.id.seconds < t1
    requires w.g.scans == map[k := Scan(Success, 0, false, {r})] && Free(w.g, r)
    ensures var k' := Key(scanType, ScanRef(r.nodeID, t1));
      var v := Apply(Apply(w, Start(OneRequest(scanType, r, t1), true)), Ingest(k, InProgress));
      && Active(v.g, k, scanType, r) && Active(v.g, k', scanType, r) && v.g.nodes == w.g.nodes && v.now == t1
  {
    assert Rows(w.g, scanType, r) == {};
    RequestWritten(w.g, scanType, r, t1);
  }

  lemma ThirdAdmitted(w: World, scanType: string, r: Resource, k: Key, k': Key, t2: int)
    requires Free(w.g, r) && Active(w.g, k, scanType, r) && Active(w.g, k', scanType, r) && k != k'
    ensures var v := Apply(w, Start(OneRequest(scanType, r, t2), true));
      && Active(v.g, Key(scanType, ScanRef(r.nodeID, t2)), scanType, r)
      && Active(v.g, k, scanType, r) && Active(v.g, k', scanType, r)
  {
    TwoRunningOpenTheGuard(w.g, k, scanType, r, t2, false, false);
    RequestWritten(w.g, scanType, r, t2);
  }

  /**
   Two running scans are reached: a scan finishes, a second one is started in a later second,
   and a late report of progress of the first one leaves both running; a third is then admitted.
   */
  lemma LateReportOpensTheGuard(w: World, scanType: string, r: Resource, t0: int, t1: int, t2: int)
    requires w.g.scans == map[] && Free(w.g, r) && w.now <= t0 < t1 < t2
    ensures var acts := LateReportRun(scanType, r, t0, t1, t2);
      && IsRun(w, acts)
      && forall t :: t in {t0, t1, t2} ==> Active(Final(w, acts).g, Key(scanType, ScanRef(r.nodeID, t)), scanType, r)
  {
    var acts := LateReportRun(scanType, r, t0, t1, t2);
    var k, k' := Key(scanType, ScanRef(r.nodeID, t0)), Key(scanType, ScanRef(r.nodeID, t1));
    var w1 := Apply(w, acts[0]);
    var w2 := Apply(w1, acts[1]);
    var w3 := Apply(w2, acts[2]);
    var w4 := Apply(w3, acts[3]);
    FirstEnds(w, scanType, r, t0);
    SecondRuns(w2, scanType, r, k, t1);
    ThirdAdmitted(w4, scanType, r, k, k', t2);
    FiveSteps(w, acts);
  }

  lemma FiveSteps(w: World, acts: seq<Action>)
    requires |acts| == 5 && Enabled(w, acts[0]) && Enabled(Apply(w, acts[0]), acts[1])
    requires Enabled(Apply(Apply(w, acts[0]), acts[1]), acts[2])
    requires Enabled(Apply(Apply(Apply(w, acts[0]), acts[1]), acts[2]), acts[3])
    requires Enabled(Apply(Apply(Apply(Apply(w, acts[0]), acts[1]), acts[2]), acts[3]), acts[4])
    ensures IsRun(w, acts)
    ensures Final(w, acts) == Apply(Apply(Apply(Apply(Apply(w, acts[0]), acts[1]), acts[2]), acts[3]), acts[4])
  {
    var w1 := Apply(w, acts[0]);
    var w2 := Apply(w1, acts[1]);
    var w3 := Apply(w2, acts[2]);
    var w4 := Apply(w3, acts[3]);
    Prepend(w4, acts[4], []);
    Prepend(w3, acts[3], [acts[4]] + []);
    Prepend(w2, acts[2], [acts[3]] + ([acts[4]] + []));
    Prepend(w1, acts[1], [acts[2]] + ([acts[3]] + ([acts[4]] + [])));
    Prepend(w, acts[0], [acts[1]] + ([acts[2]] + ([acts[3]] + ([acts[4]] + []))));
    assert acts == [acts[0]] + ([acts[1]] + ([acts[2]] + ([acts[3]] + ([acts[4]] + []))));
  }
}
