/**
 The work budget between an agent and the console: the agent reports how much more work
 it can take, the console hands out at most that much, and the agent counts its jobs
 again before the next poll.
 */
module Workload {
  datatype Kind =
    | StopScan | DiagnosticLogs | ThreatIntel
    | Upgrade
    | SecretScan | MalwareScan | VulnerabilityScan | ComplianceScan | CloudComplianceScan
    | Refresh

  predicate IsScan(k: Kind) {
    k.SecretScan? || k.MalwareScan? || k.VulnerabilityScan? || k.ComplianceScan? || k.CloudComplianceScan?
  }

  // Actions that use up the reported workload.
  predicate Budgeted(k: Kind) { k.Upgrade? || IsScan(k) || k.Refresh? }

  function Count(p: Kind -> bool, ks: seq<Kind>): nat {
    if ks == [] then 0 else Count(p, ks[..|ks| - 1]) + if p(ks[|ks| - 1]) then 1 else 0
  }

  lemma {:induction false} CountAppend(p: Kind -> bool, a: seq<Kind>, b: seq<Kind>)
    ensures Count(p, a + b) == Count(p, a) + Count(p, b)
  {
    if b == [] {
      assert a + b == a;
    } else {
      assert (a + b)[..|a + b| - 1] == a + b[..|b| - 1];
      CountAppend(p, a, b[..|b| - 1]);
    }
  }

  lemma {:induction false} CountBounded(p: Kind -> bool, ks: seq<Kind>)
    ensures Count(p, ks) <= |ks|
  {
    if ks != [] { CountBounded(p, ks[..|ks| - 1]); }
  }

  // ----- the console -----

  // A row of a query; only decodable ones become actions.
  datatype Entry = Entry(kind: Kind, decodable: bool)
  datatype Queue = Queue(rows: seq<Entry>, commits: bool)
  datatype Extracted = Extracted(actions: seq<Kind>, err: bool)

  // What is waiting for one agent in the graph store.
  datatype Console = Console(
    known: bool, stops: Queue, logs: Queue, upgrades: Queue, scans: Queue, refreshes: Queue, intel: Queue)

  predicate ConsoleOk(c: Console) {
    && (forall e :: e in c.stops.rows ==> e.kind.StopScan?) && (forall e :: e in c.logs.rows ==> e.kind.DiagnosticLogs?)
    && (forall e :: e in c.upgrades.rows ==> e.kind.Upgrade?) && (forall e :: e in c.scans.rows ==> IsScan(e.kind))
    && (forall e :: e in c.refreshes.rows ==> e.kind.Refresh?)
    && (forall e :: e in c.intel.rows ==> e.kind.ThreatIntel?)
  }

  function Decoded(rows: seq<Entry>): (ks: seq<Kind>)
    ensures |ks| <= |rows|
    ensures forall k :: k in ks ==> exists e :: e in rows && e.decodable && e.kind == k
  {
    if rows == [] then []
    else
      var init, last := rows[..|rows| - 1], rows[|rows| - 1];
      assert rows == init + [last];
      if last.decodable then Decoded(init) + [last.kind] else Decoded(init)
  }

  // A query with a limit; a negative limit is an error, and so is a failed commit.
  function Extract(q: Queue, limit: int): (x: Extracted)
    ensures |x.actions| <= if limit < 0 then 0 else limit
    ensures forall k :: k in x.actions ==> exists e :: e in q.rows && e.decodable && e.kind == k
  {
    if limit < 0 then Extracted([], true)
    else
      var rows := if limit < |q.rows| then q.rows[..limit] else q.rows;
      var ks := Decoded(rows);
      Extracted(ks, ks != [] && !q.commits)
  }

  function Handed(x: Extracted): seq<Kind> { if x.err then [] else x.actions }

  const MAX_WORK := 5

  lemma {:induction false} CountAll(p: Kind -> bool, ks: seq<Kind>, some: bool)
    requires forall k :: k in ks ==> p(k) == some
    ensures Count(p, ks) == if some then |ks| else 0
  {
    if ks != [] { CountAll(p, ks[..|ks| - 1], some); }
  }

  function Unbudgeted(c: Console): seq<Kind> {
    Handed(Extract(c.stops, MAX_WORK)) + Handed(Extract(c.logs, MAX_WORK))
  }

  // The budgeted actions of a poll, in the order they are handed out.
  function Work(c: Console, workload: int, cloud: bool): seq<Kind> {
    var upgrades := Extract(c.upgrades, workload);
    var left := workload - |upgrades.actions|;
    var scans := Extract(c.scans, left);
    var left' := left - |scans.actions|;
    Handed(upgrades) + Handed(scans) + if cloud && left' > 0 then Handed(Extract(c.refreshes, left')) else []
  }

  lemma WorkBudgeted(c: Console, workload: int, cloud: bool)
    requires ConsoleOk(c)
    ensures forall k :: k in Work(c, workload, cloud) ==> Budgeted(k)
    ensures |Work(c, workload, cloud)| <= if workload < 0 then 0 else workload
  {
  }

  // ----- what is handed out, and in which order -----

  predicate AllDecodable(q: Queue) { forall e :: e in q.rows ==> e.decodable }

  function Kinds(rows: seq<Entry>): seq<Kind> { seq(|rows|, i requires 0 <= i < |rows| => rows[i].kind) }

  function AtMost(a: int, b: nat): nat { if a < 0 then 0 else if a < b then a else b }

  lemma {:induction false} DecodedAll(rows: seq<Entry>)
    requires forall e :: e in rows ==> e.decodable
    ensures Decoded(rows) == Kinds(rows)
  {
    if rows != [] {
      DecodedAll(rows[..|rows| - 1]);
      assert Kinds(rows) == Kinds(rows[..|rows| - 1]) + [rows[|rows| - 1].kind];
    }
  }

  // The first rows of a queue, if its transaction commits.
  function FirstOf(q: Queue, n: nat): seq<Kind>
    requires n <= |q.rows|
  {
    if q.commits then Kinds(q.rows[..n]) else []
  }

  lemma ExtractsFirst(q: Queue, limit: nat)
    requires AllDecodable(q)
    ensures |Extract(q, limit).actions| == AtMost(limit, |q.rows|)
    ensures Handed(Extract(q, limit)) == FirstOf(q, AtMost(limit, |q.rows|))
  {
    var rows := if limit < |q.rows| then q.rows[..limit] else q.rows;
    assert rows == q.rows[..AtMost(limit, |q.rows|)];
    DecodedAll(rows);
  }

  /**
   What a poll hands out when everything waiting can be decoded: up to five stop requests and
   then up to five log requests; then upgrades, then scans, then on a cloud agent refreshes, each
   the first of its queue and as many as the workload leaves.  A transaction that does not
   commit hands nothing out, and its actions still use up workload.
   */
  lemma HandedOutInOrder(c: Console, workload: nat, cloud: bool)
    requires AllDecodable(c.stops) && AllDecodable(c.logs)
    requires AllDecodable(c.upgrades) && AllDecodable(c.scans) && AllDecodable(c.refreshes)
    ensures Unbudgeted(c) == FirstOf(c.stops, AtMost(5, |c.stops.rows|)) + FirstOf(c.logs, AtMost(5, |c.logs.rows|))
    ensures var u := AtMost(workload, |c.upgrades.rows|);
      var n := AtMost(workload - u, |c.scans.rows|);
      var f := if cloud then AtMost(workload - u - n, |c.refreshes.rows|) else 0;
      Work(c, workload, cloud) == FirstOf(c.upgrades, u) + FirstOf(c.scans, n) + FirstOf(c.refreshes, f)
  {
    ExtractsFirst(c.stops, MAX_WORK);
    ExtractsFirst(c.logs, MAX_WORK);
    ExtractsFirst(c.upgrades, workload);
    var u := AtMost(workload, |c.upgrades.rows|);
    ExtractsFirst(c.scans, workload - u);
    var n := AtMost(workload - u, |c.scans.rows|);
    ExtractsFirst(c.refreshes, workload - u - n);
    assert FirstOf(c.refreshes, 0) == [];
  }

  // The middle of GetAgentActions: each kind takes from what the ones before it left.
  method ExtractWork(c: Console, workload: int, cloud: bool) returns (work: seq<Kind>)
    ensures work == Work(c, workload, cloud)
  {
    var workNumToExtract := workload;
    var upgrades := Extract(c.upgrades, workNumToExtract);
    workNumToExtract := workNumToExtract - |upgrades.actions|;
    work := Handed(upgrades);
    var scans := Extract(c.scans, workNumToExtract);
    workNumToExtract := workNumToExtract - |scans.actions|;
    work := work + Handed(scans);
    if cloud && workNumToExtract > 0 {
      var refreshes := Extract(c.refreshes, workNumToExtract);
      workNumToExtract := workNumToExtract - |refreshes.actions|;
      work := work + Handed(refreshes);
    }
  }

  lemma NoneBudgeted(q: Queue, limit: int)
    requires forall e :: e in q.rows ==> !Budgeted(e.kind)
    ensures Count(Budgeted, Handed(Extract(q, limit))) == 0
  {
    CountAll(Budgeted, Handed(Extract(q, limit)), false);
  }

  lemma FreeOfBudget(c: Console)
    requires ConsoleOk(c)
    ensures Count(Budgeted, Unbudgeted(c)) == 0 && Count(Budgeted, Handed(Extract(c.intel, 1))) == 0
  {
    NoneBudgeted(c.stops, MAX_WORK);
    NoneBudgeted(c.logs, MAX_WORK);
    NoneBudgeted(c.intel, 1);
    CountAppend(Budgeted, Handed(Extract(c.stops, MAX_WORK)), Handed(Extract(c.logs, MAX_WORK)));
  }

  lemma PollBudget(c: Console, workload: int, cloud: bool)
    requires ConsoleOk(c)
    ensures Count(Budgeted, Unbudgeted(c) + Work(c, workload, cloud) + Handed(Extract(c.intel, 1)))
      <= if workload < 0 then 0 else workload
  {
    var free, work, intel := Unbudgeted(c), Work(c, workload, cloud), Handed(Extract(c.intel, 1));
    FreeOfBudget(c);
    WorkBudgeted(c, workload, cloud);
    CountAppend(Budgeted, free, work);
    CountAppend(Budgeted, free + work, intel);
    CountBounded(Budgeted, work);
  }

  /**
   GetAgentActions: stop and log requests come first and are free; upgrades, scans and
   refreshes together never exceed the reported workload.
   */
  method GetAgentActions(c: Console, workload: int, cloud: bool) returns (actions: seq<Kind>)
    requires ConsoleOk(c)
    ensures !c.known ==> actions == []
    ensures c.known && workload == 0 ==> actions == Unbudgeted(c)
    ensures c.known && workload != 0 ==>
      actions == Unbudgeted(c) + Work(c, workload, cloud) + Handed(Extract(c.intel, 1))
    ensures Count(Budgeted, actions) <= if workload < 0 then 0 else workload
  {
    if !c.known { return []; }
    actions := Handed(Extract(c.stops, MAX_WORK));
    actions := actions + Handed(Extract(c.logs, MAX_WORK));
    FreeOfBudget(c);
    if workload == 0 { return; }
    var work := ExtractWork(c, workload, cloud);
    actions := actions + work;
    actions := actions + Handed(Extract(c.intel, 1));
    PollBudget(c, workload, cloud);
  }

  // ----- the agent -----

  const MAX_AGENT_WORKLOAD := 2
  const MAX_CLOUD_AGENT_WORKLOAD := 2

  function MaxWorkload(cloud: bool): int { if cloud then MAX_CLOUD_AGENT_WORKLOAD else MAX_AGENT_WORKLOAD }

  // The jobs GetScannersWorkloads asks the scanners about; compliance scans are not among them.
  predicate Counted(k: Kind, cloud: bool) {
    if cloud then k.CloudComplianceScan? || k.Refresh?
    else k.SecretScan? || k.MalwareScan? || k.VulnerabilityScan?
  }

  function CountedBy(cloud: bool): Kind -> bool { (k: Kind) => Counted(k, cloud) }
  function UpgradeBy(): Kind -> bool { (k: Kind) => k.Upgrade? }
  function JobBy(cloud: bool): Kind -> bool { (k: Kind) => Counted(k, cloud) || k.Upgrade? }

  // getMaxAllocatable: what is left of the maximum beside the jobs counted, and nothing during an upgrade.
  method GetMaxAllocatable(cloud: bool, scanners: int, upgrading: bool) returns (workload: int)
    ensures workload >= 0
    ensures !upgrading && scanners <= MaxWorkload(cloud) ==> workload + scanners == MaxWorkload(cloud)
    ensures scanners >= MaxWorkload(cloud) || (upgrading && scanners >= 0) ==> workload == 0
    ensures workload == Allocatable(cloud, scanners, upgrading)
  {
    workload := MaxWorkload(cloud) - scanners - (if upgrading then MaxWorkload(cloud) else 0);
    if workload <= 0 { workload := 0; }
  }

  function Allocatable(cloud: bool, scanners: int, upgrading: bool): (w: int)
    ensures 0 <= w && (scanners >= 0 ==> w <= MaxWorkload(cloud))
    ensures upgrading && scanners >= 0 ==> w == 0
    ensures scanners < MaxWorkload(cloud) && !upgrading ==> w + scanners == MaxWorkload(cloud)
  {
    var w := MaxWorkload(cloud) - scanners - (if upgrading then MaxWorkload(cloud) else 0);
    if w <= 0 then 0 else w
  }

  // ----- agent and console together -----

  datatype Agent = Agent(cloud: bool, jobs: seq<Kind>)

  datatype Action =
    | Poll(c: Console)
    | StartUp(waiting: bool, running: seq<Entry>)   // scans handed out again, without a limit
    | End(i: nat)                                   // a job finishes

  function Reported(a: Agent): int {
    Allocatable(a.cloud, Count(CountedBy(a.cloud), a.jobs), Count(UpgradeBy(), a.jobs) > 0)
  }

  predicate Enabled(a: Agent, x: Action) {
    match x
    case Poll(c) => ConsoleOk(c)
    case StartUp(_, running) => forall e :: e in running ==> IsScan(e.kind)
    case End(i) => i < |a.jobs|
  }

  // Only budgeted actions become jobs.
  function Apply(a: Agent, x: Action): Agent
    requires Enabled(a, x)
  {
    match x
    case Poll(c) =>
      if c.known && Reported(a) != 0 then a.(jobs := a.jobs + Work(c, Reported(a), a.cloud)) else a
    case StartUp(waiting, running) =>
      if waiting && Reported(a) != 0 then a.(jobs := a.jobs + Decoded(running)) else a
    case End(i) => a.(jobs := a.jobs[..i] + a.jobs[i + 1..])
  }

  predicate IsRun(a: Agent, xs: seq<Action>)
    decreases |xs|
  {
    xs == [] || (Enabled(a, xs[0]) && IsRun(Apply(a, xs[0]), xs[1..]))
  }

  function Final(a: Agent, xs: seq<Action>): Agent
    requires IsRun(a, xs)
    decreases |xs|
  {
    if xs == [] then a else Final(Apply(a, xs[0]), xs[1..])
  }

  function Load(a: Agent): nat { Count(JobBy(a.cloud), a.jobs) }

  lemma {:induction false} LoadSplits(cloud: bool, ks: seq<Kind>)
    ensures Count(JobBy(cloud), ks) == Count(CountedBy(cloud), ks) + Count(UpgradeBy(), ks)
  {
    if ks != [] { LoadSplits(cloud, ks[..|ks| - 1]); }
  }

  // An agent that reports room has less than its maximum, and reports no more than is missing.
  lemma ReportedRoom(a: Agent)
    ensures Reported(a) != 0 ==> Load(a) + Reported(a) == MaxWorkload(a.cloud)
  {
    LoadSplits(a.cloud, a.jobs);
  }

  lemma GrowsBy(a: Agent, more: seq<Kind>)
    ensures Load(a.(jobs := a.jobs + more)) <= Load(a) + |more|
  {
    CountAppend(JobBy(a.cloud), a.jobs, more);
    CountBounded(JobBy(a.cloud), more);
  }

  lemma PollWithinLoad(a: Agent, c: Console)
    requires ConsoleOk(c)
    ensures Load(Apply(a, Poll(c))) <= Larger(Load(a), MaxWorkload(a.cloud))
  {
    if c.known && Reported(a) != 0 {
      ReportedRoom(a);
      WorkBudgeted(c, Reported(a), a.cloud);
      GrowsBy(a, Work(c, Reported(a), a.cloud));
    }
  }

  function Larger(a: int, b: int): int { if a < b then b else a }

  lemma StartUpWithinLoad(a: Agent, waiting: bool, running: seq<Entry>)
    requires Enabled(a, StartUp(waiting, running))
    ensures Load(Apply(a, StartUp(waiting, running))) <= Larger(Load(a), MaxWorkload(a.cloud) - 1 + |running|)
  {
    if waiting && Reported(a) != 0 {
      ReportedRoom(a);
      GrowsBy(a, Decoded(running));
    }
  }

  lemma EndWithinLoad(a: Agent, i: nat)
    requires i < |a.jobs|
    ensures Load(Apply(a, End(i))) <= Load(a)
    ensures multiset(Apply(a, End(i)).jobs) == multiset(a.jobs) - multiset{a.jobs[i]}
  {
    var p := JobBy(a.cloud);
    assert a.jobs == a.jobs[..i] + [a.jobs[i]] + a.jobs[i + 1..];
    CountAppend(p, a.jobs[..i], [a.jobs[i]]);
    CountAppend(p, a.jobs[..i] + [a.jobs[i]], a.jobs[i + 1..]);
    CountAppend(p, a.jobs[..i], a.jobs[i + 1..]);
  }

  // No start-up finds more than n running scans.
  predicate StartUpsWithin(xs: seq<Action>, n: nat) {
    forall i :: 0 <= i < |xs| && xs[i].StartUp? ==> |xs[i].running| <= n
  }

  // The most jobs there can be if start-ups bring at most n scans back.
  function Bound(cloud: bool, n: nat): int { MaxWorkload(cloud) + if n == 0 then 0 else n - 1 }

  lemma StepWithinBound(a: Agent, x: Action, n: nat)
    requires Enabled(a, x) && Load(a) <= Bound(a.cloud, n) && (x.StartUp? ==> |x.running| <= n)
    ensures Load(Apply(a, x)) <= Bound(a.cloud, n)
  {
    match x
    case Poll(c) => PollWithinLoad(a, c);
    case StartUp(waiting, running) =>
      StartUpWithinLoad(a, waiting, running);
      if running == [] { assert Decoded(running) == [] && a.jobs + [] == a.jobs; }
    case End(i) => EndWithinLoad(a, i);
  }

  /**
   Admission across agent and console: an agent that starts idle and reports accurate job
   counts never has more counted jobs, upgrades included, than its maximum workload if it takes
   work only from polls; a start-up, which has no limit, brings it to at most one less than the
   maximum plus the scans handed out again, and start-ups do not add up.
   */
  lemma {:induction false} WithinMaxWorkload(a: Agent, xs: seq<Action>, n: nat)
    requires Load(a) <= Bound(a.cloud, n) && IsRun(a, xs) && StartUpsWithin(xs, n)
    ensures Final(a, xs).cloud == a.cloud
    ensures Load(Final(a, xs)) <= Bound(a.cloud, n)
    decreases |xs|
  {
    if xs != [] {
      StepWithinBound(a, xs[0], n);
      WithinMaxWorkload(Apply(a, xs[0]), xs[1..], n);
    }
  }

  lemma {:induction false} SameKind(k: Kind, n: nat)
    ensures Decoded(seq(n, _ => Entry(k, true))) == seq(n, _ => k)
  {
    if n > 0 {
      var rows := seq(n, _ => Entry(k, true));
      assert rows[..n - 1] == seq(n - 1, _ => Entry(k, true));
      SameKind(k, n - 1);
      assert seq(n, _ => k) == seq(n - 1, _ => k) + [k];
    }
  }

  // The bound is reached: a host agent one job short of its maximum, started up with n running scans.
  lemma StartUpReaches(n: nat)
    requires n > 0
    ensures var a := Agent(false, [SecretScan]);
      var x := StartUp(true, seq(n, _ => Entry(SecretScan, true)));
      Enabled(a, x) && Load(a) < MaxWorkload(false) && Load(Apply(a, x)) == Bound(false, n)
  {
    var a := Agent(false, [SecretScan]);
    SameKind(SecretScan, n);
    CountAll(CountedBy(false), a.jobs, true);
    CountAll(UpgradeBy(), a.jobs, false);
    CountAll(JobBy(false), a.jobs, true);
    CountAll(JobBy(false), a.jobs + seq(n, _ => SecretScan), true);
  }

  // ----- jobs that are not counted -----

  // Polls only, and only scans of these kinds waiting.
  predicate QueuesOnly(xs: seq<Action>, kinds: set<Kind>) {
    forall i :: 0 <= i < |xs| ==>
      !xs[i].StartUp? && (xs[i].Poll? ==> forall e :: e in xs[i].c.scans.rows ==> e.kind in kinds)
  }

  predicate JobsCounted(a: Agent) { forall k :: k in a.jobs ==> Counted(k, a.cloud) || k.Upgrade? }

  lemma WorkCounted(c: Console, workload: int, cloud: bool)
    requires ConsoleOk(c) && forall e :: e in c.scans.rows ==> Counted(e.kind, cloud)
    ensures forall k :: k in Work(c, workload, cloud) ==> Counted(k, cloud) || k.Upgrade?
  {
  }

  lemma {:induction false} StaysCounted(a: Agent, xs: seq<Action>, kinds: set<Kind>)
    requires JobsCounted(a) && IsRun(a, xs) && QueuesOnly(xs, kinds) && forall k :: k in kinds ==> Counted(k, a.cloud)
    ensures JobsCounted(Final(a, xs)) && Final(a, xs).cloud == a.cloud
    decreases |xs|
  {
    if xs != [] {
      if xs[0].Poll? { WorkCounted(xs[0].c, Reported(a), a.cloud); }
      StaysCounted(Apply(a, xs[0]), xs[1..], kinds);
    }
  }

  // One scan of a kind waiting for the agent.
  function OneWaiting(k: Kind): Console {
    Console(true, Queue([], true), Queue([], true), Queue([], true), Queue([Entry(k, true)], true),
            Queue([], true), Queue([], true))
  }

  predicate AllOf(k: Kind, a: Agent) { forall j :: j in a.jobs ==> j == k }

  lemma PollsUncounted(a: Agent, k: Kind)
    requires IsScan(k) && !Counted(k, a.cloud) && AllOf(k, a)
    ensures Enabled(a, Poll(OneWaiting(k))) && Apply(a, Poll(OneWaiting(k))) == a.(jobs := a.jobs + [k])
  {
    CountAll(CountedBy(a.cloud), a.jobs, false);
    CountAll(UpgradeBy(), a.jobs, false);
    OneWaitingWork(k, a.cloud);
    assert Reported(a) == 2;
  }

  lemma EmptyQueue(limit: nat)
    ensures Extract(Queue([], true), limit) == Extracted([], false)
  {
  }

  lemma OneInQueue(k: Kind)
    ensures Extract(Queue([Entry(k, true)], true), 2) == Extracted([k], false)
  {
    var rows := [Entry(k, true)];
    assert rows[..|rows| - 1] == [] && Decoded(rows) == Decoded([]) + [k];
  }

  lemma OneWaitingWork(k: Kind, cloud: bool)
    ensures Work(OneWaiting(k), 2, cloud) == [k]
  {
    EmptyQueue(2);
    OneInQueue(k);
    EmptyQueue(1);
  }

  /**
   Jobs that are not counted are not bounded: an agent can be handed any number of scans of
   an uncounted kind, one poll after another, while none of them has finished.
   */
  lemma {:induction false} UncountedPileUp(a: Agent, k: Kind, n: nat) returns (xs: seq<Action>)
    requires IsScan(k) && !Counted(k, a.cloud) && AllOf(k, a)
    ensures IsRun(a, xs) && QueuesOnly(xs, {k}) && |Final(a, xs).jobs| == |a.jobs| + n
    decreases n
  {
    if n == 0 {
      xs := [];
    } else {
      PollsUncounted(a, k);
      var x := Poll(OneWaiting(k));
      var rest := UncountedPileUp(Apply(a, x), k, n - 1);
      xs := [x] + rest;
      assert xs[1..] == rest;
    }
  }

  // As compliance scans do on a host.
  lemma CompliancePilesUp(n: nat) returns (xs: seq<Action>)
    ensures IsRun(Agent(false, []), xs) && |Final(Agent(false, []), xs).jobs| == n
  {
    xs := UncountedPileUp(Agent(false, []), ComplianceScan, n);
  }

  /**
   When all jobs stay within the maximum, counted or not: for every set of kinds of scan
   that may be waiting, an idle agent fed by polls keeps to its maximum workload on all
   runs exactly when every one of those kinds is counted.  On a host compliance scans are not.
   */
  lemma AllJobsBoundedExactly(cloud: bool, kinds: set<Kind>)
    requires forall k :: k in kinds ==> IsScan(k)
    ensures (forall xs :: IsRun(Agent(cloud, []), xs) && QueuesOnly(xs, kinds)
                ==> |Final(Agent(cloud, []), xs).jobs| <= MaxWorkload(cloud))
      <==> forall k :: k in kinds ==>
        if cloud then k.CloudComplianceScan? else k.SecretScan? || k.MalwareScan? || k.VulnerabilityScan?
  {
    var a := Agent(cloud, []);
    if k :| k in kinds && !Counted(k, cloud) {
      var xs := UncountedPileUp(a, k, 3);
    } else {
      forall xs | IsRun(a, xs) && QueuesOnly(xs, kinds) ensures |Final(a, xs).jobs| <= MaxWorkload(cloud) {
        WithinMaxWorkload(a, xs, 0);
        StaysCounted(a, xs, kinds);
        CountAll(JobBy(cloud), Final(a, xs).jobs, true);
      }
    }
  }
}
