/**
 Agent versions: which version a node is attached to, which upgrades are scheduled, and
 what happens when an agent starts up and reports its version.  Each transaction with the
 graph store is one step; start-ups of several agents interleave between them.
 */
module Versions {
  import opened Identifiers

  // ----- precedence, by section 11 of Semantic Versioning 2.0.0 -----

  datatype Ident = Num(n: nat) | Alpha(s: string)

  // A release; build metadata has no place in the order.
  datatype Release = Release(major: nat, minor: nat, patch: nat, pre: seq<Ident>)

  function CompareNat(a: nat, b: nat): int { if a < b then -1 else if a > b then 1 else 0 }

  function CompareText(a: string, b: string): int {
    if a == [] && b == [] then 0
    else if a == [] then -1
    else if b == [] then 1
    else if a[0] != b[0] then (if a[0] < b[0] then -1 else 1)
    else CompareText(a[1..], b[1..])
  }

  function CompareIdent(a: Ident, b: Ident): int {
    match (a, b)
    case (Num(n), Num(m)) => CompareNat(n, m)
    case (Num(_), Alpha(_)) => -1
    case (Alpha(_), Num(_)) => 1
    case (Alpha(s), Alpha(t)) => CompareText(s, t)
  }

  // A longer list of identifiers comes after its own prefix.
  function CompareIdents(a: seq<Ident>, b: seq<Ident>): int {
    if a == [] && b == [] then 0
    else if a == [] then -1
    else if b == [] then 1
    else
      var c := CompareIdent(a[0], b[0]);
      if c != 0 then c else CompareIdents(a[1..], b[1..])
  }

  // A pre-release comes before its release.
  function ComparePre(a: seq<Ident>, b: seq<Ident>): int {
    if a == [] && b == [] then 0
    else if a == [] then 1
    else if b == [] then -1
    else CompareIdents(a, b)
  }

  function CompareRelease(a: Release, b: Release): int {
    if a.major != b.major then CompareNat(a.major, b.major)
    else if a.minor != b.minor then CompareNat(a.minor, b.minor)
    else if a.patch != b.patch then CompareNat(a.patch, b.patch)
    else ComparePre(a.pre, b.pre)
  }

  lemma {:induction false} TextOrder(a: string, b: string, c: string)
    ensures CompareText(a, b) == -CompareText(b, a)
    ensures CompareText(a, b) == 0 <==> a == b
    ensures CompareText(a, b) <= 0 && CompareText(b, c) <= 0 ==> CompareText(a, c) <= 0
  {
    if a != [] && b != [] && a[0] == b[0] {
      TextOrder(a[1..], b[1..], if c == [] then [] else c[1..]);
      assert a == [a[0]] + a[1..] && b == [b[0]] + b[1..];
    }
  }

  lemma IdentOrder(a: Ident, b: Ident, c: Ident)
    ensures CompareIdent(a, b) == -CompareIdent(b, a)
    ensures CompareIdent(a, b) == 0 <==> a == b
    ensures CompareIdent(a, b) <= 0 && CompareIdent(b, c) <= 0 ==> CompareIdent(a, c) <= 0
  {
    if a.Alpha? && b.Alpha? {
      TextOrder(a.s, b.s, if c.Alpha? then c.s else []);
    }
  }

  lemma {:induction false} IdentsOrder(a: seq<Ident>, b: seq<Ident>, c: seq<Ident>)
    ensures CompareIdents(a, b) == -CompareIdents(b, a)
    ensures CompareIdents(a, b) == 0 <==> a == b
    ensures CompareIdents(a, b) <= 0 && CompareIdents(b, c) <= 0 ==> CompareIdents(a, c) <= 0
  {
    if a != [] && b != [] {
      var z := if c == [] then a[0] else c[0];
      IdentOrder(a[0], b[0], z);
      IdentOrder(b[0], z, a[0]);
      IdentOrder(z, a[0], b[0]);
      IdentsOrder(a[1..], b[1..], if c == [] then [] else c[1..]);
      assert a == [a[0]] + a[1..] && b == [b[0]] + b[1..];
    }
  }

  // Precedence is a total order on releases.
  lemma ReleaseOrder(a: Release, b: Release, c: Release)
    ensures CompareRelease(a, b) == -CompareRelease(b, a)
    ensures CompareRelease(a, b) == 0 <==> a == b
    ensures CompareRelease(a, b) <= 0 && CompareRelease(b, c) <= 0 ==> CompareRelease(a, c) <= 0
  {
    IdentsOrder(a.pre, b.pre, c.pre);
    IdentsOrder(b.pre, c.pre, a.pre);
  }

  // ----- the direction of the order -----

  lemma {:induction false} CommonText(p: string, a: string, b: string)
    ensures CompareText(p + a, p + b) == CompareText(a, b)
  {
    if p == [] {
      assert p + a == a && p + b == b;
    } else {
      assert (p + a)[1..] == p[1..] + a && (p + b)[1..] == p[1..] + b;
      CommonText(p[1..], a, b);
    }
  }

  lemma {:induction false} CommonIdents(p: seq<Ident>, a: seq<Ident>, b: seq<Ident>)
    ensures CompareIdents(p + a, p + b) == CompareIdents(a, b)
  {
    if p == [] {
      assert p + a == a && p + b == b;
    } else {
      assert (p + a)[1..] == p[1..] + a && (p + b)[1..] == p[1..] + b;
      IdentOrder(p[0], p[0], p[0]);
      CommonIdents(p[1..], a, b);
    }
  }

  // Identifiers: numbers by value, a number below every text, texts at their first difference.
  lemma IdentDirection(n: nat, m: nat, p: string, a: string, b: string)
    ensures n > m ==> CompareIdent(Num(n), Num(m)) > 0
    ensures CompareIdent(Alpha(a), Num(n)) > 0
    ensures a != [] ==> CompareIdent(Alpha(p + a), Alpha(p)) > 0
    ensures a != [] && b != [] && a[0] > b[0] ==> CompareIdent(Alpha(p + a), Alpha(p + b)) > 0
  {
    CommonText(p, a, b);
    CommonText(p, a, []);
    assert p + [] == p;
  }

  // Lists of identifiers: at their first difference, and a longer list above its prefix.
  lemma IdentsDirection(p: seq<Ident>, a: seq<Ident>, b: seq<Ident>)
    ensures a != [] ==> CompareIdents(p + a, p) > 0
    ensures a != [] && b != [] && CompareIdent(a[0], b[0]) > 0 ==> CompareIdents(p + a, p + b) > 0
  {
    CommonIdents(p, a, b);
    CommonIdents(p, a, []);
    assert p + [] == p;
  }

  /**
   Which of two releases is newer: the larger major number, then the larger minor one, then the
   larger patch; at equal numbers the release before its pre-releases, and of two
   pre-releases the one whose identifiers are larger at the first difference or go on.
   */
  lemma PrecedenceDirection(a: Release, b: Release, p: seq<Ident>, x: seq<Ident>, y: seq<Ident>)
    ensures a.major > b.major ==> CompareRelease(a, b) > 0
    ensures a.major == b.major && a.minor > b.minor ==> CompareRelease(a, b) > 0
    ensures a.major == b.major && a.minor == b.minor && a.patch > b.patch ==> CompareRelease(a, b) > 0
    ensures a.pre != [] ==> CompareRelease(a.(pre := []), a) > 0
    ensures p != [] && x != [] ==> CompareRelease(a.(pre := p + x), a.(pre := p)) > 0
    ensures x != [] && y != [] && CompareIdent(x[0], y[0]) > 0 ==>
      CompareRelease(a.(pre := p + x), a.(pre := p + y)) > 0
  {
    IdentsDirection(p, x, y);
  }

  // What a version string parses to, for the valid ones; an invalid string is below every valid one.
  type Parser = map<string, Release>

  predicate Newer(sem: Parser, v: string, w: string) {
    v in sem && (w in sem ==> CompareRelease(sem[v], sem[w]) > 0)
  }

  lemma NewerStrict(sem: Parser, v: string, w: string)
    requires Newer(sem, v, w)
    ensures v != w && !Newer(sem, w, v)
  {
    if w in sem { ReleaseOrder(sem[v], sem[w], sem[v]); }
  }

  // A valid version is newer than an invalid one, an invalid one than none, and of two valid ones the later release.
  lemma NewerDirection(sem: Parser, v: string, w: string)
    ensures v !in sem ==> !Newer(sem, v, w)
    ensures v in sem && w !in sem ==> Newer(sem, v, w)
    ensures v in sem && w in sem && sem[v].major > sem[w].major ==> Newer(sem, v, w)
  {
    if v in sem && w in sem { PrecedenceDirection(sem[v], sem[w], [], [], []); }
  }

  // ----- the graph -----

  datatype Node = Node(id: string, nodeType: string)
  datatype Status = Starting | InProgress
  datatype Schedule = Schedule(version: string, node: Node, status: Status, retries: nat, updatedAt: int)
  datatype Attachment = Attachment(node: Node, version: string)

  datatype Graph = Graph(
    nodes: set<Node>,
    versions: set<string>,
    versioned: set<Attachment>,
    scheduled: set<Schedule>)

  function Attached(g: Graph, id: string): set<Attachment> { set e | e in g.versioned && e.node.id == id }

  function Schedules(g: Graph, version: string, id: string): set<Schedule> {
    set e | e in g.scheduled && e.version == version && e.node.id == id
  }

  function Nodes(g: Graph, id: string): set<Node> { set n | n in g.nodes && n.id == id }

  // ----- the transactions -----

  // hasPendingUpgradeOrNew: one row means one node and at most one schedule; anything else reads as true.
  predicate HasPendingOrNew(g: Graph, version: string, id: string) {
    if version in g.versions && |Nodes(g, id)| == 1 && |Schedules(g, version, id)| <= 1
    then Schedules(g, version, id) != {} || !(exists e :: e in Attached(g, id) && e.version == version)
    else true
  }

  // wasAttachedToNewer: the previous version if it is newer than the reported one.
  function NewerBefore(g: Graph, sem: Parser, version: string, id: string): Option<string> {
    var es := Attached(g, id);
    if |es| == 1 then
      var e := Only(es);
      if Newer(sem, e.version, version) then Some(e.version) else None
    else None
  }

  // What is seen of a node with one version: that version exactly if it is newer than the reported one.
  lemma SeenExactly(g: Graph, sem: Parser, version: string, n: Node, was: string)
    requires Attached(g, n.id) == {Attachment(n, was)}
    ensures NewerBefore(g, sem, version, n.id) == if Newer(sem, was, version) then Some(was) else None
  {
    OnlyExists(Attached(g, n.id));
  }

  function Only(es: set<Attachment>): Attachment
    requires |es| == 1
  {
    OnlyExists(es);
    var e :| e in es && es == {e}; e
  }

  lemma OnlyExists(es: set<Attachment>)
    requires |es| == 1
    ensures exists e :: e in es && es == {e}
  {
    assert es != {};
    var e :| e in es;
    assert |es - {e}| == 0;
    assert es == {e};
  }

  // The write: drop every attachment of the id, attach the merged node, drop its schedules from the version.
  function Attach(g: Graph, version: string, node: Node): Graph {
    Graph(
      g.nodes + {node},
      g.versions + {version},
      g.versioned - Attached(g, node.id) + {Attachment(node, version)},
      set e | e in g.scheduled && !(e.version == version && e.node == node))
  }

  // ScheduleAgentUpgrade, for every node with one of the ids.
  function Scheduled(g: Graph, version: string, ids: set<string>, now: int): Graph {
    if version !in g.versions then g
    else g.(scheduled := g.scheduled + (set n | n in g.nodes && n.id in ids :: Schedule(version, n, Starting, 0, now)))
  }

  ghost predicate GraphOk(g: Graph) {
    && (forall e :: e in g.versioned ==> e.node in g.nodes && e.version in g.versions)
    && (forall e, f :: e in g.versioned && f in g.versioned && e.node.id == f.node.id ==> e == f)
    && (forall e :: e in g.scheduled ==> e.node in g.nodes && e.version in g.versions)
  }

  lemma AttachOk(g: Graph, version: string, node: Node)
    requires GraphOk(g)
    ensures var h := Attach(g, version, node);
      && GraphOk(h) && SettledOn(h, version, node)
      && (forall id :: id != node.id ==> Attached(h, id) == Attached(g, id))
      && (forall e: Schedule :: e.node != node || e.version != version ==> (e in h.scheduled <==> e in g.scheduled))
  {
  }

  lemma ScheduledOk(g: Graph, version: string, ids: set<string>, now: int)
    requires GraphOk(g)
    ensures GraphOk(Scheduled(g, version, ids, now))
    ensures Scheduled(g, version, ids, now).versioned == g.versioned
    ensures forall e: Schedule :: e.node.id !in ids ==>
      (e in Scheduled(g, version, ids, now).scheduled <==> e in g.scheduled)
  {
  }

  lemma {:induction false} SmallSet<T>(s: set<T>)
    requires forall x, y :: x in s && y in s ==> x == y
    ensures |s| <= 1
  {
    if x :| x in s { assert s == {x}; }
  }

  // ----- one start-up, undisturbed -----

  // The node is attached to this version only, and no upgrade to it is left.
  ghost predicate SettledOn(g: Graph, version: string, n: Node) {
    && Attached(g, n.id) == {Attachment(n, version)}
    && forall e :: e in g.scheduled ==> !(e.version == version && e.node == n)
  }

  ghost predicate Settled(g: Graph, version: string, id: string) {
    exists n: Node :: n.id == id && SettledOn(g, version, n)
  }

  datatype Outcome = Done | Error

  class VersionStore {
    var graph: Graph
    const sem: Parser

    constructor (g: Graph, sem: Parser)
      ensures graph == g && this.sem == sem
    {
      graph := g;
      this.sem := sem;
    }

    /**
     CompleteAgentUpgrade: a call that succeeds leaves the node attached to the reported
     version only, with no upgrade to that version left on it; if it was attached to a newer
     version before, an upgrade back to that version is waiting.
     */
    method CompleteAgentUpgrade(version: string, node: Node, now: int, prepared: bool) returns (r: Outcome)
      requires GraphOk(graph)
      modifies this`graph
      ensures GraphOk(graph)
      ensures r.Done? ==>
        && Settled(graph, version, node.id)
        && (forall prev :: NewerBefore(old(graph), sem, version, node.id) == Some(prev) ==>
              Schedule(prev, node, Starting, 0, now) in graph.scheduled)
      ensures forall id :: id != node.id ==> Attached(graph, id) == Attached(old(graph), id)
      ensures forall e: Schedule :: e.node.id != node.id ==> (e in graph.scheduled <==> e in old(graph).scheduled)
      ensures forall e :: e in old(graph).scheduled && e.version != version ==> e in graph.scheduled
    {
      if !HasPendingOrNew(graph, version, node.id) {
        NothingToDo(graph, sem, version, node.id);
        return Done;
      }
      var newer := NewerBefore(graph, sem, version, node.id);
      AttachOk(graph, version, node);
      PreviousKnown(graph, sem, version, node.id);
      graph := Attach(graph, version, node);
      if newer.Some? {
        if !prepared { return Error; }
        ScheduledOk(graph, newer.value, {node.id}, now);
        graph := Scheduled(graph, newer.value, {node.id}, now);
      }
      return Done;
    }
  }

  // A start-up that finds nothing to do finds the node where it should be.
  lemma NothingToDo(g: Graph, sem: Parser, version: string, id: string)
    requires GraphOk(g) && !HasPendingOrNew(g, version, id)
    ensures Settled(g, version, id)
    ensures NewerBefore(g, sem, version, id) == None
  {
    var e :| e in Attached(g, id) && e.version == version;
    assert forall f :: f in Attached(g, id) ==> f == e;
    assert Attached(g, id) == {e};
    assert e == Attachment(e.node, version);
    forall f | f in g.scheduled ensures !(f.version == version && f.node == e.node) {
      assert f !in Schedules(g, version, id);
    }
    if Newer(sem, version, version) { NewerStrict(sem, version, version); }
    OnlyExists(Attached(g, id));
    assert Only(Attached(g, id)) == e;
    assert SettledOn(g, version, e.node);
  }

  lemma NoneScheduled(g: Graph, version: string, n: Node)
    requires GraphOk(g) && Nodes(g, n.id) == {n} && SettledOn(g, version, n)
    ensures Schedules(g, version, n.id) == {}
  {
    forall e | e in g.scheduled && e.node.id == n.id ensures e.node == n { assert e.node in Nodes(g, n.id); }
  }

  predicate KnownOnce(g: Graph, version: string, n: Node) { Nodes(g, n.id) == {n} && version in g.versions }

  // Of a node that is known once, it finds nothing to do exactly when the node is where it should be.
  lemma NothingToDoExactly(g: Graph, version: string, n: Node)
    requires GraphOk(g) && KnownOnce(g, version, n) && |Schedules(g, version, n.id)| <= 1
    ensures !HasPendingOrNew(g, version, n.id) <==> SettledOn(g, version, n)
  {
    assert |Nodes(g, n.id)| == 1;
    if SettledOn(g, version, n) {
      NoneScheduled(g, version, n);
      assert Attachment(n, version) in Attached(g, n.id);
    }
    if !HasPendingOrNew(g, version, n.id) {
      NothingToDo(g, map[], version, n.id);
      var m: Node :| m.id == n.id && SettledOn(g, version, m);
      assert Attachment(m, version) in Attached(g, n.id);
      assert m in Nodes(g, n.id);
    }
  }

  lemma PreviousKnown(g: Graph, sem: Parser, version: string, id: string)
    requires GraphOk(g)
    ensures var p := NewerBefore(g, sem, version, id); p.Some? ==> p.value in g.versions && p.value != version
  {
    var p := NewerBefore(g, sem, version, id);
    if p.Some? {
      OnlyExists(Attached(g, id));
      NewerStrict(sem, p.value, version);
    }
  }

  // ----- many start-ups at once -----

  // Where one call of CompleteAgentUpgrade is between its transactions.
  datatype Caller =
    | Idle
    | Checked(version: string, node: Node)
    | Compared(version: string, node: Node, newer: Option<string>)
    | Wrote(version: string, node: Node, newer: Option<string>)

  datatype World = World(g: Graph, sem: Parser, callers: seq<Caller>, now: int)

  datatype Action =
    | Begin(i: nat, version: string, node: Node)
    | Compare(i: nat)
    | Write(i: nat)
    | Finish(i: nat, prepared: bool)
    | Give(i: nat)                                        // an error ends the call
    | Plan(version: string, ids: set<string>)             // an operator schedules upgrades
    | Extract(e: Schedule)                                // a poll takes an upgrade
    | Pass(dt: nat)

  predicate Enabled(w: World, a: Action) {
    match a
    case Begin(i, _, _) => i < |w.callers| && w.callers[i].Idle?
    case Compare(i) => i < |w.callers| && w.callers[i].Checked?
    case Write(i) => i < |w.callers| && w.callers[i].Compared?
    case Finish(i, _) => i < |w.callers| && w.callers[i].Wrote?
    case Give(i) => i < |w.callers|
    case Plan(_, _) => true
    case Extract(e) => e in w.g.scheduled
    case Pass(_) => true
  }

  function Apply(w: World, a: Action): World
    requires Enabled(w, a)
  {
    match a
    case Begin(i, version, node) =>
      if HasPendingOrNew(w.g, version, node.id) then w.(callers := w.callers[i := Checked(version, node)]) else w
    case Compare(i) =>
      var c := w.callers[i];
      w.(callers := w.callers[i := Compared(c.version, c.node, NewerBefore(w.g, w.sem, c.version, c.node.id))])
    case Write(i) =>
      var c := w.callers[i];
      w.(g := Attach(w.g, c.version, c.node), callers := w.callers[i := Wrote(c.version, c.node, c.newer)])
    case Finish(i, prepared) =>
      var c := w.callers[i];
      w.(g := if c.newer.Some? && prepared then Scheduled(w.g, c.newer.value, {c.node.id}, w.now) else w.g,
         callers := w.callers[i := Idle])
    case Give(i) => w.(callers := w.callers[i := Idle])
    case Plan(version, ids) => w.(g := Scheduled(w.g, version, ids, w.now))
    case Extract(e) => w.(g := w.g.(scheduled := w.g.scheduled - {e} + {e.(status := InProgress)}))
    case Pass(dt) => w.(now := w.now + dt)
  }

  predicate IsRun(w: World, acts: seq<Action>)
    decreases |acts|
  {
    acts == [] || (Enabled(w, acts[0]) && IsRun(Apply(w, acts[0]), acts[1..]))
  }

  function Final(w: World, acts: seq<Action>): World
    requires IsRun(w, acts)
    decreases |acts|
  {
    if acts == [] then w else Final(Apply(w, acts[0]), acts[1..])
  }

  lemma StepOk(w: World, a: Action)
    requires GraphOk(w.g) && Enabled(w, a)
    ensures GraphOk(Apply(w, a).g)
  {
    match a
    case Write(i) => AttachOk(w.g, w.callers[i].version, w.callers[i].node);
    case Finish(i, prepared) =>
      if w.callers[i].newer.Some? { ScheduledOk(w.g, w.callers[i].newer.value, {w.callers[i].node.id}, w.now); }
    case Plan(version, ids) => ScheduledOk(w.g, version, ids, w.now);
    case _ =>
  }

  lemma {:induction false} RunOk(w: World, acts: seq<Action>)
    requires GraphOk(w.g) && IsRun(w, acts)
    ensures GraphOk(Final(w, acts).g)
    decreases |acts|
  {
    if acts != [] {
      StepOk(w, acts[0]);
      RunOk(Apply(w, acts[0]), acts[1..]);
    }
  }

  /**
   Version attachment: whatever the interleaving of start-ups, of operators scheduling
   upgrades and of polls, a node id has at most one version, even if the id is in the
   graph under several node types.
   */
  lemma OneVersion(w: World, acts: seq<Action>, id: string)
    requires GraphOk(w.g) && IsRun(w, acts)
    ensures |Attached(Final(w, acts).g, id)| <= 1
  {
    RunOk(w, acts);
    SmallSet(Attached(Final(w, acts).g, id));
  }

  // ----- what every call leaves, however the calls interleave -----

  // What a caller has seen is still known to the graph.
  ghost predicate CallerOk(w: World, c: Caller) {
    && (c.Compared? || c.Wrote? ==> c.newer.Some? ==>
          c.newer.value in w.g.versions && Newer(w.sem, c.newer.value, c.version))
    && (c.Wrote? ==> c.node in w.g.nodes)
  }

  ghost predicate WorldOk(w: World) {
    GraphOk(w.g) && forall i :: 0 <= i < |w.callers| ==> CallerOk(w, w.callers[i])
  }

  lemma ComparedOk(w: World, i: nat)
    requires GraphOk(w.g) && Enabled(w, Compare(i))
    ensures CallerOk(Apply(w, Compare(i)), Apply(w, Compare(i)).callers[i])
  {
    var c := w.callers[i];
    PreviousKnown(w.g, w.sem, c.version, c.node.id);
    if |Attached(w.g, c.node.id)| == 1 { OnlyExists(Attached(w.g, c.node.id)); }
  }

  lemma WorldStep(w: World, a: Action)
    requires WorldOk(w) && Enabled(w, a)
    ensures WorldOk(Apply(w, a))
  {
    var v := Apply(w, a);
    StepOk(w, a);
    if a.Compare? { ComparedOk(w, a.i); }
    assert w.g.nodes <= v.g.nodes && w.g.versions <= v.g.versions;
    forall i | 0 <= i < |v.callers| ensures CallerOk(v, v.callers[i]) {
      assert CallerOk(w, w.callers[i]);
    }
  }

  lemma {:induction false} WorldRun(w: World, acts: seq<Action>)
    requires WorldOk(w) && IsRun(w, acts)
    ensures WorldOk(Final(w, acts))
    decreases |acts|
  {
    if acts != [] {
      WorldStep(w, acts[0]);
      WorldRun(Apply(w, acts[0]), acts[1..]);
    }
  }

  /**
   Every call, in every interleaving: it does nothing for a node that is known once and where it
   should be; its write leaves the node on the reported version only, with no upgrade to it; and
   its last transaction, if it has seen a newer version before, leaves an upgrade back to that
   version waiting.  A poll takes an upgrade into progress.
   */
  lemma CallsOverRuns(w: World, acts: seq<Action>, a: Action)
    requires GraphOk(w.g) && (forall i :: 0 <= i < |w.callers| ==> w.callers[i].Idle?)
    requires IsRun(w, acts) && Enabled(Final(w, acts), a)
    ensures var u, v := Final(w, acts), Apply(Final(w, acts), a);
      && (a.Begin? && KnownOnce(u.g, a.version, a.node) && SettledOn(u.g, a.version, a.node) ==> v == u)
      && (a.Extract? ==> a.e.(status := InProgress) in v.g.scheduled)
      && (a.Extract? && a.e.status.Starting? ==> a.e !in v.g.scheduled)
      && (a.Write? ==> SettledOn(v.g, u.callers[a.i].version, u.callers[a.i].node))
      && (a.Finish? && a.prepared && u.callers[a.i].newer.Some? ==>
            var c := u.callers[a.i];
            && Newer(u.sem, c.newer.value, c.version)
            && Schedule(c.newer.value, c.node, Starting, 0, u.now) in v.g.scheduled)
  {
    WorldRun(w, acts);
    var u := Final(w, acts);
    if a.Begin? && KnownOnce(u.g, a.version, a.node) && SettledOn(u.g, a.version, a.node) {
      NoneScheduled(u.g, a.version, a.node);
      NothingToDoExactly(u.g, a.version, a.node);
    }
    if a.Write? { AttachOk(u.g, u.callers[a.i].version, u.callers[a.i].node); }
    if a.Finish? { assert CallerOk(u, u.callers[a.i]); }
  }

  // ----- a scheduled upgrade stays -----

  ghost predicate Waits(g: Graph, version: string, n: Node) {
    exists e :: e in g.scheduled && e.version == version && e.node == n
  }

  // The step reports the version for the node.
  predicate Settles(w: World, a: Action, version: string, n: Node)
    requires Enabled(w, a)
  {
    a.Write? && w.callers[a.i].version == version && w.callers[a.i].node == n
  }

  ghost predicate NeverSettles(w: World, acts: seq<Action>, version: string, n: Node)
    requires IsRun(w, acts)
    decreases |acts|
  {
    acts == [] || (!Settles(w, acts[0], version, n) && NeverSettles(Apply(w, acts[0]), acts[1..], version, n))
  }

  lemma StaysStep(w: World, a: Action, version: string, n: Node)
    requires Enabled(w, a) && Waits(w.g, version, n)
    ensures Waits(Apply(w, a).g, version, n) <==> !Settles(w, a, version, n)
  {
    var v := Apply(w, a);
    var e :| e in w.g.scheduled && e.version == version && e.node == n;
    if a.Extract? && a.e == e {
      assert e.(status := InProgress) in v.g.scheduled;
    } else if !Settles(w, a, version, n) {
      assert e in v.g.scheduled;
    }
  }

  // An upgrade stays scheduled, whatever else happens, until its node reports the version.
  lemma {:induction false} UpgradeStays(w: World, acts: seq<Action>, version: string, n: Node)
    requires IsRun(w, acts) && Waits(w.g, version, n) && NeverSettles(w, acts, version, n)
    ensures Waits(Final(w, acts).g, version, n)
    decreases |acts|
  {
    if acts != [] {
      StaysStep(w, acts[0], version, n);
      UpgradeStays(Apply(w, acts[0]), acts[1..], version, n);
    }
  }

  // ----- whether the version seen is the one that is left -----

  // What the caller has seen is what its write replaces.
  predicate Current(w: World, i: nat)
    requires i < |w.callers| && w.callers[i].Compared?
  {
    var c := w.callers[i];
    c.newer == NewerBefore(w.g, w.sem, c.version, c.node.id)
  }

  predicate Owns(a: Action, i: nat) {
    (a.Begin? || a.Compare? || a.Write? || a.Finish? || a.Give?) && a.i == i
  }

  // Others take steps, none of which attaches this node id.
  ghost predicate Undisturbed(w: World, acts: seq<Action>, i: nat, id: string)
    requires IsRun(w, acts)
    decreases |acts|
  {
    acts == [] ||
    (!Owns(acts[0], i) && (acts[0].Write? ==> w.callers[acts[0].i].node.id != id)
     && Undisturbed(Apply(w, acts[0]), acts[1..], i, id))
  }

  lemma AttachedKept(w: World, a: Action, id: string)
    requires Enabled(w, a) && (a.Write? ==> w.callers[a.i].node.id != id)
    ensures Attached(Apply(w, a).g, id) == Attached(w.g, id)
  {
  }

  // A view stays current as long as no other call attaches the node in between.
  lemma {:induction false} StaysCurrent(w: World, acts: seq<Action>, i: nat)
    requires i < |w.callers| && w.callers[i].Compared? && Current(w, i) && IsRun(w, acts)
    requires Undisturbed(w, acts, i, w.callers[i].node.id)
    ensures var u := Final(w, acts); i < |u.callers| && u.callers[i] == w.callers[i] && Current(u, i)
    decreases |acts|
  {
    if acts != [] {
      AttachedKept(w, acts[0], w.callers[i].node.id);
      StaysCurrent(Apply(w, acts[0]), acts[1..], i);
    }
  }

  /**
   Exactly when a call that takes a node off a newer version leads back to it: when what
   the call has seen is still current at its write.
   */
  lemma LeadsBackExactly(w: World, i: nat)
    requires WorldOk(w) && Enabled(w, Write(i))
    requires var c := w.callers[i];
      var prev := NewerBefore(w.g, w.sem, c.version, c.node.id);
      prev.Some? && forall e :: e in w.g.scheduled ==> !(e.version == prev.value && e.node == c.node)
    ensures var c := w.callers[i];
      var v := Apply(Apply(w, Write(i)), Finish(i, true));
      var prev := NewerBefore(w.g, w.sem, c.version, c.node.id).value;
      (exists e :: e in v.g.scheduled && e.version == prev && e.node == c.node) <==> Current(w, i)
  {
    var c := w.callers[i];
    WorldStep(w, Write(i));
    var u := Apply(w, Write(i));
    var v := Apply(u, Finish(i, true));
    assert CallerOk(u, u.callers[i]);
    if Current(w, i) {
      assert Schedule(c.newer.value, c.node, Starting, 0, u.now) in v.g.scheduled;
    }
  }

  /**
   It need not be: of two start-ups of one node, the second attaches it to a newer version
   after the first has looked, and the first, which then takes it off, has seen nothing.
   */
  lemma StaleView(w: World, node: Node, was: string, low: string, high: string)
    requires |w.callers| == 2 && w.callers[0].Idle? && w.callers[1].Idle?
    requires Attached(w.g, node.id) == {Attachment(node, was)} && low !in w.g.versions && high !in w.g.versions
    requires !Newer(w.sem, was, low) && Newer(w.sem, high, low)
    ensures var v := Apply(Apply(Apply(Apply(Apply(w, Begin(0, low, node)), Compare(0)), Begin(1, high, node)),
                                 Compare(1)), Write(1));
      && Enabled(v, Write(0)) && !Current(v, 0) && NewerBefore(v.g, v.sem, low, node.id) == Some(high)
  {
    var w2 := Apply(Apply(w, Begin(0, low, node)), Compare(0));
    OnlyExists(Attached(w.g, node.id));
    assert w2.callers[0] == Compared(low, node, None) && w2.g == w.g;
    var v := Apply(Apply(Apply(w2, Begin(1, high, node)), Compare(1)), Write(1));
    assert Attached(v.g, node.id) == {Attachment(node, high)};
    OnlyExists(Attached(v.g, node.id));
  }
}
