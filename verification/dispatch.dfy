/**
 Dispatch of scans to one agent: the console hands out waiting scans at every poll, by
 priority and then age, and hands running scans out again when an agent starts up.

 A poll commits its status changes only if it has something to hand out.  The start-up
 query commits too, but its scans are handed out even if that commit fails.
 */
module Dispatch {
  type Id = nat

  datatype Status = Starting | InProgress | Success | Failed | CancelPending | Cancelling | Cancelled

  datatype Scan = Scan(
    status: Status, retries: nat, priority: bool, updatedAt: int,
    wellFormed: bool,      // the stored action can be decoded
    ready: bool)           // the cloud account is refreshed and active

  datatype State = State(
    cloud: bool,                    // the agent is a cloud agent
    scans: map<Id, Scan>,           // the scans scheduled on the agent
    now: int,
    handedOut: multiset<Id>,        // once per action sent to the agent
    lostCommits: nat)               // start-ups whose commit failed

  const MAX_RETRIES: nat := 3

  // ----- selection -----

  predicate Pending(x: Scan) { x.status.Starting? && x.retries < MAX_RETRIES }

  predicate Eligible(s: State, id: Id) {
    id in s.scans && Pending(s.scans[id]) && (s.cloud ==> s.scans[id].ready)
  }

  predicate Ahead(x: Scan, y: Scan) {
    (x.priority && !y.priority) || (x.priority == y.priority && x.updatedAt < y.updatedAt)
  }

  function Eligibles(s: State): set<Id> { set id | id in s.scans && Eligible(s, id) }

  function Min(a: int, b: int): int { if a < b then a else b }

  // The first k of a set of scans in the order, ties in any order.
  ghost predicate FirstK(scans: map<Id, Scan>, e: set<Id>, k: nat, picked: seq<Id>)
    requires e <= scans.Keys
  {
    && |picked| == Min(k, |e|)
    && (forall i :: 0 <= i < |picked| ==> picked[i] in e)
    && (forall i, j :: 0 <= i < j < |picked| ==> picked[i] != picked[j] && !Ahead(scans[picked[j]], scans[picked[i]]))
    && (forall i, id :: 0 <= i < |picked| && id in e && id !in picked ==> !Ahead(scans[id], scans[picked[i]]))
  }

  // The rows of the ordered query with a limit.
  ghost predicate TopK(s: State, k: nat, picked: seq<Id>) { FirstK(s.scans, Eligibles(s), k, picked) }

  lemma {:induction false} Foremost(scans: map<Id, Scan>, e: set<Id>) returns (m: Id)
    requires e <= scans.Keys && e != {}
    ensures m in e && forall x :: x in e ==> !Ahead(scans[x], scans[m])
    decreases e
  {
    m :| m in e;
    if e != {m} {
      var m' := Foremost(scans, e - {m});
      if !Ahead(scans[m], scans[m']) { m := m'; }
    }
  }

  lemma {:induction false} PickFirst(scans: map<Id, Scan>, e: set<Id>, k: nat) returns (picked: seq<Id>)
    requires e <= scans.Keys
    ensures FirstK(scans, e, k, picked)
    decreases k
  {
    if k == 0 || e == {} {
      picked := [];
    } else {
      var m := Foremost(scans, e);
      var rest := PickFirst(scans, e - {m}, k - 1);
      picked := [m] + rest;
      forall i, j | 0 <= i < j < |picked|
        ensures picked[i] != picked[j] && !Ahead(scans[picked[j]], scans[picked[i]])
      {
        assert picked[j] == rest[j - 1];
        if i > 0 { assert picked[i] == rest[i - 1]; }
      }
      forall i, id | 0 <= i < |picked| && id in e && id !in picked ensures !Ahead(scans[id], scans[picked[i]]) {
        if i > 0 { assert picked[i] == rest[i - 1] && id in e - {m}; }
      }
    }
  }

  // Every poll has a selection: the ordered query always has an answer.
  lemma TopKExists(s: State, k: nat) returns (picked: seq<Id>)
    ensures TopK(s, k, picked)
  {
    picked := PickFirst(s.scans, Eligibles(s), k);
  }

  // ----- steps -----

  datatype Action =
    | Poll(k: int, picked: seq<Id>, commits: bool)
    | StartUp(workload: int, commits: bool)
    | Arrive(id: Id, priority: bool, wellFormed: bool, ready: bool)
    | Outside(id: Id, status: Status)        // status ingest, cancellation
    | Reset(id: Id)                          // the retry job sets a scan that takes too long back
    | SetReady(id: Id, ready: bool)          // the cloud account is refreshed, activated or neither
    | Pass(dt: nat)

  predicate HasPending(s: State) { exists id :: id in s.scans && Pending(s.scans[id]) }

  // Only the retry job sets a scan back to waiting.
  ghost predicate Enabled(s: State, a: Action) {
    match a
    case Poll(k, picked, _) => if k <= 0 then picked == [] else TopK(s, k, picked)
    case StartUp(_, _) => true
    case Arrive(id, _, _, _) => id !in s.scans && s.handedOut[id] == 0
    case Outside(id, status) => id in s.scans && !status.Starting?
    case Reset(id) =>
      && id in s.scans && s.scans[id].status.InProgress? && s.scans[id].retries < MAX_RETRIES
      && s.scans[id].updatedAt < s.now
    case SetReady(id, _) => id in s.scans
    case Pass(_) => true
  }

  predicate SomeWellFormed(s: State, ids: set<Id>)
    requires ids <= s.scans.Keys
  {
    exists id :: id in ids && s.scans[id].wellFormed
  }

  function Elements(picked: seq<Id>): set<Id> { set id | id in picked }

  // The polled scans that are sent to the agent.
  function Sent(s: State, ids: set<Id>): set<Id>
    requires ids <= s.scans.Keys
  {
    set id | id in ids && s.scans[id].wellFormed
  }

  function Taken(s: State, ids: set<Id>): map<Id, Scan> {
    map id | id in s.scans ::
      if id in ids then s.scans[id].(status := InProgress, updatedAt := s.now) else s.scans[id]
  }

  // The running scans a start-up hands out again.
  function Redelivered(s: State): set<Id> {
    set id | id in s.scans && s.scans[id].status.InProgress? && s.scans[id].retries < MAX_RETRIES
  }

  function Retried(s: State): map<Id, Scan> {
    map id | id in s.scans ::
      if id in Redelivered(s) then s.scans[id].(retries := s.scans[id].retries + 1) else s.scans[id]
  }

  function Apply(s: State, a: Action): State
    requires a.Poll? ==> Elements(a.picked) <= s.scans.Keys
    requires a.Outside? || a.Reset? || a.SetReady? ==> a.id in s.scans
  {
    match a
    case Poll(k, picked, commits) =>
      var ids := Elements(picked);
      // a failed commit is an error, and the actions of a poll with an error are not sent
      if SomeWellFormed(s, ids) && commits
      then s.(scans := Taken(s, ids), handedOut := s.handedOut + multiset(Sent(s, ids)))
      else s
    case StartUp(workload, commits) =>
      // gated on a waiting scan, although running scans are what it returns
      if workload <= 0 || !HasPending(s) || !SomeWellFormed(s, Redelivered(s)) then s
      else
        s.(scans := if commits then Retried(s) else s.scans,
           handedOut := s.handedOut + multiset(Sent(s, Redelivered(s))),
           lostCommits := if commits then s.lostCommits else s.lostCommits + 1)
    case Arrive(id, priority, wellFormed, ready) =>
      s.(scans := s.scans[id := Scan(Starting, 0, priority, s.now, wellFormed, ready)])
    case Outside(id, status) =>
      s.(scans := s.scans[id := s.scans[id].(status := status, updatedAt := s.now)])
    case Reset(id) =>
      // its age stays what it was
      s.(scans := s.scans[id := s.scans[id].(status := Starting, retries := s.scans[id].retries + 1)])
    case SetReady(id, ready) => s.(scans := s.scans[id := s.scans[id].(ready := ready)])
    case Pass(dt) => s.(now := s.now + dt)
  }

  lemma PickedKnown(s: State, a: Action)
    requires Enabled(s, a) && a.Poll?
    ensures Elements(a.picked) <= s.scans.Keys
    ensures forall id :: id in Elements(a.picked) ==> Eligible(s, id)
  {
  }

  ghost predicate IsRun(s: State, acts: seq<Action>)
    decreases |acts|
  {
    acts == [] ||
    (Enabled(s, acts[0]) && (if acts[0].Poll? then PickedKnown(s, acts[0]); true else true)
     && IsRun(Apply(s, acts[0]), acts[1..]))
  }

  ghost function Final(s: State, acts: seq<Action>): State
    requires IsRun(s, acts)
    decreases |acts|
  {
    if acts == [] then s else Final(Apply(s, acts[0]), acts[1..])
  }

  // ----- how often a scan is handed out -----

  function Left(x: Scan): nat {
    (if x.status.Starting? then 1 else 0) + if x.retries < MAX_RETRIES then MAX_RETRIES - x.retries else 0
  }

  ghost predicate DeliveryOk(s: State, id: Id) {
    s.handedOut[id] + (if id in s.scans then Left(s.scans[id]) else 0) <= 4 + s.lostCommits
  }

  lemma DeliveryStep(s: State, a: Action, id: Id)
    requires Enabled(s, a) && DeliveryOk(s, id)
    requires a.Poll? ==> Elements(a.picked) <= s.scans.Keys
    ensures DeliveryOk(Apply(s, a), id)
  {
    if a.Poll? { PickedKnown(s, a); }
  }

  lemma {:induction false} DeliveryRun(s: State, acts: seq<Action>, id: Id)
    requires IsRun(s, acts) && DeliveryOk(s, id)
    ensures DeliveryOk(Final(s, acts), id)
    decreases |acts|
  {
    if acts != [] {
      DeliveryStep(s, acts[0], id);
      DeliveryRun(Apply(s, acts[0]), acts[1..], id);
    }
  }

  /**
   Delivery bound: a scan is handed out at most four times, the first time by a poll, then at
   start-up or by a poll after the retry job has set it back, and once more for every
   start-up whose commit failed.
   */
  lemma HandedOutAtMost(s: State, acts: seq<Action>, id: Id)
    requires s.scans == map[] && s.handedOut == multiset{} && s.lostCommits == 0 && IsRun(s, acts)
    ensures Final(s, acts).handedOut[id] <= 4 + Final(s, acts).lostCommits
  {
    DeliveryRun(s, acts, id);
  }

  /**
   The mismatched pre-check: a start-up hands something out again exactly when there
   is a running scan to hand out and, besides, some scan still waiting.
   */
  lemma StartUpExactly(s: State, workload: int, commits: bool)
    ensures Apply(s, StartUp(workload, commits)).handedOut != s.handedOut
      <==> workload > 0 && HasPending(s) && SomeWellFormed(s, Redelivered(s))
  {
    var ids := Redelivered(s);
    if SomeWellFormed(s, ids) {
      var id :| id in ids && s.scans[id].wellFormed;
      assert multiset(Sent(s, ids))[id] == 1;
      assert (s.handedOut + multiset(Sent(s, ids)))[id] == s.handedOut[id] + 1;
    }
  }

  predicate CanRun(s: State, id: Id) { id in s.scans && s.scans[id].wellFormed && s.scans[id].retries < 3 }

  /**
   Which step hands a scan out, and what it leaves: a poll that picks it and commits, waiting and
   decodable, and it is running from then on; or a start-up with room while some scan is
   waiting, running and decodable, and a retry is used up if that commits.  Never more than
   once in a step, and never with three retries used.
   */
  lemma HandedOutExactly(s: State, a: Action, id: Id)
    requires Enabled(s, a) && (a.Poll? ==> Elements(a.picked) <= s.scans.Keys)
    ensures var t := Apply(s, a);
      var polled := a.Poll? && a.commits && id in a.picked && CanRun(s, id) && s.scans[id].status.Starting?;
      var repeated := a.StartUp? && a.workload > 0 && CanRun(s, id) && s.scans[id].status.InProgress?
        && exists x :: x in s.scans && s.scans[x].status.Starting? && s.scans[x].retries < 3;
      && t.handedOut[id] == s.handedOut[id] + (if polled || repeated then 1 else 0)
      && (polled ==> t.scans[id] == s.scans[id].(status := InProgress, updatedAt := s.now))
      && (repeated ==> t.scans[id] == s.scans[id].(retries := s.scans[id].retries + if a.commits then 1 else 0))
  {
    if a.Poll? {
      PickedKnown(s, a);
      assert id in a.picked <==> id in Elements(a.picked);
    }
    if a.StartUp? && CanRun(s, id) && s.scans[id].status.InProgress? { assert id in Redelivered(s); }
  }

  /**
   What a step that hands something out does to the other scans: a poll sets every scan it picked
   running, also those that cannot be decoded and are not sent; a start-up uses up a retry of
   every running scan that has one left, decodable or not; no other scan changes.
   */
  lemma TakenAlong(s: State, a: Action, id: Id)
    requires Enabled(s, a) && (a.Poll? ==> Elements(a.picked) <= s.scans.Keys) && (a.Poll? || a.StartUp?)
    requires id in s.scans && a.commits && Apply(s, a).handedOut != s.handedOut
    ensures var x, t := s.scans[id], Apply(s, a);
      && t.scans.Keys == s.scans.Keys && t.now == s.now && t.lostCommits == s.lostCommits
      && (a.Poll? ==> t.scans[id] == if id in a.picked then x.(status := InProgress, updatedAt := s.now) else x)
      && (a.StartUp? ==>
            t.scans[id] == if x.status.InProgress? && x.retries < 3 then x.(retries := x.retries + 1) else x)
  {
    if a.Poll? { assert id in a.picked <==> id in Elements(a.picked); }
  }

  // A scan that was just handed out, or whose status just came in, is not set back before time has passed.
  lemma NotResetAtOnce(s: State, a: Action, id: Id)
    requires Enabled(s, a) && (a.Poll? ==> Elements(a.picked) <= s.scans.Keys)
    requires (a.Outside? && a.id == id) || (a.Poll? && s.handedOut[id] < Apply(s, a).handedOut[id])
    ensures !Enabled(Apply(s, a), Reset(id))
  {
    if a.Poll? { HandedOutExactly(s, a, id); }
  }

  // A start-up that can hand this scan out again.
  predicate CanRepeat(s: State, id: Id) {
    id in s.scans && s.scans[id].wellFormed && id in Redelivered(s) && HasPending(s)
  }

  /**
   The four holds exactly because commits succeed: start-ups whose commit fails use up no
   retry and hand the scan out as often as they happen.
   */
  lemma {:induction false} LostCommitsRepeat(s: State, id: Id, n: nat) returns (acts: seq<Action>)
    requires CanRepeat(s, id)
    ensures IsRun(s, acts) && Final(s, acts).handedOut[id] == s.handedOut[id] + n
    decreases n
  {
    if n == 0 {
      acts := [];
    } else {
      var a := StartUp(1, false);
      assert SomeWellFormed(s, Redelivered(s));
      var t := Apply(s, a);
      assert t.scans == s.scans && t.handedOut[id] == s.handedOut[id] + 1;
      assert Redelivered(t) == Redelivered(s) && HasPending(t);
      var rest := LostCommitsRepeat(t, id, n - 1);
      acts := [a] + rest;
      assert acts[1..] == rest;
    }
  }

  // ----- the place of a waiting scan -----

  // The eligible scans that must be taken before this one.
  function Before(s: State, id: Id): set<Id>
    requires id in s.scans
  {
    set x | x in Eligibles(s) && Ahead(s.scans[x], s.scans[id])
  }

  // The eligible scans that may be taken before this one: those ahead of it or tied with it.
  function NotBehind(s: State, id: Id): set<Id>
    requires id in s.scans
  {
    set x | x in Eligibles(s) && x != id && !Ahead(s.scans[id], s.scans[x])
  }

  lemma TakenEligibles(s: State, a: Action)
    requires Enabled(s, a) && a.Poll? && Elements(a.picked) <= s.scans.Keys
    requires SomeWellFormed(s, Elements(a.picked)) && a.commits
    ensures Eligibles(Apply(s, a)) == Eligibles(s) - Elements(a.picked)
  {
  }

  // A poll that hands something out moves a waiting scan up by the number taken ahead of it.
  lemma PollMovesUp(s: State, a: Action, id: Id)
    requires Enabled(s, a) && a.Poll? && Elements(a.picked) <= s.scans.Keys
    requires SomeWellFormed(s, Elements(a.picked)) && a.commits
    requires Eligible(s, id) && id !in a.picked
    ensures var t := Apply(s, a);
      && Eligible(t, id)
      && Before(t, id) == Before(s, id) - Elements(a.picked)
      && |Before(t, id)| == |Before(s, id)| - |Before(s, id) * Elements(a.picked)|
  {
    TakenEligibles(s, a);
    var t := Apply(s, a);
    assert t.scans[id] == s.scans[id];
    assert forall x :: x in Eligibles(t) ==> t.scans[x] == s.scans[x];
    var b, p := Before(s, id), Elements(a.picked);
    assert Before(t, id) == b - p;
    assert b == (b - p) + (b * p);
    assert (b - p) !! (b * p);
  }

  // An arrival pushes a waiting scan back exactly when it has priority over it.
  lemma ArrivalPushesBack(s: State, a: Action, id: Id)
    requires Enabled(s, a) && a.Arrive? && Eligible(s, id) && s.scans[id].updatedAt <= s.now
    ensures var t := Apply(s, a);
      && Eligible(t, id)
      && Before(t, id) == Before(s, id) +
           (if a.priority && !s.scans[id].priority && (s.cloud ==> a.ready) then {a.id} else {})
  {
    var t := Apply(s, a);
    assert forall x :: x in s.scans ==> t.scans[x] == s.scans[x];
  }

  // The scan that a step makes eligible, if it does.
  predicate Newcomer(s: State, a: Action)
    requires a.Poll? ==> Elements(a.picked) <= s.scans.Keys
    requires a.Outside? || a.Reset? || a.SetReady? ==> a.id in s.scans
  {
    (a.Arrive? || a.Reset? || a.SetReady?) && Eligible(Apply(s, a), a.id) && !Eligible(s, a.id)
  }

  predicate SameButReady(x: Scan, y: Scan) { x.(ready := y.ready) == y }

  lemma PollAddsNone(s: State, a: Action)
    requires Enabled(s, a) && a.Poll? && Elements(a.picked) <= s.scans.Keys
    ensures forall x :: Eligible(Apply(s, a), x) ==> Eligible(s, x) && Apply(s, a).scans[x] == s.scans[x]
  {
  }

  // What is eligible after a step was so before, with the same rank, or is the newcomer.
  lemma OthersUnchanged(s: State, a: Action)
    requires Enabled(s, a) && (a.Poll? ==> Elements(a.picked) <= s.scans.Keys)
    ensures var t := Apply(s, a);
      forall x :: Eligible(t, x) ==>
        (Newcomer(s, a) && x == a.id) || (Eligible(s, x) && SameButReady(t.scans[x], s.scans[x]))
  {
    if a.Poll? { PollAddsNone(s, a); }
  }

  // The step makes a scan eligible that is ahead of this one.
  predicate Jumps(s: State, a: Action, id: Id)
    requires a.Poll? ==> Elements(a.picked) <= s.scans.Keys
    requires a.Outside? || a.Reset? || a.SetReady? ==> a.id in s.scans
    requires id in Apply(s, a).scans
  {
    Newcomer(s, a) && Ahead(Apply(s, a).scans[a.id], Apply(s, a).scans[id])
  }

  lemma NewcomerAdds(s: State, a: Action, id: Id)
    requires Enabled(s, a) && !a.Poll? && Eligible(s, id) && Eligible(Apply(s, a), id) && Jumps(s, a, id)
    ensures a.id !in Before(s, id) && Before(Apply(s, a), id) == Before(s, id) + {a.id}
  {
    var t := Apply(s, a);
    assert forall x :: x in s.scans && x != a.id ==> x in t.scans && t.scans[x] == s.scans[x];
    assert forall x :: x != a.id ==> (Eligible(t, x) <==> Eligible(s, x));
  }

  lemma NobodyJumps(s: State, a: Action, id: Id)
    requires Enabled(s, a) && (a.Poll? ==> Elements(a.picked) <= s.scans.Keys)
    requires Eligible(s, id) && Eligible(Apply(s, a), id) && !Jumps(s, a, id)
    ensures Before(Apply(s, a), id) <= Before(s, id)
  {
    OthersUnchanged(s, a);
    var t := Apply(s, a);
    assert SameButReady(t.scans[id], s.scans[id]);
  }

  /**
   A waiting scan's place, for every step: it gets worse exactly when the step makes
   another scan eligible that is ahead of it, which only an arrival with priority, an account
   that becomes ready or a scan set back by the retry job can be.
   */
  lemma PlaceRisesExactly(s: State, a: Action, id: Id)
    requires Enabled(s, a) && (a.Poll? ==> Elements(a.picked) <= s.scans.Keys)
    requires Eligible(s, id) && Eligible(Apply(s, a), id)
    ensures var t := Apply(s, a);
      && Before(t, id) - Before(s, id) == (if Jumps(s, a, id) then {a.id} else {})
      && (|Before(t, id)| > |Before(s, id)| <==> Jumps(s, a, id))
  {
    if Jumps(s, a, id) {
      NewcomerAdds(s, a, id);
    } else {
      NobodyJumps(s, a, id);
      SubsetSize(Before(Apply(s, a), id), Before(s, id));
    }
  }

  // A scan set back keeps its age, and so goes ahead of all that were updated later, priority scans apart.
  lemma ResetKeepsAge(s: State, id: Id, other: Id)
    requires Enabled(s, Reset(id)) && Eligible(s, other) && s.scans[other].updatedAt > s.scans[id].updatedAt
    requires s.scans[other].priority ==> s.scans[id].priority
    ensures var t := Apply(s, Reset(id));
      t.scans[other] == s.scans[other] && Ahead(t.scans[id], t.scans[other]) && t.scans[id].status.Starting?
  {
  }

  // ----- every waiting scan is served -----

  // The step makes a scan eligible that may be taken before this one.
  ghost predicate Overtakes(s: State, a: Action, id: Id)
    requires id in s.scans && Enabled(s, a) && (a.Poll? ==> Elements(a.picked) <= s.scans.Keys)
  {
    var t := Apply(s, a);
    Newcomer(s, a) && a.id != id && !Ahead(t.scans[id], t.scans[a.id])
  }

  // The scan is left waiting, its account stays ready, and what overtakes it can be decoded.
  ghost predicate Fair(s: State, a: Action, id: Id)
    requires id in s.scans && Enabled(s, a) && (a.Poll? ==> Elements(a.picked) <= s.scans.Keys)
  {
    && (a.Outside? ==> a.id != id)
    && (a.SetReady? && a.id == id ==> !s.cloud || a.ready)
    && (Overtakes(s, a, id) ==> Apply(s, a).scans[a.id].wellFormed)
  }

  // The room of a poll that commits.
  function Room(a: Action): nat { if a.Poll? && a.k > 0 && a.commits then a.k else 0 }

  // The scan waits, and it and all that may be taken before it can be decoded.
  ghost predicate InLine(s: State, id: Id) {
    Eligible(s, id) && s.scans[id].wellFormed && forall x :: x in NotBehind(s, id) ==> s.scans[x].wellFormed
  }

  lemma SubsetSize(a: set<Id>, b: set<Id>)
    requires a <= b
    ensures |a| <= |b|
  {
    assert b == a + (b - a);
  }

  lemma {:induction false} ElementsSize(p: seq<Id>)
    requires forall i, j :: 0 <= i < j < |p| ==> p[i] != p[j]
    ensures |Elements(p)| == |p|
  {
    if p != [] {
      var init := p[..|p| - 1];
      ElementsSize(init);
      assert Elements(p) == Elements(init) + {p[|p| - 1]};
    }
  }

  // A poll either takes the scan or takes as many scans as it has room for from among those not behind it.
  lemma PollServes(s: State, a: Action, id: Id)
    requires InLine(s, id) && Enabled(s, a) && a.Poll? && a.k >= 1 && a.commits
    requires Elements(a.picked) <= s.scans.Keys
    ensures var t := Apply(s, a);
      if id in a.picked then t.handedOut[id] == s.handedOut[id] + 1
      else InLine(t, id) && |NotBehind(t, id)| + a.k <= |NotBehind(s, id)|
  {
    PickedKnown(s, a);
    var t := Apply(s, a);
    var p := Elements(a.picked);
    ElementsSize(a.picked);
    assert id in Eligibles(s);
    if id in a.picked {
      assert id in p;
    } else {
      assert p <= Eligibles(s) - {id};
      SubsetSize(p, Eligibles(s) - {id});
      assert |p| == a.k;
      assert p <= NotBehind(s, id);
      assert a.picked[0] in p && s.scans[a.picked[0]].wellFormed;
      TakenEligibles(s, a);
      assert t.scans[id] == s.scans[id];
      assert NotBehind(t, id) == NotBehind(s, id) - p;
    }
  }

  lemma LineKept(s: State, t: State, id: Id, more: set<Id>)
    requires InLine(s, id) && Eligible(t, id) && SameButReady(t.scans[id], s.scans[id])
    requires forall x :: Eligible(t, x) ==>
      || (Eligible(s, x) && SameButReady(t.scans[x], s.scans[x]))
      || Ahead(t.scans[id], t.scans[x]) || (x in more && t.scans[x].wellFormed)
    ensures InLine(t, id) && |NotBehind(t, id)| <= |NotBehind(s, id)| + |more|
  {
    assert NotBehind(t, id) <= NotBehind(s, id) + more;
    SubsetSize(NotBehind(t, id), NotBehind(s, id) + more);
  }

  lemma StaysEligible(s: State, a: Action, id: Id)
    requires Enabled(s, a) && !a.Poll? && Eligible(s, id)
    requires (a.Outside? ==> a.id != id) && (a.SetReady? && a.id == id ==> !s.cloud || a.ready)
    ensures Eligible(Apply(s, a), id) && SameButReady(Apply(s, a).scans[id], s.scans[id])
  {
  }

  lemma OtherKeepsInLine(s: State, a: Action, id: Id)
    requires InLine(s, id) && Enabled(s, a) && Room(a) == 0
    requires a.Poll? ==> Elements(a.picked) <= s.scans.Keys
    requires Fair(s, a, id)
    ensures InLine(Apply(s, a), id)
    ensures |NotBehind(Apply(s, a), id)| <= |NotBehind(s, id)| + if Overtakes(s, a, id) then 1 else 0
  {
    if !a.Poll? {
      StaysEligible(s, a, id);
      OthersUnchanged(s, a);
      LineKept(s, Apply(s, a), id, if Overtakes(s, a, id) then {a.id} else {});
    }
  }

  ghost predicate FairRun(s: State, acts: seq<Action>, id: Id)
    requires IsRun(s, acts) && id in s.scans
    decreases |acts|
  {
    acts == [] || (Fair(s, acts[0], id) && FairRun(Apply(s, acts[0]), acts[1..], id))
  }

  // How often a scan that may be taken before this one becomes eligible.
  ghost function Overtaken(s: State, acts: seq<Action>, id: Id): nat
    requires IsRun(s, acts) && id in s.scans
    decreases |acts|
  {
    if acts == [] then 0
    else (if Overtakes(s, acts[0], id) then 1 else 0) + Overtaken(Apply(s, acts[0]), acts[1..], id)
  }

  function Rooms(acts: seq<Action>): nat { if acts == [] then 0 else Room(acts[0]) + Rooms(acts[1..]) }

  lemma {:induction false} HandedOutGrows(s: State, acts: seq<Action>, id: Id)
    requires IsRun(s, acts)
    ensures Final(s, acts).handedOut[id] >= s.handedOut[id]
    decreases |acts|
  {
    if acts != [] { HandedOutGrows(Apply(s, acts[0]), acts[1..], id); }
  }

  /**
   No starvation: a waiting scan is handed out as soon as the polls that follow and commit have
   had, in total, more room than the number of scans not behind it plus those that overtake it
   meanwhile, whatever else happens, as long as the scan itself is left waiting with its
   account ready and those before it can be decoded.
   */
  lemma {:induction false} ServedWithin(s: State, acts: seq<Action>, id: Id)
    requires InLine(s, id) && IsRun(s, acts) && FairRun(s, acts, id)
    requires Rooms(acts) > |NotBehind(s, id)| + Overtaken(s, acts, id)
    ensures Final(s, acts).handedOut[id] > s.handedOut[id]
    decreases |acts|
  {
    var a, rest := acts[0], acts[1..];
    var t := Apply(s, a);
    if Room(a) > 0 {
      PollServes(s, a, id);
      if id in a.picked {
        HandedOutGrows(t, rest, id);
      } else {
        ServedWithin(t, rest, id);
      }
    } else {
      OtherKeepsInLine(s, a, id);
      ServedWithin(t, rest, id);
    }
  }

  // ----- undecodable scans at the head of the queue -----

  /**
   A poll hands nothing out and changes nothing exactly when no scan it picked can be
   decoded: the undecodable scans then stay at the head of the queue.
   */
  lemma PollIdleExactly(s: State, a: Action)
    requires Enabled(s, a) && a.Poll? && a.commits && Elements(a.picked) <= s.scans.Keys
    ensures Apply(s, a) == s <==> forall id :: id in a.picked ==> !s.scans[id].wellFormed
  {
    var ids := Elements(a.picked);
    if SomeWellFormed(s, ids) {
      var id :| id in ids && s.scans[id].wellFormed;
      PickedKnown(s, a);
      assert Apply(s, a).scans[id].status.InProgress? && s.scans[id].status.Starting?;
      assert id in a.picked;
    } else {
      forall id | id in a.picked ensures !s.scans[id].wellFormed { assert id in ids; }
    }
  }

  // Undecodable waiting scans, each ahead of every waiting scan that can be decoded.
  ghost predicate Blocking(s: State, m: set<Id>) {
    && (forall x :: x in m ==> Eligible(s, x) && !s.scans[x].wellFormed)
    && forall x, y :: x in m && Eligible(s, y) && s.scans[y].wellFormed ==> Ahead(s.scans[x], s.scans[y])
  }

  // Polls have no more room than there are such scans; these are left alone, and nothing decodable overtakes one.
  ghost predicate Harmless(s: State, a: Action, m: set<Id>)
    requires m <= s.scans.Keys && Enabled(s, a) && (a.Poll? ==> Elements(a.picked) <= s.scans.Keys)
  {
    && (a.Poll? ==> a.k <= |m|)
    && (a.Outside? ==> a.id !in m)
    && (a.SetReady? && a.id in m ==> !s.cloud || a.ready)
    && (Newcomer(s, a) && Apply(s, a).scans[a.id].wellFormed ==>
          forall x :: x in m ==> Ahead(s.scans[x], Apply(s, a).scans[a.id]))
  }

  lemma BlockingKept(s: State, a: Action, m: set<Id>)
    requires Blocking(s, m) && m <= s.scans.Keys && Enabled(s, a) && !a.Poll?
    requires Harmless(s, a, m)
    ensures Blocking(Apply(s, a), m)
  {
    OthersUnchanged(s, a);
    var t := Apply(s, a);
    forall x | x in m ensures Eligible(t, x) && SameButReady(t.scans[x], s.scans[x]) { StaysEligible(s, a, x); }
    forall x, y | x in m && Eligible(t, y) && t.scans[y].wellFormed ensures Ahead(t.scans[x], t.scans[y]) {
      if !(Newcomer(s, a) && y == a.id) { assert Ahead(s.scans[x], s.scans[y]); }
    }
  }

  // A step other than a poll leaves the queue blocked exactly when it is harmless.
  lemma BlockingKeptExactly(s: State, a: Action, m: set<Id>)
    requires Blocking(s, m) && m <= s.scans.Keys && Enabled(s, a) && !a.Poll?
    ensures Blocking(Apply(s, a), m) <==> Harmless(s, a, m)
  {
    OthersUnchanged(s, a);
    if Harmless(s, a, m) { BlockingKept(s, a, m); }
  }

  lemma BlockedStep(s: State, a: Action, m: set<Id>)
    requires Blocking(s, m) && m <= s.scans.Keys && Enabled(s, a)
    requires a.Poll? ==> Elements(a.picked) <= s.scans.Keys
    requires Harmless(s, a, m)
    ensures Blocking(Apply(s, a), m) && m <= Apply(s, a).scans.Keys && (a.Poll? ==> Apply(s, a) == s)
  {
    if a.Poll? { BlockedPoll(s, a, m); } else { BlockingKeptExactly(s, a, m); }
  }

  ghost predicate HarmlessRun(s: State, acts: seq<Action>, m: set<Id>)
    requires IsRun(s, acts)
    decreases |acts|
  {
    acts == [] || (m <= s.scans.Keys && Harmless(s, acts[0], m) && HarmlessRun(Apply(s, acts[0]), acts[1..], m))
  }

  // No poll of the run hands anything out or changes anything.
  ghost predicate PollsIdle(s: State, acts: seq<Action>)
    requires IsRun(s, acts)
    decreases |acts|
  {
    acts == [] || ((acts[0].Poll? ==> Apply(s, acts[0]) == s) && PollsIdle(Apply(s, acts[0]), acts[1..]))
  }

  /**
   Blocked for good: as long as polls have no more room than there are undecodable scans at
   the head of the queue, all of them are idle, while time passes, agents start up, other scans
   change their status, become ready, are set back or arrive behind, until something is done
   about those scans themselves.
   */
  lemma {:induction false} BlockedForever(s: State, acts: seq<Action>, m: set<Id>)
    requires Blocking(s, m) && m <= s.scans.Keys && IsRun(s, acts) && HarmlessRun(s, acts, m)
    ensures PollsIdle(s, acts) && Blocking(Final(s, acts), m)
    decreases |acts|
  {
    if acts != [] {
      BlockedStep(s, acts[0], m);
      BlockedForever(Apply(s, acts[0]), acts[1..], m);
    }
  }

  lemma BlockedPoll(s: State, a: Action, m: set<Id>)
    requires Blocking(s, m) && Enabled(s, a) && a.Poll? && a.k <= |m| && Elements(a.picked) <= s.scans.Keys
    ensures Apply(s, a) == s
  {
    var p := Elements(a.picked);
    if a.k > 0 && SomeWellFormed(s, p) {
      var id :| id in p && s.scans[id].wellFormed;
      PickedKnown(s, a);
      ElementsSize(a.picked);
      var i :| 0 <= i < |a.picked| && a.picked[i] == id;
      forall x | x in m ensures x in p {
        assert Ahead(s.scans[x], s.scans[id]);
      }
      assert id !in m && m + {id} <= p;
      SubsetSize(m + {id}, p);
      assert false;
    }
  }

  function Undecodable(s: State): set<Id> { set id | id in Eligibles(s) && !s.scans[id].wellFormed }

  // A poll with more room than there are undecodable waiting scans is never blocked by them.
  lemma EnoughRoomServes(s: State, a: Action, id: Id)
    requires Enabled(s, a) && a.Poll? && a.commits && Elements(a.picked) <= s.scans.Keys
    requires a.k > |Undecodable(s)| && Eligible(s, id) && s.scans[id].wellFormed
    ensures Apply(s, a) != s
  {
    PollIdleExactly(s, a);
    if forall x :: x in a.picked ==> !s.scans[x].wellFormed {
      ElementsSize(a.picked);
      var p := Elements(a.picked);
      assert p <= Undecodable(s) <= Eligibles(s) - {id};
      SubsetSize(p, Undecodable(s));
      SubsetSize(p, Eligibles(s) - {id});
    }
  }
}
