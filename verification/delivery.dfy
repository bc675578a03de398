/**
 Exactly when a batch can be counted twice.  A split is a retry send that
 succeeds while the worker keeps its copy.  At rest a batch is counted at most once exactly
 when its copies were given up at least as often as they were split; and after any split, if
 no further call fails, every schedule that comes to rest has counted the batch twice.
 */
module Delivery {
  import opened PusherProtocol
  import opened Pipeline

  // One for each live copy of the batch.
  function LiveWeight(id: nat): Weight {
    (k: Level, p: Place, c: Copy) => if c.id == id then 1 else 0
  }

  // The step queues a second copy of the batch while the worker keeps the first.
  predicate Splits(s: State, a: Action, id: nat)
    requires Enabled(s, a)
  {
    && a.Call? && Handled(s, a).id == id
    && Get(Apply(s, a), a.k).retry != Get(s, a.k).retry && Get(Apply(s, a), a.k).workers[a.i].Pushing?
  }

  // The step gives a copy of the batch up.
  predicate Drops(s: State, a: Action, id: nat)
    requires Enabled(s, a)
  {
    a.Call? && Handled(s, a).id == id && a.o.Failed? && Get(Apply(s, a), a.k).workers[a.i].Idle?
  }

  ghost function SplitCount(s: State, acts: seq<Action>, id: nat): nat
    requires IsRun(s, acts)
    decreases |acts|
  {
    if acts == [] then 0
    else (if Splits(s, acts[0], id) then 1 else 0) + SplitCount(Apply(s, acts[0]), acts[1..], id)
  }

  ghost function DropCount(s: State, acts: seq<Action>, id: nat): nat
    requires IsRun(s, acts)
    decreases |acts|
  {
    if acts == [] then 0
    else (if Drops(s, acts[0], id) then 1 else 0) + DropCount(Apply(s, acts[0]), acts[1..], id)
  }

  function Emitted(s: State, id: nat): nat { if id < s.next then 1 else 0 }

  // What one step does to the copies of a batch.
  lemma AddedLive(s: State, a: Action, id: nat)
    requires Enabled(s, a)
    ensures Added(s, a, LiveWeight(id)) + Apply(s, a).counted[id] + (if Drops(s, a, id) then 1 else 0) ==
      Removed(s, a, LiveWeight(id)) + s.counted[id] + (if Splits(s, a, id) then 1 else 0)
      + if a.Emit? && id == s.next then 1 else 0
  {
  }

  lemma BalanceStep(s: State, a: Action, id: nat)
    requires Enabled(s, a)
    ensures var t := Apply(s, a);
      t.counted[id] + Total(t, LiveWeight(id)) + (if Drops(s, a, id) then 1 else 0) + Emitted(s, id) ==
      s.counted[id] + Total(s, LiveWeight(id)) + (if Splits(s, a, id) then 1 else 0) + Emitted(t, id)
  {
    StepTotal(s, a, LiveWeight(id));
    AddedLive(s, a, id);
    assert Apply(s, a).next == if a.Emit? then s.next + 1 else s.next;
  }

  lemma {:induction false} BalanceRun(s: State, acts: seq<Action>, id: nat)
    requires IsRun(s, acts)
    ensures var t := Final(s, acts);
      t.counted[id] + Total(t, LiveWeight(id)) + DropCount(s, acts, id) + Emitted(s, id) ==
      s.counted[id] + Total(s, LiveWeight(id)) + SplitCount(s, acts, id) + Emitted(t, id)
    decreases |acts|
  {
    if acts != [] {
      BalanceStep(s, acts[0], id);
      BalanceRun(Apply(s, acts[0]), acts[1..], id);
    }
  }

  /**
   Conservation of copies: on every run, the copies of a batch that were counted, are
   live or were given up are the one that was emitted and those made by splits.
   */
  lemma CopiesConserved(s: State, acts: seq<Action>, id: nat)
    requires Init(s) && IsRun(s, acts)
    ensures var t := Final(s, acts);
      t.counted[id] + Total(t, LiveWeight(id)) + DropCount(s, acts, id) == Emitted(t, id) + SplitCount(s, acts, id)
  {
    InitEmpty(s, LiveWeight(id));
    BalanceRun(s, acts, id);
  }

  /**
   Exactly when a batch is counted at most once: on a run that has come to rest, as many of
   its copies at least were given up as splits were made; on any run without a split.
   */
  lemma CountedAtMostOnce(s: State, acts: seq<Action>, id: nat)
    requires Init(s) && IsRun(s, acts)
    ensures AtRest(Final(s, acts)) ==>
      (Final(s, acts).counted[id] <= 1 <==> SplitCount(s, acts, id) <= DropCount(s, acts, id))
    ensures SplitCount(s, acts, id) == 0 ==> Final(s, acts).counted[id] <= 1
  {
    CopiesConserved(s, acts, id);
    ShapedRun(s, acts);
    if AtRest(Final(s, acts)) { RestIsEmpty(Final(s, acts), LiveWeight(id)); }
    assert WithinBudget(Final(s, acts), id);
  }

  ghost predicate Shaped(s: State) {
    Inv(s) && |s.first.workers| > 0 && |s.second.workers| == 1 && !s.second.workers[0].Handing?
  }

  lemma ShapedRun(s: State, acts: seq<Action>)
    requires Init(s) && IsRun(s, acts)
    ensures Shaped(Final(s, acts))
  {
    InitInv(s);
    ShapedFrom(s, acts);
  }

  lemma {:induction false} ShapedFrom(s: State, acts: seq<Action>)
    requires Shaped(s) && IsRun(s, acts)
    ensures Shaped(Final(s, acts))
    decreases |acts|
  {
    if acts != [] {
      InvStep(s, acts[0]);
      PushKeepsShape(s, acts[0]);
      ShapedFrom(Apply(s, acts[0]), acts[1..]);
    }
  }

  lemma {:induction false} EmptyLive(s: State, w: Weight)
    requires StageEmpty(s.first) && StageEmpty(s.second)
    ensures Total(s, w) == 0
  {
    IdleWeight(s.first.workers, First, w);
    IdleWeight(s.second.workers, Second, w);
  }

  // A successful step keeps live plus counted copies.
  lemma SuccessKeeps(s: State, a: Action, id: nat)
    requires Enabled(s, a) && !a.Emit? && (a.Call? ==> a.o.Pushed?)
    ensures Apply(s, a).counted[id] + Total(Apply(s, a), LiveWeight(id)) == s.counted[id] + Total(s, LiveWeight(id))
  {
    StepTotal(s, a, LiveWeight(id));
    RemovedBounded(s, a, LiveWeight(id));
  }

  // A step that is neither a new batch nor a failed call.
  predicate Clean(a: Action) { !a.Emit? && (a.Call? ==> a.o.Pushed?) }

  predicate CleanRun(acts: seq<Action>) { forall i :: 0 <= i < |acts| ==> Clean(acts[i]) }

  // The run cannot be continued without a new batch.
  ghost predicate AtRest(s: State) { forall a :: Clean(a) ==> !Enabled(s, a) }

  lemma {:induction false} CleanKeeps(s: State, acts: seq<Action>, id: nat)
    requires Shaped(s) && IsRun(s, acts) && CleanRun(acts)
    ensures Shaped(Final(s, acts)) && |acts| + Total(Final(s, acts), RankWeight()) <= Total(s, RankWeight())
    ensures Final(s, acts).counted[id] + Total(Final(s, acts), LiveWeight(id))
         == s.counted[id] + Total(s, LiveWeight(id))
    decreases |acts|
  {
    if acts != [] {
      PushRank(s, acts[0]);
      InvStep(s, acts[0]);
      PushKeepsShape(s, acts[0]);
      SuccessKeeps(s, acts[0], id);
      CleanKeeps(Apply(s, acts[0]), acts[1..], id);
    }
  }

  /**
   If no call fails from here on, every schedule without new batches is bounded, and one
   that has come to rest has counted every live copy exactly once more.
   */
  lemma AllSucceed(s: State, acts: seq<Action>, id: nat)
    requires Shaped(s) && IsRun(s, acts) && CleanRun(acts)
    ensures |acts| <= Total(s, RankWeight())
    ensures AtRest(Final(s, acts)) ==> Final(s, acts).counted[id] == s.counted[id] + Total(s, LiveWeight(id))
  {
    CleanKeeps(s, acts, id);
    if AtRest(Final(s, acts)) { RestIsEmpty(Final(s, acts), LiveWeight(id)); }
  }

  lemma RestIsEmpty(s: State, w: Weight)
    requires Shaped(s) && AtRest(s)
    ensures Total(s, w) == 0
  {
    if StageEmpty(s.first) && StageEmpty(s.second) {
      EmptyLive(s, w);
    } else {
      var a := BackProgress(s);
    }
  }

  // Such a schedule exists.
  lemma {:induction false} ComesToRest(s: State) returns (acts: seq<Action>)
    requires Shaped(s)
    ensures IsRun(s, acts) && CleanRun(acts) && AtRest(Final(s, acts))
    decreases Total(s, RankWeight())
  {
    if a :| Clean(a) && Enabled(s, a) {
      PushRank(s, a);
      InvStep(s, a);
      PushKeepsShape(s, a);
      var rest := ComesToRest(Apply(s, a));
      Prepend(s, a, rest, Final(Apply(s, a), rest));
      acts := [a] + rest;
    } else {
      acts := [];
    }
  }

  lemma TwoLive(s: State, a: Action, id: nat)
    requires Enabled(s, a) && Splits(s, a, id)
    ensures Total(Apply(s, a), LiveWeight(id)) >= 2
  {
    StepTotal(s, a, LiveWeight(id));
    RemovedBounded(s, a, LiveWeight(id));
  }

  lemma Snoc(s: State, acts: seq<Action>, a: Action)
    requires IsRun(s, acts) && Enabled(Final(s, acts), a)
    ensures IsRun(s, acts + [a]) && Final(s, acts + [a]) == Apply(Final(s, acts), a)
  {
    var t := Final(s, acts);
    Prepend(t, a, [], Apply(t, a));
    assert [a] + [] == [a];
    RunAppend(s, acts, [a]);
  }

  // A split of the batch at the end of a run from the start.
  predicate SplitAfter(s: State, acts: seq<Action>, a: Action, id: nat) {
    IsRun(s, acts) && Enabled(Final(s, acts), a) && Splits(Final(s, acts), a, id)
  }

  /**
   Every split of a batch, in any reachable state, whatever happened before: if no call
   fails after it, every schedule that comes to rest has counted the batch exactly twice.
   */
  lemma SplitCountsTwice(s: State, acts: seq<Action>, a: Action, id: nat, more: seq<Action>)
    requires Init(s) && SplitAfter(s, acts, a, id)
    requires IsRun(Apply(Final(s, acts), a), more) && CleanRun(more)
    requires AtRest(Final(Apply(Final(s, acts), a), more))
    ensures IsRun(s, acts + [a] + more) && Final(s, acts + [a] + more).counted[id] == 2
  {
    var t := Final(s, acts);
    Snoc(s, acts, a);
    TwoLive(t, a, id);
    ShapedRun(s, acts + [a]);
    AllSucceed(Apply(t, a), more, id);
    RunAppend(s, acts + [a], more);
    RetryBound(s, acts + [a] + more, id);
  }

  // So every split can be continued, without a further error, to a double count.
  lemma SplitCanCountTwice(s: State, acts: seq<Action>, a: Action, id: nat) returns (more: seq<Action>)
    requires Init(s) && SplitAfter(s, acts, a, id)
    ensures CleanRun(more) && IsRun(s, acts + [a] + more) && Final(s, acts + [a] + more).counted[id] == 2
  {
    Snoc(s, acts, a);
    ShapedRun(s, acts + [a]);
    more := ComesToRest(Apply(Final(s, acts), a));
    SplitCountsTwice(s, acts, a, id, more);
  }
}
