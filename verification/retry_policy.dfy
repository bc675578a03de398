/**
 Which errors are retried.  The error that counts is that of the call, or that of the renewal
 if the pool was closed and could not be renewed; a second failure is always the last.
 */
module RetryPolicy {
  import opened PusherProtocol
  import opened Delivery

  // The pool was closed and a new one was found.
  predicate Renews(o: Outcome) { o.Failed? && o.closed && o.renewal.Renewed? }

  // The error that is left after a renewal was tried, if one was, is transient.
  predicate LeftTransient(o: Outcome) {
    o.Failed? && if o.closed then o.renewal == RenewFailed(true) else o.transient
  }

  /**
   Exactly which calls split a batch: first failures with a transient error left, when the retry
   queue takes the copy.
   */
  lemma SplitsExactly(s: State, a: Action, id: nat)
    requires NoneSpent(s) && Enabled(s, a) && a.Call? && Handled(s, a).id == id
    ensures Splits(s, a, id) <==> Handled(s, a).retries == 0 && LeftTransient(a.o) && CanRequeue(Get(s, a.k), a.o)
  {
    NoneSpentStep(s, a);
    var st := Get(s, a.k);
    assert |st.retry + [Handled(s, a).(retries := 1)]| == |st.retry| + 1;
  }

  /**
   Exactly which calls give a copy up: second failures, and first ones that neither find a new
   pool nor leave a transient error.
   */
  lemma DropsExactly(s: State, a: Action, id: nat)
    requires NoneSpent(s) && Enabled(s, a) && a.Call? && Handled(s, a).id == id
    ensures Drops(s, a, id) <==>
      a.o.Failed? && (Handled(s, a).retries == 1 || (!Renews(a.o) && !LeftTransient(a.o)))
  {
    NoneSpentStep(s, a);
  }

  /**
   What a call leaves in its stage: a copy given up leaves the worker idle and nothing queued; a
   renewed session keeps the one copy, its retry used, and queues none; a transient error
   keeps it as well, and queues it where there is room; a success passes the copy on
   unchanged, and counts it in the second stage only.
   */
  lemma CallLeaves(s: State, k: Level, i: nat, o: Outcome)
    requires NoneSpent(s) && Enabled(s, Call(k, i, o))
    ensures var st, st' := Get(s, k), Get(Apply(s, Call(k, i, o)), k);
      var c := st.workers[i].c;
      var c' := Copy(c.id, c.merged, 1);
      && st'.input == st.input && st'.relay == st.relay && |st'.workers| == |st.workers|
      && (forall j :: 0 <= j < |st.workers| && j != i ==> st'.workers[j] == st.workers[j])
      && (o.Failed? && (c.retries == 1 || (!o.closed && !o.transient)) ==>
            st'.workers[i].Idle? && st'.retry == st.retry)
      && (c.retries == 0 && Renews(o) ==> st'.workers[i] == Pushing(c') && st'.retry == st.retry)
      && (c.retries == 0 && LeftTransient(o) ==>
            st'.workers[i] == Pushing(c') && st'.retry == st.retry + if CanRequeue(st, o) then [c'] else [])
      && (o.Pushed? ==> st'.workers[i] == (if k.First? then Handing(c) else Idle) && st'.retry == st.retry)
    ensures var t := Apply(s, Call(k, i, o));
      var c := Get(s, k).workers[i].c;
      && t.counted == s.counted + (if o.Pushed? && k.Second? then multiset{c.id} else multiset{})
      && t.numIngested == s.numIngested + (if o.Pushed? && k.Second? then c.merged else 0)
  {
    NoneSpentStep(s, Call(k, i, o));
  }

  // ----- over runs -----

  predicate Fails(s: State, a: Action, id: nat)
    requires Enabled(s, a)
  {
    a.Call? && Handled(s, a).id == id && a.o.Failed?
  }

  ghost function FailCount(s: State, acts: seq<Action>, id: nat): nat
    requires IsRun(s, acts)
    decreases |acts|
  {
    if acts == [] then 0
    else (if Fails(s, acts[0], id) then 1 else 0) + FailCount(Apply(s, acts[0]), acts[1..], id)
  }

  // First failures after which the session is renewed.
  ghost function RenewCount(s: State, acts: seq<Action>, id: nat): nat
    requires IsRun(s, acts)
    decreases |acts|
  {
    if acts == [] then 0
    else
      (if Fails(s, acts[0], id) && Handled(s, acts[0]).retries == 0 && Renews(acts[0].o) then 1 else 0)
      + RenewCount(Apply(s, acts[0]), acts[1..], id)
  }

  // No failed call of the batch, nor its failed renewal, is transient.
  ghost predicate NeverTransient(s: State, acts: seq<Action>, id: nat)
    requires IsRun(s, acts)
    decreases |acts|
  {
    acts == [] ||
    ((Fails(s, acts[0], id) ==> !LeftTransient(acts[0].o)) && NeverTransient(Apply(s, acts[0]), acts[1..], id))
  }

  lemma {:induction false} PermanentFrom(s: State, acts: seq<Action>, id: nat)
    requires NoneSpent(s) && IsRun(s, acts) && NeverTransient(s, acts, id)
    ensures SplitCount(s, acts, id) == 0
    ensures FailCount(s, acts, id) == DropCount(s, acts, id) + RenewCount(s, acts, id)
    decreases |acts|
  {
    if acts != [] {
      var a := acts[0];
      NoneSpentStep(s, a);
      if a.Call? && Handled(s, a).id == id {
        SplitsExactly(s, a, id);
        DropsExactly(s, a, id);
      }
      PermanentFrom(Apply(s, a), acts[1..], id);
    }
  }

  /**
   Permanent errors: on every run on which no error of a batch is transient, the batch is never
   split, so counted at most once, and every one of its failed calls that does not renew the
   session gives its copy up; at rest it is counted exactly if it was emitted and not given up.
   */
  lemma PermanentNeverSplits(s: State, acts: seq<Action>, id: nat)
    requires Init(s) && IsRun(s, acts) && NeverTransient(s, acts, id)
    ensures SplitCount(s, acts, id) == 0 && Final(s, acts).counted[id] <= 1
    ensures FailCount(s, acts, id) == DropCount(s, acts, id) + RenewCount(s, acts, id)
    ensures AtRest(Final(s, acts)) ==>
      Final(s, acts).counted[id] + DropCount(s, acts, id) == Emitted(Final(s, acts), id)
  {
    InitInv(s);
    PermanentFrom(s, acts, id);
    CountedAtMostOnce(s, acts, id);
    CopiesConserved(s, acts, id);
    ShapedRun(s, acts);
    if AtRest(Final(s, acts)) { RestIsEmpty(Final(s, acts), LiveWeight(id)); }
  }
}
