/**
 The two-stage database pusher of the agent-report collector: ten workers writing
 to Neo4j in parallel, one worker writing the statements that must be sequential,
 and for each stage a bounded retry queue drained back into its input by a relay.

 Both stages run the same code, so a `Stage` is defined once.  A channel with
 capacity `cap` and `w` receivers blocked on it accepts a send exactly while it
 holds fewer than `cap + w` elements; with `cap == 0` that is a rendezvous.
 */
module PusherProtocol {

  // ----- one call of the pusher -----

  // The outcome of fetching a new driver after the pool was found closed.
  datatype Renewal = Renewed | RenewFailed(transient: bool)

  datatype Outcome =
    | Pushed
    | Failed(closed: bool, transient: bool, renewal: Renewal,
             ready: bool)      // the relay is already blocked on its receive

  // What the worker does with its copy after the call.
  datatype Verdict = Done | Drop | Again | Requeue

  const MAX_RETRIES: nat := 2

  // `retries` is the count before the call; a failure increments it first.
  function Decide(retries: nat, o: Outcome): Verdict {
    match o
    case Pushed => Done
    case Failed(closed, transient, renewal, _) =>
      var r := retries + 1;
      if r < MAX_RETRIES && closed && renewal.Renewed? then Again
      else
        // a failed renewal replaces the error that is classified next
        var retryable := if r < MAX_RETRIES && closed && renewal.RenewFailed? then renewal.transient else transient;
        if r == MAX_RETRIES || !retryable then Drop else Requeue
  }

  // ----- state -----

  // One copy of a merged batch: several copies of one batch share its id.
  datatype Copy = Copy(id: nat, merged: nat, retries: nat)

  datatype Worker = Idle | Pushing(c: Copy) | Handing(c: Copy)
  datatype Relay = Waiting | Holding(c: Copy)

  datatype Stage = Stage(
    inputCap: nat, retryCap: nat,
    input: seq<Copy>, retry: seq<Copy>, relay: Relay, workers: seq<Worker>)

  datatype State = State(
    first: Stage, second: Stage,
    calls: multiset<nat>,     // batch ids, once per call of a pusher function
    counted: multiset<nat>,   // batch ids, once per addition to numIngested
    numIngested: nat,
    batched: nat,             // reports in all batches emitted so far
    next: nat)                // id of the next merged batch

  datatype Level = First | Second

  function Get(s: State, k: Level): Stage { if k.First? then s.first else s.second }
  function Set(s: State, k: Level, st: Stage): State {
    if k.First? then s.(first := st) else s.(second := st)
  }

  function IdleCount(ws: seq<Worker>): nat {
    if ws == [] then 0 else (if ws[0].Idle? then 1 else 0) + IdleCount(ws[1..])
  }

  predicate CanSend(st: Stage) { |st.input| < st.inputCap + IdleCount(st.workers) }

  // The retry send goes through: into a free place, or to the relay if it is blocked on its receive.
  predicate CanRequeue(st: Stage, o: Outcome) {
    |st.retry| < st.retryCap + (if st.relay.Waiting? && o.Failed? && o.ready then 1 else 0)
  }

  ghost predicate Init(s: State) {
    && s.first.input == [] && s.first.retry == [] && s.first.relay.Waiting?
    && s.second.input == [] && s.second.retry == [] && s.second.relay.Waiting?
    && (forall i :: 0 <= i < |s.first.workers| ==> s.first.workers[i].Idle?)
    && |s.first.workers| > 0
    && s.second.workers == [Idle]
    && s.calls == multiset{} && s.counted == multiset{}
    && s.numIngested == 0 && s.batched == 0 && s.next == 0
  }

  // ----- steps -----

  datatype Action =
    | Emit(merged: nat)               // the batcher sends a new merged batch
    | Take(k: Level, i: nat)          // a worker receives from its input
    | Call(k: Level, i: nat, o: Outcome)
    | Hand(i: nat)                    // a first-stage worker sends to the second stage
    | RelayTake(k: Level)
    | RelaySend(k: Level)

  predicate Enabled(s: State, a: Action) {
    match a
    case Emit(_) => CanSend(s.first)
    case Take(k, i) => var st := Get(s, k); i < |st.workers| && st.workers[i].Idle? && |st.input| > 0
    case Call(k, i, _) => var st := Get(s, k); i < |st.workers| && st.workers[i].Pushing?
    case Hand(i) => i < |s.first.workers| && s.first.workers[i].Handing? && CanSend(s.second)
    case RelayTake(k) => var st := Get(s, k); st.relay.Waiting? && |st.retry| > 0
    case RelaySend(k) => var st := Get(s, k); st.relay.Holding? && CanSend(st)
  }

  // The worker's own stage after a call; a first-stage worker goes on to hand its copy over.
  function Worked(st: Stage, k: Level, i: nat, o: Outcome): Stage
    requires i < |st.workers| && st.workers[i].Pushing?
  {
    var c := st.workers[i].c;
    var c' := c.(retries := c.retries + 1);
    match Decide(c.retries, o)
    case Done => st.(workers := st.workers[i := if k.First? then Handing(c) else Idle])
    case Drop => st.(workers := st.workers[i := Idle])
    case Again => st.(workers := st.workers[i := Pushing(c')])
    case Requeue =>
      // queued if there is room, and pushed again inline in either case
      st.(workers := st.workers[i := Pushing(c')], retry := if CanRequeue(st, o) then st.retry + [c'] else st.retry)
  }

  function AfterCall(s: State, k: Level, i: nat, o: Outcome): State
    requires Enabled(s, Call(k, i, o))
  {
    var st := Get(s, k);
    var c := st.workers[i].c;
    var t := Set(s, k, Worked(st, k, i, o)).(calls := s.calls + multiset{c.id});
    if k.Second? && Decide(c.retries, o).Done?
    then t.(counted := s.counted + multiset{c.id}, numIngested := s.numIngested + c.merged)
    else t
  }

  function Apply(s: State, a: Action): State
    requires Enabled(s, a)
  {
    match a
    case Emit(merged) =>
      s.(first := s.first.(input := s.first.input + [Copy(s.next, merged, 0)]),
         next := s.next + 1, batched := s.batched + merged)
    case Take(k, i) =>
      var st := Get(s, k);
      Set(s, k, st.(input := st.input[1..], workers := st.workers[i := Pushing(st.input[0])]))
    case Call(k, i, o) => AfterCall(s, k, i, o)
    case Hand(i) =>
      s.(first := s.first.(workers := s.first.workers[i := Idle]),
         second := s.second.(input := s.second.input + [s.first.workers[i].c]))
    case RelayTake(k) =>
      var st := Get(s, k);
      Set(s, k, st.(retry := st.retry[1..], relay := Holding(st.retry[0])))
    case RelaySend(k) =>
      var st := Get(s, k);
      Set(s, k, st.(input := st.input + [st.relay.c], relay := Waiting))
  }

  // ----- runs -----

  predicate IsRun(s: State, acts: seq<Action>)
    decreases |acts|
  {
    acts == [] || (Enabled(s, acts[0]) && IsRun(Apply(s, acts[0]), acts[1..]))
  }

  function Final(s: State, acts: seq<Action>): State
    requires IsRun(s, acts)
    decreases |acts|
  {
    if acts == [] then s else Final(Apply(s, acts[0]), acts[1..])
  }

  // ----- weights: one way to count copies by where they are -----

  datatype Place = AtInput | AtPush | AtHand | AtRetry | AtRelay
  type Weight = (Level, Place, Copy) -> nat

  function QueueWeight(q: seq<Copy>, k: Level, p: Place, w: Weight): nat {
    if q == [] then 0 else w(k, p, q[0]) + QueueWeight(q[1..], k, p, w)
  }

  function WorkerWeight(x: Worker, k: Level, w: Weight): nat {
    match x
    case Idle => 0
    case Pushing(c) => w(k, AtPush, c)
    case Handing(c) => w(k, AtHand, c)
  }

  function WorkersWeight(ws: seq<Worker>, k: Level, w: Weight): nat {
    if ws == [] then 0 else WorkerWeight(ws[0], k, w) + WorkersWeight(ws[1..], k, w)
  }

  function RelayWeight(r: Relay, k: Level, w: Weight): nat {
    match r
    case Waiting => 0
    case Holding(c) => w(k, AtRelay, c)
  }

  function StageWeight(st: Stage, k: Level, w: Weight): nat {
    QueueWeight(st.input, k, AtInput, w) + QueueWeight(st.retry, k, AtRetry, w)
    + RelayWeight(st.relay, k, w) + WorkersWeight(st.workers, k, w)
  }

  function Total(s: State, w: Weight): nat {
    StageWeight(s.first, First, w) + StageWeight(s.second, Second, w)
  }

  lemma {:induction false} QueueAppend(q: seq<Copy>, c: Copy, k: Level, p: Place, w: Weight)
    ensures QueueWeight(q + [c], k, p, w) == QueueWeight(q, k, p, w) + w(k, p, c)
  {
    if q == [] {
      assert q + [c] == [c];
    } else {
      assert (q + [c])[1..] == q[1..] + [c];
      QueueAppend(q[1..], c, k, p, w);
    }
  }

  lemma {:induction false} WorkersUpdate(ws: seq<Worker>, i: nat, x: Worker, k: Level, w: Weight)
    requires i < |ws|
    ensures WorkersWeight(ws[i := x], k, w) + WorkerWeight(ws[i], k, w)
         == WorkersWeight(ws, k, w) + WorkerWeight(x, k, w)
  {
    if i == 0 {
      assert ws[i := x][1..] == ws[1..];
    } else {
      assert ws[i := x][1..] == ws[1..][i - 1 := x];
      WorkersUpdate(ws[1..], i - 1, x, k, w);
    }
  }

  // What an action takes away from a total and what it adds.
  function Removed(s: State, a: Action, w: Weight): nat
    requires Enabled(s, a)
  {
    match a
    case Emit(_) => 0
    case Take(k, i) => w(k, AtInput, Get(s, k).input[0])
    case Call(k, i, _) => w(k, AtPush, Get(s, k).workers[i].c)
    case Hand(i) => w(First, AtHand, s.first.workers[i].c)
    case RelayTake(k) => w(k, AtRetry, Get(s, k).retry[0])
    case RelaySend(k) => w(k, AtRelay, Get(s, k).relay.c)
  }

  function AddedByCall(st: Stage, k: Level, c: Copy, o: Outcome, w: Weight): nat {
    var c' := c.(retries := c.retries + 1);
    match Decide(c.retries, o)
    case Done => if k.First? then w(k, AtHand, c) else 0
    case Drop => 0
    case Again => w(k, AtPush, c')
    case Requeue => w(k, AtPush, c') + if CanRequeue(st, o) then w(k, AtRetry, c') else 0
  }

  function Added(s: State, a: Action, w: Weight): nat
    requires Enabled(s, a)
  {
    match a
    case Emit(merged) => w(First, AtInput, Copy(s.next, merged, 0))
    case Take(k, i) => w(k, AtPush, Get(s, k).input[0])
    case Call(k, i, o) => AddedByCall(Get(s, k), k, Get(s, k).workers[i].c, o, w)
    case Hand(i) => w(Second, AtInput, s.first.workers[i].c)
    case RelayTake(k) => w(k, AtRelay, Get(s, k).retry[0])
    case RelaySend(k) => w(k, AtInput, Get(s, k).relay.c)
  }

  lemma WorkerReplaced(st: Stage, i: nat, x: Worker, k: Level, w: Weight)
    requires i < |st.workers|
    ensures StageWeight(st.(workers := st.workers[i := x]), k, w) + WorkerWeight(st.workers[i], k, w)
         == StageWeight(st, k, w) + WorkerWeight(x, k, w)
  {
    WorkersUpdate(st.workers, i, x, k, w);
  }

  lemma RetryAppended(st: Stage, c: Copy, k: Level, w: Weight)
    ensures StageWeight(st.(retry := st.retry + [c]), k, w) == StageWeight(st, k, w) + w(k, AtRetry, c)
  {
    QueueAppend(st.retry, c, k, AtRetry, w);
  }

  lemma WorkedWeight(st: Stage, k: Level, i: nat, o: Outcome, w: Weight)
    requires i < |st.workers| && st.workers[i].Pushing?
    ensures StageWeight(Worked(st, k, i, o), k, w) + w(k, AtPush, st.workers[i].c)
         == StageWeight(st, k, w) + AddedByCall(st, k, st.workers[i].c, o, w)
  {
    var c := st.workers[i].c;
    var c' := c.(retries := c.retries + 1);
    var x := Worked(st, k, i, o).workers[i];
    WorkerReplaced(st, i, x, k, w);
    if Decide(c.retries, o).Requeue? && CanRequeue(st, o) {
      RetryAppended(st.(workers := st.workers[i := x]), c', k, w);
    }
  }

  lemma HandTotal(s: State, i: nat, w: Weight)
    requires Enabled(s, Hand(i))
    ensures Total(Apply(s, Hand(i)), w) + w(First, AtHand, s.first.workers[i].c)
         == Total(s, w) + w(Second, AtInput, s.first.workers[i].c)
  {
    WorkersUpdate(s.first.workers, i, Idle, First, w);
    QueueAppend(s.second.input, s.first.workers[i].c, Second, AtInput, w);
  }

  lemma TakeTotal(s: State, k: Level, i: nat, w: Weight)
    requires Enabled(s, Take(k, i))
    ensures Total(Apply(s, Take(k, i)), w) + w(k, AtInput, Get(s, k).input[0])
         == Total(s, w) + w(k, AtPush, Get(s, k).input[0])
  {
    WorkersUpdate(Get(s, k).workers, i, Pushing(Get(s, k).input[0]), k, w);
  }

  // Every step moves, splits or removes exactly the copies it names.
  lemma StepTotal(s: State, a: Action, w: Weight)
    requires Enabled(s, a)
    ensures Total(Apply(s, a), w) + Removed(s, a, w) == Total(s, w) + Added(s, a, w)
  {
    match a
    case Emit(merged) => QueueAppend(s.first.input, Copy(s.next, merged, 0), First, AtInput, w);
    case Take(k, i) => TakeTotal(s, k, i, w);
    case Call(k, i, o) => WorkedWeight(Get(s, k), k, i, o, w);
    case Hand(i) => HandTotal(s, i, w);
    case RelayTake(k) =>
    case RelaySend(k) => QueueAppend(Get(s, k).input, Get(s, k).relay.c, k, AtInput, w);
  }

  lemma {:induction false} WorkersHold(ws: seq<Worker>, i: nat, k: Level, w: Weight)
    requires i < |ws|
    ensures WorkerWeight(ws[i], k, w) <= WorkersWeight(ws, k, w)
  {
    if i > 0 { WorkersHold(ws[1..], i - 1, k, w); }
  }

  // The copies an action takes are part of the total.
  lemma RemovedBounded(s: State, a: Action, w: Weight)
    requires Enabled(s, a)
    ensures Removed(s, a, w) <= Total(s, w)
  {
    match a
    case Emit(_) =>
    case Take(k, i) =>
    case Call(k, i, _) => WorkersHold(Get(s, k).workers, i, k, w);
    case Hand(i) => WorkersHold(s.first.workers, i, First, w);
    case RelayTake(k) =>
    case RelaySend(k) =>
  }

  // ----- the retry counter stays in {0, 1} -----

  function SpentWeight(): Weight {
    (k: Level, p: Place, c: Copy) => if c.retries >= MAX_RETRIES then 1 else 0
  }

  // No live copy has used up its retries.
  ghost predicate NoneSpent(s: State) { Total(s, SpentWeight()) == 0 }

  // The copy a step handles, for the steps that handle one.
  function Handled(s: State, a: Action): Copy
    requires Enabled(s, a)
  {
    match a
    case Emit(merged) => Copy(s.next, merged, 0)
    case Take(k, i) => Get(s, k).input[0]
    case Call(k, i, _) => Get(s, k).workers[i].c
    case Hand(i) => s.first.workers[i].c
    case RelayTake(k) => Get(s, k).retry[0]
    case RelaySend(k) => Get(s, k).relay.c
  }

  lemma NoneSpentStep(s: State, a: Action)
    requires NoneSpent(s) && Enabled(s, a)
    ensures NoneSpent(Apply(s, a)) && Handled(s, a).retries <= 1
  {
    RemovedBounded(s, a, SpentWeight());
    StepTotal(s, a, SpentWeight());
  }

  // ----- potentials: what one batch can still cause -----

  // Calls of a pusher function that a copy at (k, p) can still cause.
  function CallBudget(k: Level, p: Place, retries: nat): nat {
    match k
    case Second => if retries == 0 then 3 else 1
    case First =>
      if p.AtHand? then (if retries == 0 then 3 else 1)
      else if retries == 0 then 5 else 2
  }

  // Additions to numIngested that a copy can still cause, wherever it is.
  function CountBudget(retries: nat): nat { if retries == 0 then 2 else 1 }

  function CallWeight(id: nat): Weight {
    (k: Level, p: Place, c: Copy) => if c.id == id then CallBudget(k, p, c.retries) else 0
  }

  function CountWeight(id: nat): Weight {
    (k: Level, p: Place, c: Copy) => if c.id == id then CountBudget(c.retries) else 0
  }

  function IngestWeight(): Weight {
    (k: Level, p: Place, c: Copy) => if c.retries == 0 then 2 * c.merged else c.merged
  }

  // Spent plus remaining budget never exceeds what the batch started with.
  ghost predicate WithinBudget(s: State, id: nat) {
    && s.calls[id] + Total(s, CallWeight(id)) <= (if id < s.next then 5 else 0)
    && s.counted[id] + Total(s, CountWeight(id)) <= (if id < s.next then 2 else 0)
  }

  ghost predicate Inv(s: State) {
    && NoneSpent(s)
    && (forall id: nat :: WithinBudget(s, id))
    && s.numIngested + Total(s, IngestWeight()) <= 2 * s.batched
  }

  // A failed call splits its budget between the inline retry and the queued copy.
  lemma CallWithinBudget(st: Stage, k: Level, c: Copy, o: Outcome, id: nat)
    requires c.retries <= 1
    ensures AddedByCall(st, k, c, o, CountWeight(id)) + (if c.id == id && k.Second? && o.Pushed? then 1 else 0)
         <= CountWeight(id)(k, AtPush, c)
    ensures AddedByCall(st, k, c, o, CallWeight(id)) + (if c.id == id then 1 else 0) <= CallWeight(id)(k, AtPush, c)
  {
  }

  lemma MoveWithinBudget(s: State, a: Action, id: nat)
    requires Enabled(s, a) && !a.Call? && !(a.Emit? && id == s.next)
    ensures Added(s, a, CountWeight(id)) <= Removed(s, a, CountWeight(id))
    ensures Added(s, a, CallWeight(id)) <= Removed(s, a, CallWeight(id))
  {
  }

  // The retry potential of a batch: no step of any worker, relay or error outcome makes it grow.
  lemma PotentialNeverGrows(s: State, a: Action, id: nat)
    requires NoneSpent(s) && Enabled(s, a) && !(a.Emit? && id == s.next)
    ensures Total(Apply(s, a), CountWeight(id)) <= Total(s, CountWeight(id))
    ensures Apply(s, a).counted[id] + Total(Apply(s, a), CountWeight(id)) <= s.counted[id] + Total(s, CountWeight(id))
    ensures Apply(s, a).calls[id] + Total(Apply(s, a), CallWeight(id)) <= s.calls[id] + Total(s, CallWeight(id))
  {
    NoneSpentStep(s, a);
    StepTotal(s, a, CountWeight(id));
    StepTotal(s, a, CallWeight(id));
    if a.Call? {
      CallWithinBudget(Get(s, a.k), a.k, Handled(s, a), a.o, id);
    } else {
      MoveWithinBudget(s, a, id);
    }
  }

  lemma EmitStep(s: State, merged: nat)
    requires Enabled(s, Emit(merged)) && WithinBudget(s, s.next)
    ensures WithinBudget(Apply(s, Emit(merged)), s.next)
  {
    StepTotal(s, Emit(merged), CallWeight(s.next));
    StepTotal(s, Emit(merged), CountWeight(s.next));
  }

  lemma CallIngests(st: Stage, k: Level, c: Copy, o: Outcome)
    requires c.retries <= 1
    ensures AddedByCall(st, k, c, o, IngestWeight()) + (if k.Second? && o.Pushed? then c.merged else 0)
         <= IngestWeight()(k, AtPush, c)
  {
  }

  lemma IngestStep(s: State, a: Action)
    requires NoneSpent(s) && Enabled(s, a)
    requires s.numIngested + Total(s, IngestWeight()) <= 2 * s.batched
    ensures Apply(s, a).numIngested + Total(Apply(s, a), IngestWeight()) <= 2 * Apply(s, a).batched
  {
    NoneSpentStep(s, a);
    StepTotal(s, a, IngestWeight());
    if a.Call? {
      CallIngests(Get(s, a.k), a.k, Handled(s, a), a.o);
    }
  }

  lemma InvStep(s: State, a: Action)
    requires Inv(s) && Enabled(s, a)
    ensures Inv(Apply(s, a))
  {
    NoneSpentStep(s, a);
    IngestStep(s, a);
    forall id: nat ensures WithinBudget(Apply(s, a), id) {
      assert WithinBudget(s, id);
      if a.Emit? && id == s.next {
        EmitStep(s, a.merged);
      } else {
        PotentialNeverGrows(s, a, id);
      }
    }
  }

  lemma {:induction false} IdleWeight(ws: seq<Worker>, k: Level, w: Weight)
    requires forall i :: 0 <= i < |ws| ==> ws[i].Idle?
    ensures WorkersWeight(ws, k, w) == 0
  {
    if ws != [] { IdleWeight(ws[1..], k, w); }
  }

  lemma InitEmpty(s: State, w: Weight)
    requires Init(s)
    ensures Total(s, w) == 0
  {
    IdleWeight(s.first.workers, First, w);
    IdleWeight(s.second.workers, Second, w);
  }

  lemma InitInv(s: State)
    requires Init(s)
    ensures Inv(s)
  {
    InitEmpty(s, SpentWeight());
    InitEmpty(s, IngestWeight());
    forall id: nat ensures WithinBudget(s, id) {
      InitEmpty(s, CallWeight(id));
      InitEmpty(s, CountWeight(id));
    }
  }

  lemma {:induction false} InvRun(s: State, acts: seq<Action>)
    requires Inv(s) && IsRun(s, acts)
    ensures Inv(Final(s, acts))
    decreases |acts|
  {
    if acts != [] {
      InvStep(s, acts[0]);
      InvRun(Apply(s, acts[0]), acts[1..]);
    }
  }

  /**
   Over every interleaving and every error outcome: a copy that a step handles has
   used at most one retry, a batch reaches a pusher function at most five times and
   `numIngested` at most twice, and `numIngested` is at most twice the reports batched.
   */
  lemma RetryBound(s: State, acts: seq<Action>, id: nat)
    requires Init(s) && IsRun(s, acts)
    ensures var t := Final(s, acts);
      && t.calls[id] <= 5 && t.counted[id] <= 2
      && t.numIngested <= 2 * t.batched
      && (forall a :: Enabled(t, a) ==> Handled(t, a).retries <= 1)
  {
    InitInv(s);
    InvRun(s, acts);
    var t := Final(s, acts);
    assert WithinBudget(t, id);
    forall a | Enabled(t, a) ensures Handled(t, a).retries <= 1 {
      NoneSpentStep(t, a);
    }
  }

  // ----- the bounds are reached: one transient error makes a batch count twice -----

  const TRANSIENT := Failed(false, true, RenewFailed(false), true)

  // One worker per stage, the default queue sizes.
  const LONE: State :=
    State(Stage(10, 5, [], [], Waiting, [Idle]), Stage(10, 5, [], [], Waiting, [Idle]), multiset{}, multiset{}, 0, 0, 0)

  const OPENING: seq<Action> := [Emit(7), Take(First, 0), Call(First, 0, TRANSIENT), RelayTake(First)]

  lemma {:induction false} RunAppend(s: State, a: seq<Action>, b: seq<Action>)
    requires IsRun(s, a) && IsRun(Final(s, a), b)
    ensures IsRun(s, a + b) && Final(s, a + b) == Final(Final(s, a), b)
    decreases |a|
  {
    if a == [] {
      assert a + b == b;
    } else {
      assert (a + b)[1..] == a[1..] + b;
      RunAppend(Apply(s, a[0]), a[1..], b);
    }
  }

  // The first call fails: one copy is in the relay, one is still with the worker.
  const SPLIT: State :=
    LONE.(first := Stage(10, 5, [], [], Holding(Copy(0, 7, 1)), [Pushing(Copy(0, 7, 1))]),
          calls := multiset{0}, batched := 7, next := 1)

  // A run grows at its front.
  lemma Prepend(s: State, a: Action, rest: seq<Action>, t: State)
    requires Enabled(s, a) && IsRun(Apply(s, a), rest) && Final(Apply(s, a), rest) == t
    ensures IsRun(s, [a] + rest) && Final(s, [a] + rest) == t
  {
    assert ([a] + rest)[1..] == rest;
  }

  lemma Opening()
    ensures IsRun(LONE, OPENING) && Final(LONE, OPENING) == SPLIT
  {
    var s1 := Apply(LONE, Emit(7));
    var s2 := Apply(s1, Take(First, 0));
    var s3 := Apply(s2, Call(First, 0, TRANSIENT));
    var s4 := Apply(s3, RelayTake(First));
    assert s4.first == SPLIT.first && s4.second == SPLIT.second && s4.calls == SPLIT.calls;
    Prepend(s3, RelayTake(First), [], SPLIT);
    Prepend(s2, Call(First, 0, TRANSIENT), [RelayTake(First)], SPLIT);
    Prepend(s1, Take(First, 0), [Call(First, 0, TRANSIENT), RelayTake(First)], SPLIT);
    Prepend(LONE, Emit(7), [Take(First, 0), Call(First, 0, TRANSIENT), RelayTake(First)], SPLIT);
  }

  // A copy with one retry left goes through both stages and is counted.
  const THROUGH: seq<Action> := [Call(First, 0, Pushed), Hand(0), Take(Second, 0), Call(Second, 0, Pushed)]

  lemma GoesThrough(s: State, c: Copy)
    requires s.first.workers == [Pushing(c)] && s.second == LONE.second
    ensures IsRun(s, THROUGH)
    ensures Final(s, THROUGH) == s.(first := s.first.(workers := [Idle]),
      calls := s.calls + multiset{c.id} + multiset{c.id}, counted := s.counted + multiset{c.id},
      numIngested := s.numIngested + c.merged)
  {
    var s1 := Apply(s, Call(First, 0, Pushed));
    var s2 := Apply(s1, Hand(0));
    var s3 := Apply(s2, Take(Second, 0));
    var s4 := Apply(s3, Call(Second, 0, Pushed));
    assert s2.first.workers == [Idle] && s2.second.input == [c] && s3.second.input == [];
    assert s3.second.workers == [Pushing(c)] && s4.second.workers == [Idle];
    Prepend(s3, Call(Second, 0, Pushed), [], s4);
    Prepend(s2, Take(Second, 0), [Call(Second, 0, Pushed)], s4);
    Prepend(s1, Hand(0), [Take(Second, 0), Call(Second, 0, Pushed)], s4);
    Prepend(s, Call(First, 0, Pushed), [Hand(0), Take(Second, 0), Call(Second, 0, Pushed)], s4);
  }

  const RELAYED: seq<Action> := [RelaySend(First), Take(First, 0)]

  lemma Relayed(s: State, c: Copy)
    requires s.first == Stage(10, 5, [], [], Holding(c), [Idle])
    ensures IsRun(s, RELAYED)
    ensures Final(s, RELAYED) == s.(first := Stage(10, 5, [], [], Waiting, [Pushing(c)]))
  {
    var s1 := Apply(s, RelaySend(First));
    var s2 := Apply(s1, Take(First, 0));
    assert s1.first.input == [c] && s2.first.input == [] && s2.first.workers == [Pushing(c)];
    Prepend(s1, Take(First, 0), [], s2);
    Prepend(s, RelaySend(First), [Take(First, 0)], s2);
  }

  // At-most-once counting is false of the code: the inline retry and the queued copy both succeed.
  lemma DoubleCount()
    ensures Init(LONE) && IsRun(LONE, OPENING + THROUGH + RELAYED + THROUGH)
    ensures var t := Final(LONE, OPENING + THROUGH + RELAYED + THROUGH);
      t.calls[0] == 5 && t.counted[0] == 2 && t.batched == 7 && t.numIngested == 14
  {
    var c := Copy(0, 7, 1);
    Opening();
    GoesThrough(SPLIT, c);
    var once := Final(SPLIT, THROUGH);
    Relayed(once, c);
    var back := Final(once, RELAYED);
    GoesThrough(back, c);
    RunAppend(LONE, OPENING, THROUGH);
    RunAppend(LONE, OPENING + THROUGH, RELAYED);
    RunAppend(LONE, OPENING + THROUGH + RELAYED, THROUGH);
  }
}
