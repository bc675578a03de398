/**
 The whole agent-report pipeline: uncompress workers, preparers, the batcher and the
 resolver updater in front of the two-stage pusher.  Reports are interchangeable
 here, so the front queues are modelled by their lengths.

 The main results: no reachable state that holds a report or a batch is stuck, and
 every step other than the arrival of a report decreases a rank; so once reports stop
 arriving, the pipeline empties whatever the scheduling and the database errors.
 */
module Pipeline {
  import opened PusherProtocol
  import Batching

  const BATCH_SIZE := Batching.BATCH_SIZE

  datatype Unpacker = Free | Unpacking | Unpacked
  datatype Preparer = Ready | Both | OnlyData | OnlyResolvers
  datatype Batcher = Gathering(size: nat) | Sending(size: nat)

  datatype Front = Front(
    ingesterCap: nat,
    ingester: nat, unpackers: seq<Unpacker>,
    prepared: nat, preparers: seq<Preparer>,       // preparersInput and its workers
    data: nat, batcher: Batcher,                   // the batcher channel and its loop
    updates: nat, pending: nat,                    // resolversUpdate and the updater's buffer
    accepted: nat, discarded: nat, resolved: nat)  // resolved: resolvers pushed to Redis

  datatype Whole = Whole(front: Front, back: State)

  // ----- steps -----

  datatype Step =
    | Ingest
    | Unpack(i: nat)                  // receive a compressed report
    | Fill(i: nat, ok: bool)          // decode it, or drop it
    | Forward(i: nat)
    | Prepare(i: nat)
    | SendData(i: nat)
    | SendResolvers(i: nat)
    | Gather
    | BatchTick
    | SendBatch
    | GatherResolvers
    | UpdateTick
    | Push(a: Action)

  function CountFree(us: seq<Unpacker>): nat {
    if us == [] then 0 else (if us[0].Free? then 1 else 0) + CountFree(us[1..])
  }
  function CountReady(ps: seq<Preparer>): nat {
    if ps == [] then 0 else (if ps[0].Ready? then 1 else 0) + CountReady(ps[1..])
  }

  predicate CanStep(s: Whole, p: Step) {
    var f := s.front;
    match p
    case Ingest => f.ingester < f.ingesterCap + CountFree(f.unpackers)
    case Unpack(i) => i < |f.unpackers| && f.unpackers[i].Free? && f.ingester > 0
    case Fill(i, _) => i < |f.unpackers| && f.unpackers[i].Unpacking?
    case Forward(i) =>
      i < |f.unpackers| && f.unpackers[i].Unpacked? && f.prepared < BATCH_SIZE + CountReady(f.preparers)
    case Prepare(i) => i < |f.preparers| && f.preparers[i].Ready? && f.prepared > 0
    case SendData(i) =>
      && i < |f.preparers| && (f.preparers[i].Both? || f.preparers[i].OnlyData?)
      && f.data < BATCH_SIZE + (if f.batcher.Gathering? then 1 else 0)
    case SendResolvers(i) =>
      && i < |f.preparers| && (f.preparers[i].Both? || f.preparers[i].OnlyResolvers?)
      && f.updates < BATCH_SIZE + 1
    case Gather => f.batcher.Gathering? && f.data > 0
    case BatchTick => f.batcher.Gathering? && f.batcher.size > 0
    case SendBatch => f.batcher.Sending? && Enabled(s.back, Emit(f.batcher.size))
    case GatherResolvers => f.updates > 0
    case UpdateTick => f.pending > 0
    case Push(a) => !a.Emit? && Enabled(s.back, a)
  }

  function Do(s: Whole, p: Step): Whole
    requires CanStep(s, p)
  {
    var f := s.front;
    match p
    case Ingest => s.(front := f.(ingester := f.ingester + 1, accepted := f.accepted + 1))
    case Unpack(i) => s.(front := f.(ingester := f.ingester - 1, unpackers := f.unpackers[i := Unpacking]))
    case Fill(i, ok) =>
      if ok then s.(front := f.(unpackers := f.unpackers[i := Unpacked]))
      else s.(front := f.(unpackers := f.unpackers[i := Free], discarded := f.discarded + 1))
    case Forward(i) => s.(front := f.(unpackers := f.unpackers[i := Free], prepared := f.prepared + 1))
    case Prepare(i) => s.(front := f.(prepared := f.prepared - 1, preparers := f.preparers[i := Both]))
    case SendData(i) =>
      s.(front := f.(data := f.data + 1,
                     preparers := f.preparers[i := if f.preparers[i].Both? then OnlyResolvers else Ready]))
    case SendResolvers(i) =>
      s.(front := f.(updates := f.updates + 1,
                     preparers := f.preparers[i := if f.preparers[i].Both? then OnlyData else Ready]))
    case Gather =>
      var size := f.batcher.size + 1;
      s.(front := f.(data := f.data - 1, batcher := if size == BATCH_SIZE then Sending(size) else Gathering(size)))
    case BatchTick => s.(front := f.(batcher := Sending(f.batcher.size)))
    case SendBatch => Whole(f.(batcher := Gathering(0)), Apply(s.back, Emit(f.batcher.size)))
    case GatherResolvers =>
      var size := f.pending + 1;
      if size == BATCH_SIZE
      then s.(front := f.(updates := f.updates - 1, pending := 0, resolved := f.resolved + size))
      else s.(front := f.(updates := f.updates - 1, pending := size))
    case UpdateTick => s.(front := f.(pending := 0, resolved := f.resolved + f.pending))
    case Push(a) => s.(back := Apply(s.back, a))
  }

  predicate IsPath(s: Whole, ps: seq<Step>)
    decreases |ps|
  {
    ps == [] || (CanStep(s, ps[0]) && IsPath(Do(s, ps[0]), ps[1..]))
  }

  function End(s: Whole, ps: seq<Step>): Whole
    requires IsPath(s, ps)
    decreases |ps|
  {
    if ps == [] then s else End(Do(s, ps[0]), ps[1..])
  }

  // ----- invariant -----

  ghost predicate Start(s: Whole) {
    var f := s.front;
    && PusherProtocol.Init(s.back)
    && |f.unpackers| > 0 && |f.preparers| > 0
    && (forall i :: 0 <= i < |f.unpackers| ==> f.unpackers[i].Free?)
    && (forall i :: 0 <= i < |f.preparers| ==> f.preparers[i].Ready?)
    && f.ingester == f.prepared == f.data == f.updates == f.pending == 0
    && f.batcher == Gathering(0) && f.accepted == f.discarded == f.resolved == 0
  }

  function UnpackerLoad(u: Unpacker): nat { if u.Free? then 0 else 1 }
  function PreparerLoad(p: Preparer): nat { if p.Both? || p.OnlyData? then 1 else 0 }

  function UnpackersLoad(us: seq<Unpacker>): nat {
    if us == [] then 0 else UnpackerLoad(us[0]) + UnpackersLoad(us[1..])
  }
  function PreparersLoad(ps: seq<Preparer>): nat {
    if ps == [] then 0 else PreparerLoad(ps[0]) + PreparersLoad(ps[1..])
  }

  function ResolverLoad(p: Preparer): nat { if p.Both? || p.OnlyResolvers? then 1 else 0 }
  function ResolversLoad(ps: seq<Preparer>): nat {
    if ps == [] then 0 else ResolverLoad(ps[0]) + ResolversLoad(ps[1..])
  }

  ghost predicate Good(s: Whole) {
    var f := s.front;
    && PusherProtocol.Inv(s.back)
    && |s.back.first.workers| > 0 && |s.back.second.workers| == 1
    && !s.back.second.workers[0].Handing?
    && |f.unpackers| > 0 && |f.preparers| > 0
    && f.batcher.size <= BATCH_SIZE && (f.batcher.Gathering? ==> f.batcher.size < BATCH_SIZE)
    && (f.batcher.Sending? ==> f.batcher.size > 0)
    && f.pending < BATCH_SIZE
    // every accepted report is in exactly one place
    && f.accepted == f.discarded + f.ingester + UnpackersLoad(f.unpackers) + f.prepared
                     + PreparersLoad(f.preparers) + f.data + f.batcher.size + s.back.batched
    // every prepared report goes to the batcher and to the resolver updater
    && PreparersLoad(f.preparers) + f.data + f.batcher.size + s.back.batched
       == ResolversLoad(f.preparers) + f.updates + f.pending + f.resolved
  }

  lemma {:induction false} UnpackersUpdate(us: seq<Unpacker>, i: nat, x: Unpacker)
    requires i < |us|
    ensures UnpackersLoad(us[i := x]) + UnpackerLoad(us[i]) == UnpackersLoad(us) + UnpackerLoad(x)
    ensures UnpackersRank(us[i := x]) + UnpackerRank(us[i]) == UnpackersRank(us) + UnpackerRank(x)
  {
    if i == 0 {
      assert us[i := x][1..] == us[1..];
    } else {
      assert us[i := x][1..] == us[1..][i - 1 := x];
      UnpackersUpdate(us[1..], i - 1, x);
    }
  }

  lemma {:induction false} PreparersUpdate(ps: seq<Preparer>, i: nat, x: Preparer)
    requires i < |ps|
    ensures PreparersLoad(ps[i := x]) + PreparerLoad(ps[i]) == PreparersLoad(ps) + PreparerLoad(x)
    ensures ResolversLoad(ps[i := x]) + ResolverLoad(ps[i]) == ResolversLoad(ps) + ResolverLoad(x)
    ensures PreparersRank(ps[i := x]) + PreparerRank(ps[i]) == PreparersRank(ps) + PreparerRank(x)
  {
    if i == 0 {
      assert ps[i := x][1..] == ps[1..];
    } else {
      assert ps[i := x][1..] == ps[1..][i - 1 := x];
      PreparersUpdate(ps[1..], i - 1, x);
    }
  }

  // ----- rank -----

  function BackRank(k: Level, p: Place, retries: nat): nat {
    match k
    case Second => (
      match p
      case AtPush => if retries == 0 then 6 else 1
      case AtInput => if retries == 0 then 7 else 2
      case AtRelay => if retries == 0 then 8 else 3
      case AtRetry => if retries == 0 then 9 else 4
      case AtHand => 0)
    case First => (
      match p
      case AtHand => if retries == 0 then 8 else 3
      case AtPush => if retries == 0 then 12 else 4
      case AtInput => if retries == 0 then 13 else 5
      case AtRelay => if retries == 0 then 14 else 6
      case AtRetry => if retries == 0 then 15 else 7)
  }

  function RankWeight(): Weight {
    (k: Level, p: Place, c: Copy) => BackRank(k, p, c.retries)
  }

  function UnpackerRank(u: Unpacker): nat {
    match u
    case Free => 0
    case Unpacked => 22
    case Unpacking => 23
  }
  function PreparerRank(p: Preparer): nat {
    match p
    case Ready => 0
    case OnlyResolvers => 3
    case OnlyData => 17
    case Both => 20
  }
  function UnpackersRank(us: seq<Unpacker>): nat {
    if us == [] then 0 else UnpackerRank(us[0]) + UnpackersRank(us[1..])
  }
  function PreparersRank(ps: seq<Preparer>): nat {
    if ps == [] then 0 else PreparerRank(ps[0]) + PreparersRank(ps[1..])
  }
  function BatcherRank(b: Batcher): nat {
    match b
    case Gathering(size) => 15 * size
    case Sending(_) => 14
  }

  function FrontRank(f: Front): nat {
    24 * f.ingester + UnpackersRank(f.unpackers) + 21 * f.prepared + PreparersRank(f.preparers)
    + 16 * f.data + BatcherRank(f.batcher) + 2 * f.updates + f.pending
  }

  function Rank(s: Whole): nat { FrontRank(s.front) + Total(s.back, RankWeight()) }

  lemma CallRank(st: Stage, k: Level, c: Copy, o: Outcome)
    requires c.retries <= 1
    ensures AddedByCall(st, k, c, o, RankWeight()) < RankWeight()(k, AtPush, c)
  {
  }

  lemma PushRank(b: State, a: Action)
    requires PusherProtocol.Inv(b) && Enabled(b, a) && !a.Emit?
    ensures Total(Apply(b, a), RankWeight()) < Total(b, RankWeight())
  {
    NoneSpentStep(b, a);
    StepTotal(b, a, RankWeight());
    if a.Call? {
      CallRank(Get(b, a.k), a.k, Handled(b, a), a.o);
    }
  }

  lemma UnpackRank(s: Whole, p: Step)
    requires CanStep(s, p) && (p.Unpack? || p.Fill? || p.Forward?)
    ensures FrontRank(Do(s, p).front) < FrontRank(s.front)
  {
    UnpackersUpdate(s.front.unpackers, p.i, Do(s, p).front.unpackers[p.i]);
  }

  lemma FrontStepRank(s: Whole, p: Step)
    requires Good(s) && CanStep(s, p) && !p.Push? && !p.Ingest? && !p.SendBatch?
    ensures FrontRank(Do(s, p).front) < FrontRank(s.front)
    ensures Do(s, p).back == s.back
  {
    var f := s.front;
    match p
    case Unpack(i) => UnpackRank(s, p);
    case Fill(i, ok) => UnpackRank(s, p);
    case Forward(i) => UnpackRank(s, p);
    case Prepare(i) => PreparersUpdate(f.preparers, i, Both);
    case SendData(i) => PreparersUpdate(f.preparers, i, Do(s, p).front.preparers[i]);
    case SendResolvers(i) => PreparersUpdate(f.preparers, i, Do(s, p).front.preparers[i]);
    case Gather =>
    case BatchTick =>
    case GatherResolvers =>
    case UpdateTick =>
  }

  // Every step but the arrival of a report brings the pipeline closer to empty.
  lemma RankDecreases(s: Whole, p: Step)
    requires Good(s) && CanStep(s, p) && !p.Ingest?
    ensures Rank(Do(s, p)) < Rank(s)
  {
    if p.Push? {
      PushRank(s.back, p.a);
    } else if p.SendBatch? {
      StepTotal(s.back, Emit(s.front.batcher.size), RankWeight());
    } else {
      FrontStepRank(s, p);
    }
  }

  // ----- the invariant is inductive -----

  lemma PushKeepsShape(b: State, a: Action)
    requires Enabled(b, a)
    requires |b.first.workers| > 0 && |b.second.workers| == 1 && !b.second.workers[0].Handing?
    ensures var c := Apply(b, a);
      |c.first.workers| > 0 && |c.second.workers| == 1 && !c.second.workers[0].Handing?
    ensures !a.Emit? ==> Apply(b, a).batched == b.batched
  {
  }

  lemma UnpackGood(s: Whole, p: Step)
    requires Good(s) && CanStep(s, p) && (p.Unpack? || p.Fill? || p.Forward?)
    ensures Good(Do(s, p))
  {
    UnpackersUpdate(s.front.unpackers, p.i, Do(s, p).front.unpackers[p.i]);
  }

  lemma PrepareGood(s: Whole, p: Step)
    requires Good(s) && CanStep(s, p) && (p.Prepare? || p.SendData? || p.SendResolvers?)
    ensures Good(Do(s, p))
  {
    PreparersUpdate(s.front.preparers, p.i, Do(s, p).front.preparers[p.i]);
  }

  lemma FrontStepGood(s: Whole, p: Step)
    requires Good(s) && CanStep(s, p) && !p.Push? && !p.SendBatch?
    ensures Good(Do(s, p))
  {
    if p.Unpack? || p.Fill? || p.Forward? {
      UnpackGood(s, p);
    } else if p.Prepare? || p.SendData? || p.SendResolvers? {
      PrepareGood(s, p);
    }
  }

  lemma GoodStep(s: Whole, p: Step)
    requires Good(s) && CanStep(s, p)
    ensures Good(Do(s, p))
  {
    if p.Push? {
      PusherProtocol.InvStep(s.back, p.a);
      PushKeepsShape(s.back, p.a);
    } else if p.SendBatch? {
      PusherProtocol.InvStep(s.back, Emit(s.front.batcher.size));
      PushKeepsShape(s.back, Emit(s.front.batcher.size));
    } else {
      FrontStepGood(s, p);
    }
  }

  lemma {:induction false} FreeLoad(us: seq<Unpacker>)
    requires forall i :: 0 <= i < |us| ==> us[i].Free?
    ensures UnpackersLoad(us) == 0
  {
    if us != [] { FreeLoad(us[1..]); }
  }

  lemma {:induction false} ReadyLoad(ps: seq<Preparer>)
    requires forall i :: 0 <= i < |ps| ==> ps[i].Ready?
    ensures PreparersLoad(ps) == 0 && ResolversLoad(ps) == 0
  {
    if ps != [] { ReadyLoad(ps[1..]); }
  }

  lemma StartGood(s: Whole)
    requires Start(s)
    ensures Good(s)
  {
    PusherProtocol.InitInv(s.back);
    FreeLoad(s.front.unpackers);
    ReadyLoad(s.front.preparers);
  }

  lemma {:induction false} GoodPath(s: Whole, ps: seq<Step>)
    requires Good(s) && IsPath(s, ps)
    ensures Good(End(s, ps))
    decreases |ps|
  {
    if ps != [] {
      GoodStep(s, ps[0]);
      GoodPath(Do(s, ps[0]), ps[1..]);
    }
  }

  // ----- no deadlock -----

  predicate StageEmpty(st: Stage) {
    && st.input == [] && st.retry == [] && st.relay.Waiting?
    && forall i :: 0 <= i < |st.workers| ==> st.workers[i].Idle?
  }

  predicate Empty(s: Whole) {
    var f := s.front;
    && StageEmpty(s.back.first) && StageEmpty(s.back.second)
    && f.ingester == f.prepared == f.data == f.updates == f.pending == 0
    && (forall i :: 0 <= i < |f.unpackers| ==> f.unpackers[i].Free?)
    && (forall i :: 0 <= i < |f.preparers| ==> f.preparers[i].Ready?)
    && f.batcher == Gathering(0)
  }

  lemma AnIdleWorker(ws: seq<Worker>)
    requires |ws| > 0 && ws[0].Idle?
    ensures IdleCount(ws) > 0
  {
  }

  // A step of a stage that is not empty, if it can hand its output over.
  lemma StageProgress(b: State, k: Level) returns (a: Action)
    requires |Get(b, k).workers| > 0 && !StageEmpty(Get(b, k))
    requires k.First? ==> CanSend(b.second)
    requires k.Second? ==> forall i :: 0 <= i < |b.second.workers| ==> !b.second.workers[i].Handing?
    ensures !a.Emit? && Enabled(b, a)
    ensures a.Call? ==> a.o.Pushed?
  {
    var st := Get(b, k);
    if i: nat :| i < |st.workers| && !st.workers[i].Idle? {
      a := if st.workers[i].Pushing? then Call(k, i, Pushed) else Hand(i);
    } else if st.input != [] {
      a := Take(k, 0);
    } else if st.relay.Holding? {
      AnIdleWorker(st.workers);
      a := RelaySend(k);
    } else {
      a := RelayTake(k);
    }
  }

  lemma BackProgress(b: State) returns (a: Action)
    requires |b.first.workers| > 0 && |b.second.workers| == 1 && !b.second.workers[0].Handing?
    requires !(StageEmpty(b.first) && StageEmpty(b.second))
    ensures !a.Emit? && Enabled(b, a)
    ensures a.Call? ==> a.o.Pushed?
  {
    if !StageEmpty(b.second) {
      a := StageProgress(b, Second);
    } else {
      AnIdleWorker(b.second.workers);
      a := StageProgress(b, First);
    }
  }

  lemma FrontProgress(s: Whole) returns (p: Step)
    requires Good(s) && !Empty(s) && StageEmpty(s.back.first) && StageEmpty(s.back.second)
    ensures !p.Ingest? && !p.Push? && CanStep(s, p)
  {
    var f := s.front;
    AnIdleWorker(s.back.first.workers);
    if f.batcher.Sending? {
      p := SendBatch;
    } else if f.batcher.size > 0 {
      p := BatchTick;
    } else if f.data > 0 {
      p := Gather;
    } else if f.updates > 0 {
      p := GatherResolvers;
    } else if f.pending > 0 {
      p := UpdateTick;
    } else if i: nat :| i < |f.preparers| && !f.preparers[i].Ready? {
      p := if f.preparers[i].OnlyResolvers? then SendResolvers(i) else SendData(i);
    } else if f.prepared > 0 {
      p := Prepare(0);
    } else if i: nat :| i < |f.unpackers| && !f.unpackers[i].Free? {
      p := if f.unpackers[i].Unpacking? then Fill(i, true) else Forward(i);
    } else {
      p := Unpack(0);
    }
  }

  lemma Progress(s: Whole) returns (p: Step)
    requires Good(s) && !Empty(s)
    ensures !p.Ingest? && CanStep(s, p)
    ensures p.Push? && p.a.Call? ==> p.a.o.Pushed?
  {
    if StageEmpty(s.back.first) && StageEmpty(s.back.second) {
      p := FrontProgress(s);
    } else {
      var a := BackProgress(s.back);
      p := Push(a);
    }
  }

  /**
   Deadlock freedom: in every reachable state, either the pipeline holds nothing or
   some worker, relay or ticker can take a step without a new report arriving.
   */
  lemma NoDeadlock(s: Whole, ps: seq<Step>)
    requires Start(s) && IsPath(s, ps)
    ensures Empty(End(s, ps)) || exists p: Step :: !p.Ingest? && CanStep(End(s, ps), p)
  {
    StartGood(s);
    GoodPath(s, ps);
    if !Empty(End(s, ps)) {
      var p := Progress(End(s, ps));
    }
  }

  predicate NoIngest(ps: seq<Step>) { forall i :: 0 <= i < |ps| ==> !ps[i].Ingest? }

  lemma {:induction false} PathWithinRank(s: Whole, ps: seq<Step>)
    requires Good(s) && IsPath(s, ps) && NoIngest(ps)
    ensures Good(End(s, ps)) && |ps| + Rank(End(s, ps)) <= Rank(s)
    decreases |ps|
  {
    if ps != [] {
      RankDecreases(s, ps[0]);
      GoodStep(s, ps[0]);
      PathWithinRank(Do(s, ps[0]), ps[1..]);
    }
  }

  /**
   Draining: from any reachable state, every schedule without new reports is finite
   (at most `Rank` steps, for every choice of database errors), and a schedule that
   cannot be continued has emptied the pipeline, with every accepted report either
   discarded by the decoder or part of an emitted batch, and the resolvers of each
   batched report pushed to Redis.
   */
  lemma Drains(s: Whole, before: seq<Step>, after: seq<Step>)
    requires Start(s) && IsPath(s, before) && IsPath(End(s, before), after) && NoIngest(after)
    ensures |after| <= Rank(End(s, before))
    ensures var t := End(End(s, before), after);
      (forall p: Step :: !p.Ingest? ==> !CanStep(t, p)) ==>
        && Empty(t) && t.front.accepted == t.front.discarded + t.back.batched
        && t.front.resolved == t.back.batched
  {
    StartGood(s);
    GoodPath(s, before);
    var m := End(s, before);
    PathWithinRank(m, after);
    var t := End(m, after);
    if forall p: Step :: !p.Ingest? ==> !CanStep(t, p) { Drained(t); }
  }

  lemma Drained(t: Whole)
    requires Good(t) && forall p: Step :: !p.Ingest? ==> !CanStep(t, p)
    ensures Empty(t) && t.front.accepted == t.front.discarded + t.back.batched && t.front.resolved == t.back.batched
  {
    if !Empty(t) {
      var p := Progress(t);
    } else {
      FreeLoad(t.front.unpackers);
      ReadyLoad(t.front.preparers);
    }
  }

  // ----- what the counters count -----

  function Arrivals(ps: seq<Step>): nat {
    if ps == [] then 0 else (if ps[0].Ingest? then 1 else 0) + Arrivals(ps[1..])
  }

  // Reports that could not be decoded.
  function Undecoded(ps: seq<Step>): nat {
    if ps == [] then 0 else (if ps[0].Fill? && !ps[0].ok then 1 else 0) + Undecoded(ps[1..])
  }

  lemma {:induction false} CountersFrom(s: Whole, ps: seq<Step>)
    requires IsPath(s, ps)
    ensures End(s, ps).front.accepted == s.front.accepted + Arrivals(ps)
    ensures End(s, ps).front.discarded == s.front.discarded + Undecoded(ps)
    decreases |ps|
  {
    if ps != [] { CountersFrom(Do(s, ps[0]), ps[1..]); }
  }

  /**
   Nothing is lost on the way to the database but what cannot be decoded: on a path that has
   come to its end, the reports in emitted batches are those that arrived less the undecoded
   ones.
   */
  lemma BatchedExactly(s: Whole, ps: seq<Step>)
    requires Start(s) && IsPath(s, ps) && forall p: Step :: !p.Ingest? ==> !CanStep(End(s, ps), p)
    ensures End(s, ps).back.batched + Undecoded(ps) == Arrivals(ps)
  {
    CountersFrom(s, ps);
    StartGood(s);
    GoodPath(s, ps);
    Drained(End(s, ps));
  }

  // ----- the queues are bounded -----

  ghost predicate WithinCaps(s: Whole) {
    var f, first, second := s.front, s.back.first, s.back.second;
    && f.ingester <= f.ingesterCap + |f.unpackers| && f.prepared <= BATCH_SIZE + |f.preparers|
    && f.data <= BATCH_SIZE + 1 && f.updates <= BATCH_SIZE + 1
    && |first.input| <= first.inputCap + |first.workers| && |first.retry| <= first.retryCap + 1
    && |second.input| <= second.inputCap + |second.workers| && |second.retry| <= second.retryCap + 1
  }

  lemma {:induction false} AtMostAll(us: seq<Unpacker>, ps: seq<Preparer>)
    ensures CountFree(us) <= |us| && CountReady(ps) <= |ps|
    decreases |us| + |ps|
  {
    if us != [] { AtMostAll(us[1..], []); }
    if ps != [] { AtMostAll([], ps[1..]); }
  }

  lemma {:induction false} IdleAtMostAll(ws: seq<Worker>)
    ensures IdleCount(ws) <= |ws|
  {
    if ws != [] { IdleAtMostAll(ws[1..]); }
  }

  lemma BackWithinCaps(s: State, a: Action)
    requires Enabled(s, a)
    requires |s.first.input| <= s.first.inputCap + |s.first.workers| && |s.first.retry| <= s.first.retryCap + 1
    requires |s.second.input| <= s.second.inputCap + |s.second.workers| && |s.second.retry| <= s.second.retryCap + 1
    ensures var t := Apply(s, a);
      && |t.first.input| <= t.first.inputCap + |t.first.workers| && |t.first.retry| <= t.first.retryCap + 1
      && |t.second.input| <= t.second.inputCap + |t.second.workers| && |t.second.retry| <= t.second.retryCap + 1
  {
    IdleAtMostAll(s.first.workers);
    IdleAtMostAll(s.second.workers);
  }

  lemma CapsStep(s: Whole, p: Step)
    requires WithinCaps(s) && CanStep(s, p)
    ensures WithinCaps(Do(s, p))
  {
    AtMostAll(s.front.unpackers, s.front.preparers);
    if p.Push? { BackWithinCaps(s.back, p.a); }
    if p.SendBatch? { BackWithinCaps(s.back, Emit(s.front.batcher.size)); }
  }

  // Every queue holds at most its capacity, and one element more for each receiver.
  lemma {:induction false} QueuesBounded(s: Whole, ps: seq<Step>)
    requires WithinCaps(s) && IsPath(s, ps)
    ensures WithinCaps(End(s, ps))
    decreases |ps|
  {
    if ps != [] {
      CapsStep(s, ps[0]);
      QueuesBounded(Do(s, ps[0]), ps[1..]);
    }
  }

  /**
   A queue below its capacity takes what is sent: a report, a decoded report, prepared data
   and resolvers, a batch for either stage and a copy to be retried.
   */
  lemma RoomMeansReady(s: Whole, i: nat, n: nat, k: Level, o: Outcome)
    ensures s.front.ingester < s.front.ingesterCap ==> CanStep(s, Ingest)
    ensures i < |s.front.unpackers| && s.front.unpackers[i].Unpacked? && s.front.prepared < 1000 ==>
      CanStep(s, Forward(i))
    ensures i < |s.front.preparers| && s.front.preparers[i].Both? && s.front.data < 1000 ==> CanStep(s, SendData(i))
    ensures i < |s.front.preparers| && s.front.preparers[i].Both? && s.front.updates < 1000 ==>
      CanStep(s, SendResolvers(i))
    ensures |s.back.first.input| < s.back.first.inputCap ==> Enabled(s.back, Emit(n))
    ensures var first, second := s.back.first, s.back.second;
      i < |first.workers| && first.workers[i].Handing? && |second.input| < second.inputCap ==> Enabled(s.back, Hand(i))
    ensures |Get(s.back, k).retry| < Get(s.back, k).retryCap ==> CanRequeue(Get(s.back, k), o)
  {
  }

  // ----- full batches -----

  predicate NoBatchTick(ps: seq<Step>) { forall i :: 0 <= i < |ps| ==> !ps[i].BatchTick? }

  // Without a tick of the batcher only full batches are sent.
  lemma {:induction false} FullBatchesOnly(s: Whole, ps: seq<Step>)
    requires IsPath(s, ps) && NoBatchTick(ps)
    requires (s.front.batcher.Sending? ==> s.front.batcher.size == BATCH_SIZE) && s.back.batched % BATCH_SIZE == 0
    ensures var t := End(s, ps);
      (t.front.batcher.Sending? ==> t.front.batcher.size == BATCH_SIZE) && t.back.batched % BATCH_SIZE == 0
    decreases |ps|
  {
    if ps != [] {
      FullStep(s, ps[0]);
      FullBatchesOnly(Do(s, ps[0]), ps[1..]);
    }
  }

  lemma FullStep(s: Whole, p: Step)
    requires CanStep(s, p) && !p.BatchTick?
    requires (s.front.batcher.Sending? ==> s.front.batcher.size == BATCH_SIZE) && s.back.batched % BATCH_SIZE == 0
    ensures var t := Do(s, p);
      (t.front.batcher.Sending? ==> t.front.batcher.size == BATCH_SIZE) && t.back.batched % BATCH_SIZE == 0
  {
  }
}
