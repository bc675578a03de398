/**
 The process supervisor: one process handler, the callers that hold its lock, the
 restart loop started by every `start()`, and the goroutine that waits for the child.

 Each `start()` of an autorestart process makes three unbuffered channels and a new
 loop, so loops are numbered; a send and its receive are one step.  Launching the
 loop and setting `started` is one step as well: the loop cannot clear the flag before
 five runs and four sleeps of five seconds have passed.
 */
module Supervisor {

  const SHORT_RETRIES: int := 5

  // Why a restart loop was left.
  datatype Why = Stopped | StartFailed | NotFound | GaveUp

  datatype LoopPc =
    | AtStart                // about to start the command
    | Launched               // the child runs, its waiter is not spawned yet
    | AtSelect
    | Signalling             // took the stop signal, about to send SIGTERM
    | Sleeping
    | GivingUp               // shortRetries reached zero, `started` not cleared yet
    | Draining(why: Why)     // blocked on the final receive from `done`
    | Acking(why: Why)       // blocked on the send to `ackstop`
    | Gone

  datatype WaiterPc = NoWaiter | Watching | TellFalse | TellTrue | Over

  datatype Loop = Loop(
    pc: LoopPc, waiter: WaiterPc,
    child: int,              // the last child launched, -1 if none
    notFound: bool,          // that child exited with code 127
    shortRetries: int,
    runs: seq<bool>)         // for every run that ended at the select: was it short?

  const NEW_LOOP := Loop(AtStart, NoWaiter, -1, false, SHORT_RETRIES, [])

  datatype Op = StartOp | StopOp | UpgradeOp(restartAfter: bool)

  // What ph.kill and ph.wait refer to.
  datatype Target = OfLoop(g: int) | OfChild(child: int)

  datatype Caller =
    | Outside
    | Checking(op: Op)
    | Stopping(op: Op)                       // inside stop(), before it reads `started`
    | Killing(op: Op, target: Target)
    | Clearing(op: Op)                       // about to clear `started`
    | Awaiting(op: Op, target: Target)
    | Writing(op: Op, restart: bool)         // about to overwrite the binary
    | Starting(op: Op)                       // about to run start()

  datatype State = State(
    auto: bool, started: bool,
    locked: Caller,                          // the caller that holds the handler's lock
    rogue: Caller,                           // StopAllProcesses, which takes no lock
    loops: seq<Loop>, direct: int,           // the child of a process without autorestart
    alive: set<int>, nextChild: int)

  datatype Who = Locked | Rogue

  function At(s: State, w: Who): Caller { if w.Locked? then s.locked else s.rogue }
  function Move(s: State, w: Who, c: Caller): State {
    if w.Locked? then s.(locked := c) else s.(rogue := c)
  }

  predicate Init(s: State) {
    && !s.started && s.locked.Outside? && s.rogue.Outside?
    && s.loops == [] && s.direct == -1 && s.alive == {} && s.nextChild == 0
  }

  // ----- steps -----

  datatype Action =
    | Lock(op: Op)
    | StopAll
    | Go(w: Who, ok: bool)                   // a step of a caller that does not block
    | TakeStop(w: Who)                       // kill() meets the select
    | Ack(w: Who)                            // wait() meets the acknowledgement
    | Launch(g: nat, ok: bool)
    | Spawn(g: nat)
    | Signal(g: nat)
    | Wake(g: nat)
    | GiveUp(g: nat)
    | Exit(child: int, notFound: bool)
    | See(g: nat)                            // the waiter sees its child gone
    | Tell(g: nat, short: bool)              // the waiter meets a receive from `done`

  function CurrentTarget(s: State): Target {
    if s.auto then OfLoop(|s.loops| - 1) else OfChild(s.direct)
  }

  function AfterStop(op: Op): Caller {
    if op.UpgradeOp? then Writing(op, true) else Outside
  }

  predicate CanGo(s: State, w: Who) {
    match At(s, w)
    case Outside => false
    case Killing(_, target) => target.OfChild?
    case Awaiting(_, target) => target.OfChild? && target.child !in s.alive
    case _ => true
  }

  predicate Enabled(s: State, a: Action) {
    match a
    case Lock(_) => s.locked.Outside?
    case StopAll => s.rogue.Outside?
    case Go(w, _) => CanGo(s, w)
    case TakeStop(w) =>
      var c := At(s, w);
      c.Killing? && c.target.OfLoop? && 0 <= c.target.g < |s.loops| && s.loops[c.target.g].pc.AtSelect?
    case Ack(w) =>
      var c := At(s, w);
      c.Awaiting? && c.target.OfLoop? && 0 <= c.target.g < |s.loops| && s.loops[c.target.g].pc.Acking?
    case Launch(g, _) => g < |s.loops| && s.loops[g].pc.AtStart?
    case Spawn(g) => g < |s.loops| && s.loops[g].pc.Launched?
    case Signal(g) => g < |s.loops| && s.loops[g].pc.Signalling?
    case Wake(g) => g < |s.loops| && s.loops[g].pc.Sleeping?
    case GiveUp(g) => g < |s.loops| && s.loops[g].pc.GivingUp?
    case Exit(child, _) => child in s.alive
    case See(g) => g < |s.loops| && s.loops[g].waiter.Watching? && s.loops[g].child !in s.alive
    case Tell(g, _) =>
      && g < |s.loops| && (s.loops[g].waiter.TellFalse? || s.loops[g].waiter.TellTrue?)
      && (s.loops[g].pc.AtSelect? || s.loops[g].pc.Draining?)
  }

  // start(), reached with the check of its caller done
  function Begin(s: State, w: Who, ok: bool): State {
    var t := Move(s, w, Outside);
    if s.started then t
    else if s.auto then t.(loops := s.loops + [NEW_LOOP], started := true)
    else if ok then
      t.(direct := s.nextChild, alive := s.alive + {s.nextChild}, nextChild := s.nextChild + 1, started := true)
    else t
  }

  function GoStep(s: State, w: Who, ok: bool): State
    requires CanGo(s, w)
  {
    match At(s, w)
    case Checking(op) =>
      (match op
       case StartOp => Move(s, w, if s.started then Outside else Starting(op))
       case StopOp => Move(s, w, if s.started then Stopping(op) else Outside)
       case UpgradeOp(_) => Move(s, w, if s.started then Stopping(op) else Writing(op, false)))
    case Stopping(op) => Move(s, w, if s.started then Killing(op, CurrentTarget(s)) else AfterStop(op))
    case Killing(op, _) => Move(s, w, Clearing(op))
    case Clearing(op) => Move(s, w, Awaiting(op, CurrentTarget(s))).(started := false)
    case Awaiting(op, _) => Move(s, w, AfterStop(op))
    case Writing(op, restart) =>
      Move(s, w, if ok && restart && op.UpgradeOp? && op.restartAfter then Starting(op) else Outside)
    case Starting(op) => Begin(s, w, ok)
  }

  // The bookkeeping of a run that ended: the budget of short runs left.
  function NextRetries(retries: int, short: bool): int {
    if short then retries - 1 else SHORT_RETRIES
  }

  function Told(l: Loop, short: bool): Loop
    requires l.waiter.TellFalse? || l.waiter.TellTrue?
    requires l.pc.AtSelect? || l.pc.Draining?
  {
    var l' := l.(waiter := if l.waiter.TellFalse? then TellTrue else Over);
    if l.pc.Draining? then l'.(pc := Acking(l.pc.why))
    else if l.waiter.TellFalse? then l'.(pc := Draining(NotFound))
    else
      var retries := NextRetries(l.shortRetries, short);
      l'.(shortRetries := retries, runs := l.runs + [short], pc := if retries == 0 then GivingUp else Sleeping)
  }

  function Apply(s: State, a: Action): State
    requires Enabled(s, a)
  {
    match a
    case Lock(op) => s.(locked := Checking(op))
    case StopAll => s.(rogue := Stopping(StopOp))
    case Go(w, ok) => GoStep(s, w, ok)
    case TakeStop(w) =>
      var g := At(s, w).target.g;
      Move(s, w, Clearing(At(s, w).op)).(loops := s.loops[g := s.loops[g].(pc := Signalling)])
    case Ack(w) =>
      var g := At(s, w).target.g;
      Move(s, w, AfterStop(At(s, w).op)).(loops := s.loops[g := s.loops[g].(pc := Gone)])
    case Launch(g, ok) =>
      if ok then
        s.(loops := s.loops[g := s.loops[g].(pc := Launched, child := s.nextChild, notFound := false)],
           alive := s.alive + {s.nextChild}, nextChild := s.nextChild + 1)
      else s.(loops := s.loops[g := s.loops[g].(pc := Draining(StartFailed))])
    case Spawn(g) => s.(loops := s.loops[g := s.loops[g].(pc := AtSelect, waiter := Watching)])
    case Signal(g) => s.(loops := s.loops[g := s.loops[g].(pc := Draining(Stopped))])
    case Wake(g) => s.(loops := s.loops[g := s.loops[g].(pc := AtStart)])
    case GiveUp(g) => s.(started := false, loops := s.loops[g := s.loops[g].(pc := Draining(GaveUp))])
    case Exit(child, notFound) =>
      s.(alive := s.alive - {child},
         loops := seq(|s.loops|, i requires 0 <= i < |s.loops| =>
           if s.loops[i].child == child then s.loops[i].(notFound := notFound) else s.loops[i]))
    case See(g) =>
      s.(loops := s.loops[g := s.loops[g].(waiter := if s.loops[g].notFound then TellFalse else TellTrue)])
    case Tell(g, short) => s.(loops := s.loops[g := Told(s.loops[g], short)])
  }

  predicate IsRun(s: State, acts: seq<Action>)
    decreases |acts|
  {
    acts == [] || (Enabled(s, acts[0]) && IsRun(Apply(s, acts[0]), acts[1..]))
  }

  function Final(s: State, acts: seq<Action>): State
    requires IsRun(s, acts)
    decreases |acts|
  {
    if acts == [] then s else Final(Apply(s, acts[0]), acts[1..])
  }

  // Only callers that take the lock.
  predicate LockedOnly(acts: seq<Action>) { forall i :: 0 <= i < |acts| ==> !acts[i].StopAll? }

  // ----- the invariant of locked runs -----

  // A loop that will never launch, signal or report a child again.
  predicate Retired(l: Loop) {
    l.pc.Gone? || (l.pc == Draining(GaveUp) && l.waiter.Over?)
  }

  // A loop that has taken the stop signal and not finished yet.
  predicate TakenDown(l: Loop) { l.pc.Signalling? || l.pc == Draining(Stopped) || l.pc == Acking(Stopped) }

  // A loop that left through a failed start, exit code 127 or giving up.
  predicate LeftByItself(l: Loop) {
    l.pc.GivingUp? || ((l.pc.Draining? || l.pc.Acking?) && !l.pc.why.Stopped?)
  }

  predicate Running(l: Loop) { l.pc.AtStart? || l.pc.Launched? || l.pc.AtSelect? || l.pc.Sleeping? }

  function Streak(runs: seq<bool>): nat {
    if runs == [] || !runs[|runs| - 1] then 0 else 1 + Streak(runs[..|runs| - 1])
  }

  // Which waiters go with which point of the loop.
  predicate WaiterOk(l: Loop) {
    var busy := l.waiter.Watching? || l.waiter.TellFalse? || l.waiter.TellTrue?;
    match l.pc
    case AtStart => l.waiter.NoWaiter? || l.waiter.Over?
    case Launched => l.waiter.NoWaiter? || l.waiter.Over?
    case AtSelect => busy
    case Signalling => busy
    case Sleeping => l.waiter.Over?
    case GivingUp => l.waiter.Over?
    case Draining(why) =>
      (match why
       case Stopped => busy
       case StartFailed => l.waiter.NoWaiter? || l.waiter.Over?
       case NotFound => l.waiter.TellTrue?
       case GaveUp => l.waiter.Over?)
    case Acking(why) =>
      (why.Stopped? && (l.waiter.TellTrue? || l.waiter.Over?)) || (why.NotFound? && l.waiter.Over?)
    case Gone => l.waiter.TellTrue? || l.waiter.Over?
  }

  // The crash-loop counter: what is left of five short runs in a row.
  predicate CrashOk(l: Loop) {
    && l.shortRetries == SHORT_RETRIES - Streak(l.runs)
    && 0 <= l.shortRetries <= SHORT_RETRIES
    && (l.shortRetries == 0 <==> l.pc.GivingUp? || l.pc == Draining(GaveUp))
  }

  predicate LoopOk(l: Loop) { WaiterOk(l) && CrashOk(l) }

  const NO_LOOP := Loop(Gone, Over, -1, false, SHORT_RETRIES, [])

  // The loop that ph.kill and ph.wait belong to.
  function Last(s: State): Loop { if s.loops == [] then NO_LOOP else s.loops[|s.loops| - 1] }

  predicate LoopsOk(loops: seq<Loop>) {
    && (forall g :: 0 <= g < |loops| ==> LoopOk(loops[g]))
    && (forall g :: 0 <= g < |loops| - 1 ==> Retired(loops[g]))
  }

  // The next child is a new one.
  predicate Fresh(s: State) { forall c :: c in s.alive ==> c < s.nextChild }

  predicate AliveOk(s: State) {
    if s.auto
    then s.alive <= {Last(s).child} && (s.alive != {} ==> Last(s).pc.Launched? || Last(s).waiter.Watching?)
    else s.alive <= {s.direct}
  }

  // Nothing is running and nothing will start by itself.
  predicate Quiet(s: State) { s.alive == {} && (s.auto ==> Retired(Last(s))) }

  predicate CallerOk(s: State) {
    match s.locked
    case Killing(_, target) =>
      && target == CurrentTarget(s) && (s.started || Last(s).pc == Draining(GaveUp))
      && (s.auto ==> !TakenDown(Last(s)) && !Last(s).pc.Gone?)
    case Clearing(_) => s.started && (s.auto ==> TakenDown(Last(s)))
    case Awaiting(_, target) => !s.started && target == CurrentTarget(s) && (s.auto ==> TakenDown(Last(s)))
    case Writing(_, _) => !s.started && Quiet(s)
    case Starting(_) => !s.started && Quiet(s)
    case _ => if s.started then s.auto ==> !TakenDown(Last(s)) else Quiet(s)
  }

  predicate Inv(s: State) {
    && s.rogue.Outside?
    && (!s.auto ==> s.loops == [])
    && (s.started && s.auto ==> !Retired(Last(s)))
    && LoopsOk(s.loops) && AliveOk(s) && Fresh(s) && CallerOk(s)
  }

  lemma InitInv(s: State)
    requires Init(s)
    ensures Inv(s)
  {
  }

  lemma StreakSnoc(runs: seq<bool>, short: bool)
    ensures Streak(runs + [short]) == if short then Streak(runs) + 1 else 0
  {
    assert (runs + [short])[..|runs + [short]| - 1] == runs;
  }

  lemma ToldOk(l: Loop, short: bool)
    requires LoopOk(l)
    requires (l.waiter.TellFalse? || l.waiter.TellTrue?) && (l.pc.AtSelect? || l.pc.Draining?)
    ensures LoopOk(Told(l, short))
  {
    StreakSnoc(l.runs, short);
  }

  // A retired loop takes no step, so a loop that does is the last one.
  lemma OnlyLastMoves(s: State, g: nat)
    requires LoopsOk(s.loops) && g < |s.loops| && !Retired(s.loops[g])
    ensures g == |s.loops| - 1 && s.loops[g] == Last(s)
  {
  }

  lemma ReplaceLast(loops: seq<Loop>, l: Loop)
    requires LoopsOk(loops) && loops != [] && LoopOk(l)
    ensures LoopsOk(loops[|loops| - 1 := l])
  {
  }

  lemma GoInv(s: State, ok: bool)
    requires Inv(s) && CanGo(s, Locked)
    ensures Inv(GoStep(s, Locked, ok))
  {
    if s.locked.Starting? && s.auto && !s.started {
      assert LoopOk(NEW_LOOP) && LoopsOk(s.loops + [NEW_LOOP]);
    }
  }

  // What the report of a waiter changes beside the loop's own bookkeeping.
  lemma ToldKeeps(l: Loop, short: bool)
    requires LoopOk(l) && (l.waiter.TellFalse? || l.waiter.TellTrue?) && (l.pc.AtSelect? || l.pc.Draining?)
    ensures var l' := Told(l, short);
      && l'.child == l.child && !Retired(l) && !Retired(l') && !l'.waiter.Watching? && !l'.pc.Launched?
      && (TakenDown(l') <==> TakenDown(l)) && l'.pc != Draining(GaveUp) && !l'.pc.Gone?
  {
  }

  lemma TellInv(s: State, g: nat, short: bool)
    requires Inv(s) && Enabled(s, Tell(g, short))
    ensures Inv(Apply(s, Tell(g, short)))
  {
    var l := Told(s.loops[g], short);
    OnlyLastMoves(s, g);
    ToldOk(s.loops[g], short);
    ToldKeeps(s.loops[g], short);
    ReplaceLast(s.loops, l);
    assert Apply(s, Tell(g, short)) == s.(loops := s.loops[g := l]);
    assert Last(Apply(s, Tell(g, short))) == l && s.alive == {};
  }

  lemma LaunchInv(s: State, g: nat, ok: bool)
    requires Inv(s) && Enabled(s, Launch(g, ok))
    ensures Inv(Apply(s, Launch(g, ok)))
  {
    OnlyLastMoves(s, g);
    ReplaceLast(s.loops, Apply(s, Launch(g, ok)).loops[g]);
  }

  lemma RunInv(s: State, a: Action)
    requires Inv(s) && Enabled(s, a) && (a.Spawn? || a.See?)
    ensures Inv(Apply(s, a))
  {
    OnlyLastMoves(s, a.g);
    ReplaceLast(s.loops, Apply(s, a).loops[a.g]);
  }

  lemma LeaveInv(s: State, a: Action)
    requires Inv(s) && Enabled(s, a) && (a.Signal? || a.Wake? || a.GiveUp?)
    ensures Inv(Apply(s, a))
  {
    OnlyLastMoves(s, a.g);
    ReplaceLast(s.loops, Apply(s, a).loops[a.g]);
  }

  lemma MeetInv(s: State, a: Action)
    requires Inv(s) && Enabled(s, a) && (a.TakeStop? || a.Ack?)
    ensures Inv(Apply(s, a))
  {
    var g := At(s, a.w).target.g;
    OnlyLastMoves(s, g);
    ReplaceLast(s.loops, Apply(s, a).loops[g]);
  }

  lemma ExitInv(s: State, child: int, notFound: bool)
    requires Inv(s) && Enabled(s, Exit(child, notFound))
    ensures Inv(Apply(s, Exit(child, notFound)))
  {
    var t := Apply(s, Exit(child, notFound));
    forall g | 0 <= g < |t.loops|
      ensures LoopOk(t.loops[g]) && (Retired(s.loops[g]) ==> Retired(t.loops[g]))
    {
      assert LoopOk(s.loops[g]);
    }
  }

  lemma InvStep(s: State, a: Action)
    requires Inv(s) && Enabled(s, a) && !a.StopAll?
    ensures Inv(Apply(s, a))
  {
    match a
    case Lock(op) =>
    case Go(w, ok) => GoInv(s, ok);
    case TakeStop(w) => MeetInv(s, a);
    case Ack(w) => MeetInv(s, a);
    case Exit(child, notFound) => ExitInv(s, child, notFound);
    case Tell(g, short) => TellInv(s, g, short);
    case Launch(g, ok) => LaunchInv(s, g, ok);
    case _ => if a.Spawn? || a.See? { RunInv(s, a); } else { LeaveInv(s, a); }
  }

  lemma {:induction false} InvRun(s: State, acts: seq<Action>)
    requires Inv(s) && IsRun(s, acts) && LockedOnly(acts)
    ensures Inv(Final(s, acts))
    decreases |acts|
  {
    if acts != [] {
      InvStep(s, acts[0]);
      InvRun(Apply(s, acts[0]), acts[1..]);
    }
  }

  lemma AtMostOneOf(a: set<int>, x: int)
    requires a <= {x}
    ensures |a| <= 1
  {
    assert a == {} || a == {x};
  }

  /**
   One child: whatever the order of starts, stops, crashes, restarts and upgrades by
   callers that take the lock, at most one child is alive; none is alive when a caller
   holding the lock finds `started` false, nor when the binary is overwritten.
   */
  lemma OneChild(s: State, acts: seq<Action>)
    requires Init(s) && IsRun(s, acts) && LockedOnly(acts)
    ensures var t := Final(s, acts);
      && |t.alive| <= 1
      && ((t.locked.Checking? || t.locked.Stopping? || t.locked.Starting?) && !t.started ==> t.alive == {})
      && (t.locked.Writing? ==> t.alive == {})
  {
    InitInv(s);
    InvRun(s, acts);
    var t := Final(s, acts);
    AtMostOneOf(t.alive, if t.auto then Last(t).child else t.direct);
  }

  // ----- the crash loop -----

  predicate EachLoopOk(loops: seq<Loop>) { forall g :: 0 <= g < |loops| ==> LoopOk(loops[g]) }

  lemma GoLoops(s: State, w: Who, ok: bool)
    requires EachLoopOk(s.loops) && CanGo(s, w)
    ensures EachLoopOk(GoStep(s, w, ok).loops)
  {
    assert LoopOk(NEW_LOOP);
  }

  lemma ReplaceLoop(loops: seq<Loop>, g: nat, l: Loop)
    requires EachLoopOk(loops) && g < |loops| && LoopOk(l)
    ensures EachLoopOk(loops[g := l])
  {
  }

  lemma MeetLoops(s: State, a: Action)
    requires EachLoopOk(s.loops) && Enabled(s, a) && (a.TakeStop? || a.Ack?)
    ensures EachLoopOk(Apply(s, a).loops)
  {
    var g := At(s, a.w).target.g;
    ReplaceLoop(s.loops, g, s.loops[g].(pc := if a.Ack? then Gone else Signalling));
  }

  lemma OwnLoops(s: State, a: Action)
    requires EachLoopOk(s.loops) && Enabled(s, a)
    requires a.Launch? || a.Spawn? || a.Signal? || a.Wake? || a.GiveUp? || a.See?
    ensures EachLoopOk(Apply(s, a).loops)
  {
    assert LoopOk(s.loops[a.g]);
    ReplaceLoop(s.loops, a.g, Apply(s, a).loops[a.g]);
  }

  lemma TellLoops(s: State, g: nat, short: bool)
    requires EachLoopOk(s.loops) && Enabled(s, Tell(g, short))
    ensures EachLoopOk(Apply(s, Tell(g, short)).loops)
  {
    ToldOk(s.loops[g], short);
    ReplaceLoop(s.loops, g, Told(s.loops[g], short));
  }

  lemma ExitLoops(s: State, child: int, notFound: bool)
    requires EachLoopOk(s.loops) && Enabled(s, Exit(child, notFound))
    ensures EachLoopOk(Apply(s, Exit(child, notFound)).loops)
  {
    var loops := Apply(s, Exit(child, notFound)).loops;
    forall g | 0 <= g < |loops| ensures LoopOk(loops[g]) { assert LoopOk(s.loops[g]); }
  }

  // Every step keeps the bookkeeping of every loop, whoever calls and with or without the lock.
  lemma LoopStep(s: State, a: Action)
    requires EachLoopOk(s.loops) && Enabled(s, a)
    ensures EachLoopOk(Apply(s, a).loops)
  {
    match a
    case Lock(_) =>
    case StopAll =>
    case Go(w, ok) => GoLoops(s, w, ok);
    case TakeStop(_) => MeetLoops(s, a);
    case Ack(_) => MeetLoops(s, a);
    case Exit(child, notFound) => ExitLoops(s, child, notFound);
    case Tell(g, short) => TellLoops(s, g, short);
    case _ => OwnLoops(s, a);
  }

  lemma {:induction false} LoopRun(s: State, acts: seq<Action>)
    requires EachLoopOk(s.loops) && IsRun(s, acts)
    ensures EachLoopOk(Final(s, acts).loops)
    decreases |acts|
  {
    if acts != [] {
      LoopStep(s, acts[0]);
      LoopRun(Apply(s, acts[0]), acts[1..]);
    }
  }

  /**
   The crash loop, on every run, with StopAllProcesses or without: in every loop the
   counter is five minus the current streak of short runs and at least one while the
   loop runs, and the loop gives up exactly when that streak reaches five.
   */
  lemma CrashLoop(s: State, acts: seq<Action>, g: nat)
    requires Init(s) && IsRun(s, acts) && g < |Final(s, acts).loops|
    ensures var l := Final(s, acts).loops[g];
      && l.shortRetries == 5 - Streak(l.runs)
      && (Running(l) ==> 1 <= l.shortRetries <= 5)
      && (Streak(l.runs) == 5 <==> l.pc.GivingUp? || l.pc == Draining(GaveUp))
  {
    LoopRun(s, acts);
    assert LoopOk(Final(s, acts).loops[g]);
  }

  // ----- runs, step by step -----

  lemma Prepend(s: State, a: Action, rest: seq<Action>)
    requires Enabled(s, a) && IsRun(Apply(s, a), rest)
    ensures IsRun(s, [a] + rest) && Final(s, [a] + rest) == Final(Apply(s, a), rest)
  {
    assert ([a] + rest)[1..] == rest;
  }

  lemma One(s: State, a: Action)
    requires Enabled(s, a)
    ensures IsRun(s, [a]) && Final(s, [a]) == Apply(s, a)
  {
    Prepend(s, a, []);
    assert [a] + [] == [a];
  }

  lemma Two(s: State, a: Action, b: Action)
    requires Enabled(s, a) && Enabled(Apply(s, a), b)
    ensures IsRun(s, [a, b]) && Final(s, [a, b]) == Apply(Apply(s, a), b)
  {
    One(Apply(s, a), b);
    Prepend(s, a, [b]);
    assert [a] + [b] == [a, b];
  }

  lemma Three(s: State, a: Action, b: Action, c: Action)
    requires Enabled(s, a) && Enabled(Apply(s, a), b) && Enabled(Apply(Apply(s, a), b), c)
    ensures IsRun(s, [a, b, c]) && Final(s, [a, b, c]) == Apply(Apply(Apply(s, a), b), c)
  {
    Two(Apply(s, a), b, c);
    Prepend(s, a, [b, c]);
    assert [a] + [b, c] == [a, b, c];
  }

  lemma {:induction false} RunAppend(s: State, a: seq<Action>, b: seq<Action>)
    requires IsRun(s, a) && IsRun(Final(s, a), b)
    ensures IsRun(s, a + b) && Final(s, a + b) == Final(Final(s, a), b)
    decreases |a|
  {
    if a == [] {
      assert a + b == b;
    } else {
      assert (a + b)[1..] == a[1..] + b;
      RunAppend(Apply(s, a[0]), a[1..], b);
    }
  }

  // ----- what the end of a run leads to -----

  /**
   When a run ends at the select: exit code 127 ends the loop, five short runs in a row
   end it, and otherwise it sleeps and starts the command again.
   */
  lemma RunEnds(s: State, notFound: bool, short: bool)
    requires Inv(s) && s.auto && Last(s).pc.AtSelect? && Last(s).child in s.alive
    ensures var g := |s.loops| - 1;
      var acts := [Exit(Last(s).child, notFound), See(g), Tell(g, short)];
      && IsRun(s, acts)
      && var t := Final(s, acts);
         && t.alive == {}
         && Last(t).pc == (if notFound then Draining(NotFound)
                           else if short && Streak(Last(s).runs) == 4 then GivingUp else Sleeping)
  {
    var g := |s.loops| - 1;
    var a, b, c := Exit(Last(s).child, notFound), See(g), Tell(g, short);
    ChildExits(s, notFound);
    assert LoopOk(s.loops[g]);
    Reports(Apply(s, a), short);
    Three(s, a, b, c);
  }

  // The waiter of a child that is gone reports it to the select.
  lemma Reports(s: State, short: bool)
    requires s.loops != [] && Last(s).pc.AtSelect? && Last(s).waiter.Watching? && Last(s).child !in s.alive
    ensures var g := |s.loops| - 1;
      && Enabled(s, See(g)) && Enabled(Apply(s, See(g)), Tell(g, short))
      && var t := Apply(Apply(s, See(g)), Tell(g, short));
         && t.alive == s.alive
         && Last(t).pc == (if Last(s).notFound then Draining(NotFound)
                           else if NextRetries(Last(s).shortRetries, short) == 0 then GivingUp else Sleeping)
  {
  }

  lemma ChildExits(s: State, notFound: bool)
    requires Inv(s) && s.auto && Last(s).pc.AtSelect? && Last(s).child in s.alive
    ensures var t := Apply(s, Exit(Last(s).child, notFound));
      t.alive == {} && |t.loops| == |s.loops| && Last(t) == Last(s).(notFound := notFound) && Last(s).waiter.Watching?
  {
  }

  /**
   The end of an upgrade: the lock is free, and the process runs again exactly if it
   had been stopped for the upgrade, the caller wants it back, the binary could be written and
   the start went through; otherwise it is down, with no child alive.
   */
  lemma UpgradeEnds(s: State, written: bool, launched: bool)
    requires Inv(s) && s.locked.Writing? && s.locked.op.UpgradeOp?
    ensures var again := written && s.locked.restart && s.locked.op.restartAfter;
      var acts := if again then [Go(Locked, written), Go(Locked, launched)] else [Go(Locked, written)];
      && IsRun(s, acts)
      && var t := Final(s, acts);
         && t.locked.Outside? && (t.started <==> again && (s.auto || launched))
         && (!t.started ==> t.alive == {}) && (t.started && !s.auto ==> |t.alive| == 1)
  {
    if Apply(s, Go(Locked, written)).locked.Starting? {
      Two(s, Go(Locked, written), Go(Locked, launched));
    } else {
      One(s, Go(Locked, written));
    }
  }

  // ----- stop() after the loop has taken the signal -----

  predicate InStop(s: State) { s.locked.Clearing? || s.locked.Awaiting? }

  function StopRank(s: State): nat {
    (if s.locked.Clearing? then 2 else 1) + (if s.alive == {} then 0 else 1)
    + if !s.auto then 0 else
        (match Last(s).pc case Signalling => 3 case Draining(_) => 2 case _ => 1)
        + (match Last(s).waiter case Watching => 3 case TellFalse => 2 case TellTrue => 1 case _ => 0)
  }

  lemma StopRankDecreases(s: State, a: Action)
    requires Inv(s) && InStop(s) && Enabled(s, a) && !a.StopAll?
    ensures InStop(Apply(s, a)) ==> StopRank(Apply(s, a)) < StopRank(s)
  {
    if a.Launch? || a.Spawn? || a.Signal? || a.Wake? || a.GiveUp? || a.See? || a.Tell? {
      OnlyLastMoves(s, a.g);
    }
  }

  lemma StopProgress(s: State) returns (a: Action)
    requires Inv(s) && InStop(s)
    ensures !a.StopAll? && Enabled(s, a)
  {
    var g := |s.loops| - 1;
    if s.locked.Clearing? {
      a := Go(Locked, true);
    } else if c :| c in s.alive {
      a := Exit(c, false);
    } else if !s.auto {
      a := Go(Locked, true);
    } else if Last(s).pc.Signalling? {
      a := Signal(g);
    } else if Last(s).pc.Acking? {
      a := Ack(Locked);
    } else if Last(s).waiter.Watching? {
      a := See(g);
    } else {
      a := Tell(g, false);
    }
  }

  ghost predicate StaysInStop(s: State, acts: seq<Action>)
    requires IsRun(s, acts)
    decreases |acts|
  {
    InStop(s) && (acts != [] ==> StaysInStop(Apply(s, acts[0]), acts[1..]))
  }

  /**
   Once the loop has taken the stop signal, `stop()` returns on every schedule: a run
   on which it has not returned yet is at most `StopRank` steps long and can be
   continued, by a step of the loop, of the waiter, of the caller or the exit of the child.
   */
  lemma {:induction false} StopReturns(s: State, acts: seq<Action>)
    requires Inv(s) && IsRun(s, acts) && LockedOnly(acts) && StaysInStop(s, acts)
    ensures |acts| < StopRank(s)
    ensures exists a: Action :: !a.StopAll? && Enabled(Final(s, acts), a)
    decreases |acts|
  {
    if acts == [] {
      var a := StopProgress(s);
    } else {
      InvStep(s, acts[0]);
      StopReturns(Apply(s, acts[0]), acts[1..]);
      StopRankDecreases(s, acts[0]);
    }
  }

  // ----- stop() before the loop has taken the signal -----

  // The caller is blocked in kill() and the loop has left without reading the signal.
  predicate Doomed(s: State) { s.locked.Killing? && s.auto && LeftByItself(Last(s)) }

  // A loop that gives up still clears `started`; one that saw exit code 127 still drains its waiter.
  function DoomedRank(s: State): nat {
    if Last(s).pc.GivingUp? || Last(s).pc == Draining(NotFound) then 1 else 0
  }

  lemma DoomedStep(s: State, a: Action)
    requires Inv(s) && Doomed(s) && Enabled(s, a) && !a.StopAll?
    ensures Doomed(Apply(s, a)) && DoomedRank(Apply(s, a)) < DoomedRank(s)
  {
    if a.Launch? || a.Spawn? || a.Signal? || a.Wake? || a.GiveUp? || a.See? || a.Tell? {
      if !Retired(s.loops[a.g]) { OnlyLastMoves(s, a.g); }
    }
  }

  lemma {:induction false} DoomedForever(s: State, acts: seq<Action>)
    requires Inv(s) && Doomed(s) && IsRun(s, acts) && LockedOnly(acts)
    ensures Final(s, acts).locked.Killing? && |acts| <= DoomedRank(s)
    decreases |acts|
  {
    if acts != [] {
      var t := Apply(s, acts[0]);
      DoomedStep(s, acts[0]);
      InvStep(s, acts[0]);
      DoomedForever(t, acts[1..]);
    }
  }

  // Steps of the loop left until it is back at its select.
  function ToSelect(l: Loop): nat {
    match l.pc
    case Sleeping => 3
    case AtStart => 2
    case Launched => 1
    case _ => 0
  }

  lemma {:induction false} Finish(s: State) returns (acts: seq<Action>)
    requires Inv(s) && InStop(s)
    ensures IsRun(s, acts) && LockedOnly(acts)
    ensures !InStop(Final(s, acts)) && !Final(s, acts).locked.Killing?
    decreases StopRank(s)
  {
    var a := StopProgress(s);
    StopRankDecreases(s, a);
    InvStep(s, a);
    var rest := [];
    if InStop(Apply(s, a)) {
      rest := Finish(Apply(s, a));
    }
    Prepend(s, a, rest);
    acts := [a] + rest;
  }

  lemma {:induction false} CanFinish(s: State) returns (acts: seq<Action>)
    requires Inv(s) && s.locked.Killing? && !Doomed(s)
    ensures IsRun(s, acts) && LockedOnly(acts)
    ensures !Final(s, acts).locked.Killing? && !InStop(Final(s, acts))
    decreases ToSelect(Last(s))
  {
    var g := |s.loops| - 1;
    var a :=
      if !s.auto then Go(Locked, true)
      else if Last(s).pc.Sleeping? then Wake(g)
      else if Last(s).pc.AtStart? then Launch(g, true)
      else if Last(s).pc.Launched? then Spawn(g)
      else TakeStop(Locked);
    InvStep(s, a);
    var t := Apply(s, a);
    var rest := [];
    if t.locked.Killing? {
      rest := CanFinish(t);
    } else {
      rest := Finish(t);
    }
    Prepend(s, a, rest);
    acts := [a] + rest;
  }

  /**
   The stuck states of `stop()`: a caller that has reached `kill()` is still inside `stop()` on
   every continuation exactly when the loop has already left through a failed start, exit
   code 127 or giving up; in every other case some continuation returns from `stop()`.
   */
  lemma StuckExactly(s: State)
    requires Inv(s) && s.locked.Killing?
    ensures Doomed(s) <==> forall acts :: IsRun(s, acts) && LockedOnly(acts) ==>
      Final(s, acts).locked.Killing? || InStop(Final(s, acts))
  {
    if Doomed(s) {
      forall acts | IsRun(s, acts) && LockedOnly(acts) ensures Final(s, acts).locked.Killing? {
        DoomedForever(s, acts);
      }
    } else {
      var acts := CanFinish(s);
    }
  }
}
