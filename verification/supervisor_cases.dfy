/**
 Runs of the supervisor that go wrong, and the restart loop's own bookkeeping as
 a loop over the runs of its child.
 */
module SupervisorCases {
  import opened Supervisor

  const IDLE := State(true, false, Outside, Outside, [], -1, {}, 0)

  // A caller starts an autorestart process.
  const START: seq<Action> := [Lock(StartOp), Go(Locked, true), Go(Locked, true)]

  lemma Starts(s: State)
    requires s.auto && !s.started && s.locked.Outside?
    ensures IsRun(s, START)
    ensures Final(s, START) == s.(loops := s.loops + [NEW_LOOP], started := true)
  {
    Three(s, START[0], START[1], START[2]);
  }

  // The command cannot be started; `started` stays true, so a later stop blocks.
  const FAIL_THEN_STOP: seq<Action> := [Launch(0, false), Lock(StopOp), Go(Locked, true), Go(Locked, true)]

  // The stuck states are reachable.
  lemma StopBlocksForever(more: seq<Action>)
    requires IsRun(IDLE, START + FAIL_THEN_STOP)
          && IsRun(Final(IDLE, START + FAIL_THEN_STOP), more) && LockedOnly(more)
    ensures Final(Final(IDLE, START + FAIL_THEN_STOP), more).locked.Killing?
  {
    FailThenStop();
    InitInv(IDLE);
    InvRun(IDLE, START + FAIL_THEN_STOP);
    DoomedForever(Final(IDLE, START + FAIL_THEN_STOP), more);
  }

  lemma FailThenStop()
    ensures IsRun(IDLE, START + FAIL_THEN_STOP) && Doomed(Final(IDLE, START + FAIL_THEN_STOP))
  {
    Starts(IDLE);
    var s := Final(IDLE, START);
    assert s.loops == [NEW_LOOP];
    var s1 := Apply(s, FAIL_THEN_STOP[0]);
    Three(s1, FAIL_THEN_STOP[1], FAIL_THEN_STOP[2], FAIL_THEN_STOP[3]);
    Prepend(s, FAIL_THEN_STOP[0], [FAIL_THEN_STOP[1], FAIL_THEN_STOP[2], FAIL_THEN_STOP[3]]);
    RunAppend(IDLE, START, FAIL_THEN_STOP);
  }

  // ----- StopAllProcesses -----

  // A process that runs, with nobody inside a call.
  predicate Up(s: State) {
    s.started && s.locked.Outside? && s.alive != {} && (s.auto ==> Last(s).pc.AtSelect?)
  }

  // StopAllProcesses up to its wait: the signal is through and `started` cleared, the child still alive.
  function StopAllActs(s: State): seq<Action> {
    [StopAll, Go(Rogue, true)] + [if s.auto then TakeStop(Rogue) else Go(Rogue, true), Go(Rogue, true)]
  }

  lemma StopsAll(s: State)
    requires Inv(s) && Up(s)
    ensures IsRun(s, StopAllActs(s))
    ensures var t := Final(s, StopAllActs(s));
      && !t.started && t.auto == s.auto && t.locked.Outside? && t.rogue.Awaiting?
      && t.alive == s.alive && t.nextChild == s.nextChild && |t.loops| == |s.loops|
  {
    var kill := if s.auto then TakeStop(Rogue) else Go(Rogue, true);
    Two(s, StopAll, Go(Rogue, true));
    var m := Apply(Apply(s, StopAll), Go(Rogue, true));
    assert m == s.(rogue := Killing(StopOp, CurrentTarget(s)));
    Two(m, kill, Go(Rogue, true));
    RunAppend(s, [StopAll, Go(Rogue, true)], [kill, Go(Rogue, true)]);
  }

  // A caller starts the process again and its first child comes up.
  function StartActs(s: State): seq<Action> {
    [Lock(StartOp), Go(Locked, true)]
    + if s.auto then [Go(Locked, true), Launch(|s.loops|, true)] else [Go(Locked, true)]
  }

  lemma StartsChild(s: State)
    requires !s.started && s.locked.Outside?
    ensures IsRun(s, StartActs(s)) && Final(s, StartActs(s)).alive == s.alive + {s.nextChild}
  {
    Two(s, Lock(StartOp), Go(Locked, true));
    var m := Apply(Apply(s, Lock(StartOp)), Go(Locked, true));
    assert m == s.(locked := Starting(StartOp));
    if s.auto {
      Two(m, Go(Locked, true), Launch(|s.loops|, true));
      RunAppend(s, [Lock(StartOp), Go(Locked, true)], [Go(Locked, true), Launch(|s.loops|, true)]);
    } else {
      One(m, Go(Locked, true));
      RunAppend(s, [Lock(StartOp), Go(Locked, true)], [Go(Locked, true)]);
    }
  }

  /**
   StopAllProcesses breaks the one-child law, for every process that is up: while it waits
   without the lock, another caller finds `started` false and launches a second child
   beside the first.
   */
  lemma StopAllBreaksOneChild(s: State) returns (acts: seq<Action>)
    requires Inv(s) && Up(s)
    ensures acts != [] && acts[0].StopAll? && LockedOnly(acts[1..])
    ensures IsRun(s, acts) && |Final(s, acts).alive| == 2
  {
    StopsAll(s);
    var t := Final(s, StopAllActs(s));
    StartsChild(t);
    RunAppend(s, StopAllActs(s), StartActs(t));
    acts := StopAllActs(s) + StartActs(t);
    AtMostOneOf(s.alive, if s.auto then Last(s).child else s.direct);
    assert |s.alive| == 1 && s.nextChild !in s.alive;
  }

  const LAUNCH: seq<Action> := [Launch(0, true), Spawn(0)]

  // A process that is up is three steps of a caller and two of its loop away.
  lemma UpReachable()
    ensures Init(IDLE) && IsRun(IDLE, START + LAUNCH)
    ensures Inv(Final(IDLE, START + LAUNCH)) && Up(Final(IDLE, START + LAUNCH))
  {
    Starts(IDLE);
    var s := Final(IDLE, START);
    assert s.loops == [NEW_LOOP];
    Two(s, Launch(0, true), Spawn(0));
    RunAppend(IDLE, START, LAUNCH);
    InitInv(IDLE);
    InvRun(IDLE, START + LAUNCH);
  }

  // ----- the bookkeeping of the restart loop -----

  const SHORT_RUN_SECONDS := 5

  // Five short runs in a row, the last of them at index n - 1.
  predicate FiveShort(seconds: seq<nat>, n: nat)
    requires n <= |seconds|
  {
    n >= 5 && forall j :: n - 5 <= j < n ==> seconds[j] <= 5
  }

  /**
   The loop over the runs of a child that keeps exiting: it gives up after the first
   five short runs in a row and never before; a long run starts the count afresh.
   */
  method RestartLoop(seconds: seq<nat>) returns (gaveUp: bool, n: nat)
    ensures n <= |seconds|
    ensures gaveUp <==> exists m: nat :: m <= |seconds| && FiveShort(seconds, m)
    ensures gaveUp ==> FiveShort(seconds, n) && forall m: nat :: m < n ==> !FiveShort(seconds, m)
    ensures !gaveUp ==> n == |seconds|
  {
    var shortRetries := SHORT_RETRIES;
    n := 0;
    gaveUp := false;
    while n < |seconds|
      invariant n <= |seconds|
      invariant 1 <= shortRetries <= 5 && 5 - shortRetries <= n
      invariant forall j :: n - (5 - shortRetries) <= j < n ==> seconds[j] <= SHORT_RUN_SECONDS
      invariant shortRetries == 5 - n || seconds[n - (5 - shortRetries) - 1] > SHORT_RUN_SECONDS
      invariant forall m: nat :: m <= n ==> !FiveShort(seconds, m)
    {
      shortRetries := NextRetries(shortRetries, seconds[n] <= SHORT_RUN_SECONDS);
      n := n + 1;
      if shortRetries == 0 {
        assert FiveShort(seconds, n);
        return true, n;
      }
    }
  }
}
