/**
 What the calls on a process handler do from taking the lock to releasing it, whatever its
 restart loop, its waiter and its child do meanwhile.
 */
module SupervisorCalls {
  import opened Supervisor

  // The caller is inside one call until the last step of the run, which releases the lock.
  ghost predicate OneCall(s: State, acts: seq<Action>)
    requires IsRun(s, acts)
    decreases |acts|
  {
    if acts == [] then s.locked.Outside?
    else !s.locked.Outside? && OneCall(Apply(s, acts[0]), acts[1..])
  }

  // What `started` was when the caller checked it.
  ghost function Found(s: State, acts: seq<Action>): bool
    requires IsRun(s, acts)
    decreases |acts|
  {
    if acts == [] || !s.locked.Checking? then false
    else if !Apply(s, acts[0]).locked.Checking? then s.started
    else Found(Apply(s, acts[0]), acts[1..])
  }

  // Every time the binary is about to be overwritten: is the process to be started again?
  ghost function Writes(s: State, acts: seq<Action>): seq<bool>
    requires IsRun(s, acts)
    decreases |acts|
  {
    if acts == [] then []
    else
      var t := Apply(s, acts[0]);
      (if !s.locked.Writing? && t.locked.Writing? then [t.locked.restart] else []) + Writes(t, acts[1..])
  }

  predicate InsideStop(c: Caller) { c.Stopping? || c.Killing? || c.Clearing? || c.Awaiting? }

  // Where the next step of anything leaves an upgrade.
  lemma UpgradeStep(s: State, a: Action)
    requires Enabled(s, a) && !s.locked.Outside? && s.locked.op.UpgradeOp?
    ensures var c, d := s.locked, Apply(s, a).locked;
      && (!d.Outside? ==> d.op == c.op)
      && (c.Checking? ==> d == c || d == (if s.started then Stopping(c.op) else Writing(c.op, false)))
      && (InsideStop(c) ==> InsideStop(d) || d == Writing(c.op, true))
      && (c.Writing? ==> d == c || d == Starting(c.op) || d.Outside?)
      && (c.Starting? ==> d == c || d.Outside?)
  {
  }

  lemma {:induction false} WritesFrom(s: State, acts: seq<Action>)
    requires IsRun(s, acts) && OneCall(s, acts) && !s.locked.Outside? && s.locked.op.UpgradeOp?
    ensures Writes(s, acts) ==
      if s.locked.Checking? then [Found(s, acts)] else if InsideStop(s.locked) then [true] else []
    decreases |acts|
  {
    UpgradeStep(s, acts[0]);
    var t := Apply(s, acts[0]);
    if !t.locked.Outside? { WritesFrom(t, acts[1..]); } else { assert acts[1..] == []; }
  }

  /**
   An upgrade, from the lock to its release: it overwrites the binary exactly once, and is to
   start the process again exactly if it had found it started.
   */
  lemma UpgradeWritesOnce(s: State, op: Op, acts: seq<Action>)
    requires op.UpgradeOp? && Enabled(s, Lock(op))
    requires IsRun(Apply(s, Lock(op)), acts) && OneCall(Apply(s, Lock(op)), acts)
    ensures Writes(Apply(s, Lock(op)), acts) == [Found(Apply(s, Lock(op)), acts)]
  {
    WritesFrom(Apply(s, Lock(op)), acts);
  }

  // ----- stop -----

  lemma StopStep(s: State, a: Action)
    requires Inv(s) && Enabled(s, a) && !a.StopAll?
    requires (s.locked.Checking? || InsideStop(s.locked)) && s.locked.op.StopOp?
    ensures var d := Apply(s, a).locked;
      && (!d.Outside? ==> d.op.StopOp? && (d.Checking? || InsideStop(d)))
      && (d.Outside? ==> !Apply(s, a).started && Apply(s, a).alive == {})
  {
    InvStep(s, a);
  }

  /**
   A stop that returns leaves the process down: `started` is false and no child is alive, with
   autorestart and without, whatever it found.
   */
  lemma {:induction false} StopLeavesDown(s: State, acts: seq<Action>)
    requires Inv(s) && IsRun(s, acts) && LockedOnly(acts) && OneCall(s, acts)
    requires (s.locked.Checking? || InsideStop(s.locked)) && s.locked.op.StopOp?
    ensures !Final(s, acts).started && Final(s, acts).alive == {}
    decreases |acts|
  {
    StopStep(s, acts[0]);
    InvStep(s, acts[0]);
    var t := Apply(s, acts[0]);
    if t.locked.Outside? { assert acts[1..] == []; } else { StopLeavesDown(t, acts[1..]); }
  }

  // ----- start -----

  lemma StartStep(s: State, a: Action)
    requires Inv(s) && Enabled(s, a) && !a.StopAll?
    requires (s.locked.Checking? || s.locked.Starting?) && s.locked.op.StartOp?
    ensures var t := Apply(s, a);
      && (t.locked == s.locked || (s.locked.Checking? && !s.started && t.locked == Starting(StartOp))
          || (t.locked.Outside? && (a == Go(Locked, true) || a == Go(Locked, false))))
      && (s.locked.Checking? && t.locked.Outside? ==> s.started && t.started)
      && (s.locked.Starting? && t.locked.Outside? ==> (t.started <==> s.auto || a == Go(Locked, true)))
      && (s.locked.Starting? && t.locked.Outside? && t.started && !s.auto ==> t.alive == {t.direct})
  {
  }

  /**
   A start that returns leaves the process up: `started` is true, unless the process has no
   autorestart and could not be started; a child started without autorestart is alive.
   */
  lemma {:induction false} StartLeavesUp(s: State, acts: seq<Action>)
    requires Inv(s) && IsRun(s, acts) && LockedOnly(acts) && OneCall(s, acts)
    requires (s.locked.Checking? || s.locked.Starting?) && s.locked.op.StartOp?
    ensures var t := Final(s, acts);
      && (t.started <==> s.auto || Found(s, acts) || acts[|acts| - 1] == Go(Locked, true))
      && (t.started && !Found(s, acts) && !s.auto ==> t.alive == {t.direct})
    decreases |acts|
  {
    var t := Apply(s, acts[0]);
    StartStep(s, acts[0]);
    InvStep(s, acts[0]);
    if t.locked.Outside? { assert acts[1..] == []; } else { StartLeavesUp(t, acts[1..]); }
  }
}
