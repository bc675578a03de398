/**
 The pooled buffers that report bodies are read into.  A buffer belongs to one request,
 then to the ingest queue, and goes back to the pool when its report has been decoded.
 When the queue is full it is given back by the ingester and again by the handler.
 */
module BufferPool {
  type Buffer = nat

  datatype State = State(
    pool: multiset<Buffer>, held: multiset<Buffer>, queued: multiset<Buffer>,
    next: nat, queueCap: nat)

  datatype Action =
    | Get(b: Buffer)        // a request takes a pooled buffer
    | New                   // or a new one
    | Abort(b: Buffer)      // the body cannot be read: given back once
    | Accept(b: Buffer)
    | Reject(b: Buffer)     // the queue is full: given back twice
    | Consume(b: Buffer)    // a worker decodes the report and cleans up
    | Collect(b: Buffer)    // the garbage collector empties the pool

  predicate Enabled(s: State, a: Action) {
    match a
    case Get(b) => b in s.pool
    case New => true
    case Abort(b) => b in s.held
    case Accept(b) => b in s.held && |s.queued| < s.queueCap
    case Reject(b) => b in s.held && |s.queued| >= s.queueCap
    case Consume(b) => b in s.queued
    case Collect(b) => b in s.pool
  }

  function Apply(s: State, a: Action): State
    requires Enabled(s, a)
  {
    match a
    case Get(b) => s.(pool := s.pool - multiset{b}, held := s.held + multiset{b})
    case New => s.(held := s.held + multiset{s.next}, next := s.next + 1)
    case Abort(b) => s.(held := s.held - multiset{b}, pool := s.pool + multiset{b})
    case Accept(b) => s.(held := s.held - multiset{b}, queued := s.queued + multiset{b})
    case Reject(b) => s.(held := s.held - multiset{b}, pool := s.pool + multiset{b} + multiset{b})
    case Consume(b) => s.(queued := s.queued - multiset{b}, pool := s.pool + multiset{b})
    case Collect(b) => s.(pool := s.pool - multiset{b})
  }

  predicate IsRun(s: State, acts: seq<Action>)
    decreases |acts|
  {
    acts == [] || (Enabled(s, acts[0]) && IsRun(Apply(s, acts[0]), acts[1..]))
  }

  function Final(s: State, acts: seq<Action>): State
    requires IsRun(s, acts)
    decreases |acts|
  {
    if acts == [] then s else Final(Apply(s, acts[0]), acts[1..])
  }

  // In how many places a buffer is at once.
  function Copies(s: State, b: Buffer): nat { s.pool[b] + s.held[b] + s.queued[b] }

  ghost predicate Exclusive(s: State) {
    forall b: Buffer :: Copies(s, b) <= if b < s.next then 1 else 0
  }

  predicate NoReject(acts: seq<Action>) { forall i :: 0 <= i < |acts| ==> !acts[i].Reject? }

  lemma CopiesStep(s: State, a: Action, b: Buffer)
    requires Enabled(s, a)
    ensures Copies(Apply(s, a), b) ==
      Copies(s, b)
      + (if (a.Reject? && a.b == b) || (a.New? && b == s.next) then 1 else 0)
      - (if a.Collect? && a.b == b then 1 else 0)
  {
  }

  /**
   Ownership: as long as no request finds the queue full, every buffer is in one place
   only, so no two requests ever read into the same one.
   */
  lemma {:induction false} OwnedByOne(s: State, acts: seq<Action>)
    requires Exclusive(s) && IsRun(s, acts) && NoReject(acts)
    ensures Exclusive(Final(s, acts))
    decreases |acts|
  {
    if acts != [] {
      ExclusiveStep(s, acts[0]);
      OwnedByOne(Apply(s, acts[0]), acts[1..]);
    }
  }

  ghost predicate ExclusiveThroughout(s: State, acts: seq<Action>)
    requires IsRun(s, acts)
    decreases |acts|
  {
    Exclusive(s) && (acts != [] ==> ExclusiveThroughout(Apply(s, acts[0]), acts[1..]))
  }

  lemma ExclusiveStep(s: State, a: Action)
    requires Exclusive(s) && Enabled(s, a)
    ensures Exclusive(Apply(s, a)) <==> !a.Reject?
  {
    if a.Reject? {
      CopiesStep(s, a, a.b);
    } else {
      forall b: Buffer ensures Copies(Apply(s, a), b) <= if b < Apply(s, a).next then 1 else 0 {
        CopiesStep(s, a, b);
      }
    }
  }

  // A run keeps every buffer in one place throughout exactly when no request finds the queue full.
  lemma {:induction false} OwnedExactly(s: State, acts: seq<Action>)
    requires Exclusive(s) && IsRun(s, acts)
    ensures ExclusiveThroughout(s, acts) <==> NoReject(acts)
    decreases |acts|
  {
    if acts != [] {
      NoRejectTail(acts);
      ExclusiveStep(s, acts[0]);
      if !acts[0].Reject? { OwnedExactly(Apply(s, acts[0]), acts[1..]); }
    }
  }

  lemma NoRejectTail(acts: seq<Action>)
    requires acts != []
    ensures NoReject(acts) <==> !acts[0].Reject? && NoReject(acts[1..])
  {
    assert acts == [acts[0]] + acts[1..];
  }

  /**
   Every rejection ends that: from whatever state, the rejected buffer is then in the
   pool twice, and the next two requests can both be given it.
   */
  lemma RejectedTwice(s: State, b: Buffer)
    requires Enabled(s, Reject(b))
    ensures !Exclusive(Apply(s, Reject(b)))
    ensures IsRun(s, [Reject(b), Get(b), Get(b)]) && Final(s, [Reject(b), Get(b), Get(b)]).held[b] >= 2
  {
    var s1 := Apply(s, Reject(b));
    assert Copies(s1, b) >= 2;
    TakenTwice(s1, b);
    Prepend(s, Reject(b), [Get(b), Get(b)]);
    assert [Reject(b)] + [Get(b), Get(b)] == [Reject(b), Get(b), Get(b)];
  }

  // A run grows at its front.
  lemma Prepend(s: State, a: Action, rest: seq<Action>)
    requires Enabled(s, a) && IsRun(Apply(s, a), rest)
    ensures IsRun(s, [a] + rest) && Final(s, [a] + rest) == Final(Apply(s, a), rest)
  {
    assert ([a] + rest)[1..] == rest;
  }

  lemma TakenTwice(s: State, b: Buffer)
    requires s.pool[b] >= 2
    ensures IsRun(s, [Get(b), Get(b)]) && Final(s, [Get(b), Get(b)]).held[b] >= 2
  {
    var s1 := Apply(s, Get(b));
    var s2 := Apply(s1, Get(b));
    Prepend(s1, Get(b), []);
    assert [Get(b)] + [] == [Get(b)];
    Prepend(s, Get(b), [Get(b)]);
    assert [Get(b)] + [Get(b)] == [Get(b), Get(b)];
  }

  // ----- where the buffers go -----

  function Count(acts: seq<Action>, p: Action -> bool): nat {
    if acts == [] then 0 else (if p(acts[0]) then 1 else 0) + Count(acts[1..], p)
  }

  lemma SizesStep(s: State, a: Action)
    requires Enabled(s, a)
    ensures var t := Apply(s, a);
      && |t.queued| == |s.queued| + (if a.Accept? then 1 else 0) - (if a.Consume? then 1 else 0)
      && |t.held| + (if a.Abort? || a.Accept? || a.Reject? then 1 else 0)
           == |s.held| + (if a.Get? || a.New? then 1 else 0)
      && |t.pool| + (if a.Get? || a.Collect? then 1 else 0)
           == |s.pool| + (if a.Abort? || a.Consume? then 1 else 0) + (if a.Reject? then 2 else 0)
      && (|s.queued| <= s.queueCap ==> |t.queued| <= t.queueCap)
  {
  }

  /**
   The queue holds the accepted buffers that were not yet consumed, and never more than its
   capacity; the pool gets one back for every read that failed or report consumed, and two for
   every rejection.
   */
  lemma {:induction false} BuffersCounted(s: State, acts: seq<Action>)
    requires IsRun(s, acts) && |s.queued| <= s.queueCap
    ensures var t := Final(s, acts);
      && |t.queued| + Count(acts, (a: Action) => a.Consume?) == |s.queued| + Count(acts, (a: Action) => a.Accept?)
      && |t.queued| <= t.queueCap
      && |t.pool| + Count(acts, (a: Action) => a.Get? || a.Collect?)
           == |s.pool| + Count(acts, (a: Action) => a.Abort? || a.Consume?) + 2 * Count(acts, (a: Action) => a.Reject?)
    decreases |acts|
  {
    if acts != [] {
      SizesStep(s, acts[0]);
      BuffersCounted(Apply(s, acts[0]), acts[1..]);
    }
  }
}
