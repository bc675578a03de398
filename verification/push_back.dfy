/**
 The push-back controller: every server adjusts, on a ticker of its own, the factor by
 which agents stretch the interval between two reports, and shares it through one
 property in the graph store.
 */
module PushBack {
  const DEFAULT_PUSH_BACK: int := 1
  const MAX_PUSH_BACK: int := 60

  function Max(a: int, b: int): int { if a < b then b else a }

  // The counters of one tick.
  datatype Counts = Counts(received: nat, accepted: nat, ingested: nat)

  predicate Overloaded(c: Counts) { c.ingested < (c.received / 8) * 7 }

  predicate Easing(c: Counts, prevReceived: nat) { !Overloaded(c) && c.received < (prevReceived / 8) * 7 }

  // Seven eighths of what came in, rounded down to a multiple of eight: that much must be ingested, or come in again.
  lemma SevenEighths(c: Counts, prevReceived: nat)
    ensures Overloaded(c) <==> 8 * c.ingested < 7 * (c.received - c.received % 8)
    ensures Easing(c, prevReceived) <==> !Overloaded(c) && 8 * c.received < 7 * (prevReceived - prevReceived % 8)
    ensures 8 * c.ingested >= 7 * c.received ==> !Overloaded(c)
  {
  }

  // The value wanted before it is clamped.
  function Wanted(pushBack: int, c: Counts, prevReceived: nat): int
    requires pushBack >= 1
  {
    if Overloaded(c) then
      if c.received >= 100 then
        if Max(c.accepted, 1) / Max(c.ingested, 1) >= 2 then pushBack * 2 else pushBack + 1
      else pushBack
    else if Easing(c, prevReceived) then
      var ratio := Max(prevReceived, 1) / Max(c.received, 1);
      if ratio >= 2 then pushBack / ratio else pushBack - 1
    else pushBack
  }

  function Clamp(v: int): int {
    if v <= 0 then 1 else if v > MAX_PUSH_BACK then MAX_PUSH_BACK else v
  }

  // How the transaction with the graph store went.
  datatype Db = Fails | CommitFails | Commits

  // The shared property after a tick that wants `v` where the server last saw `prev`.
  function SharedAfter(shared: int, v: int, prev: int, db: Db): int {
    if v != prev && db.Commits? then v else shared
  }

  // The server's own value after that tick: what it wrote, or what it read.
  function OwnAfter(shared: int, v: int, prev: int, db: Db): int {
    if v == prev && !db.Fails? then shared else v
  }

  // ----- one server -----

  datatype Server = Server(
    pushBack: int, prevPushBack: int, prevReceived: nat,
    window: seq<nat>)          // what was received in every tick since the last decrease, that tick included

  function Window(sv: Server, c: Counts): seq<nat> {
    if Easing(c, sv.prevReceived) then [c.received] else sv.window + [c.received]
  }

  function Ticked(sv: Server, shared: int, c: Counts, db: Db): Server
    requires sv.pushBack >= 1
  {
    var v := Clamp(Wanted(sv.pushBack, c, sv.prevReceived));
    var own := OwnAfter(shared, v, sv.prevPushBack, db);
    Server(own, own,
           Max(if Easing(c, sv.prevReceived) then c.received else sv.prevReceived, c.received),
           Window(sv, c))
  }

  // How reading the shared value went when the loop was started.
  datatype Fetch = NoClient | Unread | Fetched

  // Without a client the loop compares against the default, whatever its own value is.
  function Begun(own: int, shared: int, f: Fetch): Server {
    match f
    case NoClient => Server(own, DEFAULT_PUSH_BACK, 0, [])
    case Unread => Server(own, own, 0, [])
    case Fetched => Server(shared, shared, 0, [])
  }

  // The body of the push-back loop.
  class Updater {
    var pushBack: int
    var prevPushBack: int
    var prevReceivedNum: nat
    ghost var window: seq<nat>

    ghost function Value(): Server
      reads this
    {
      Server(pushBack, prevPushBack, prevReceivedNum, window)
    }

    // FetchPushBack: the loop starts from the shared value if that can be read.
    constructor (own: int, shared: int, f: Fetch)
      ensures Value() == Begun(own, shared, f)
    {
      pushBack, prevPushBack, prevReceivedNum := own, DEFAULT_PUSH_BACK, 0;
      window := [];
      if !f.NoClient? {
        if f.Fetched? { pushBack := shared; }
        prevPushBack := if f.Fetched? then shared else own;
      }
    }

    method Tick(shared: int, c: Counts, db: Db) returns (shared': int)
      requires pushBack >= 1
      modifies this
      ensures Value() == Ticked(old(Value()), shared, c, db)
      ensures var v := Clamp(Wanted(old(pushBack), c, old(prevReceivedNum)));
        shared' == SharedAfter(shared, v, old(prevPushBack), db)
    {
      window := Window(Value(), c);
      var newValue := pushBack;
      if c.ingested < (c.received / 8) * 7 {
        if c.received >= 100 {
          var ratio := Max(c.accepted, 1) / Max(c.ingested, 1);
          newValue := if ratio >= 2 then pushBack * 2 else pushBack + 1;
        }
      } else if c.received < (prevReceivedNum / 8) * 7 {
        var ratio := Max(prevReceivedNum, 1) / Max(c.received, 1);
        newValue := if ratio >= 2 then pushBack / ratio else pushBack - 1;
        prevReceivedNum := c.received;
      }
      assert newValue == Wanted(old(pushBack), c, old(prevReceivedNum));
      if newValue <= 0 {
        pushBack := 1;
      } else if newValue > MAX_PUSH_BACK {
        pushBack := MAX_PUSH_BACK;
      } else {
        pushBack := newValue;
      }
      prevReceivedNum := Max(prevReceivedNum, c.received);
      shared' := shared;
      if pushBack != prevPushBack {
        if db.Commits? { shared' := pushBack; }
      } else if !db.Fails? {
        pushBack := shared;
      }
      prevPushBack := pushBack;
    }
  }

  // ----- any number of servers -----

  datatype State = State(shared: int, servers: seq<Server>)

  // Server i ticks.
  datatype Tick = Tick(i: nat, c: Counts, db: Db)

  predicate InRange(v: int) { 1 <= v <= MAX_PUSH_BACK }

  function MaxOf(w: seq<nat>): nat {
    if w == [] then 0 else Max(MaxOf(w[..|w| - 1]), w[|w| - 1])
  }

  predicate ServerOk(sv: Server) {
    && InRange(sv.pushBack) && (InStep(sv) || sv.prevPushBack == DEFAULT_PUSH_BACK)
    && sv.prevReceived == MaxOf(sv.window)
  }

  // The server compares its value with the one it had; only its very first tick may compare with the default.
  predicate InStep(sv: Server) { sv.prevPushBack == sv.pushBack }

  lemma BegunOk(own: int, shared: int, f: Fetch)
    requires InRange(own) && InRange(shared)
    ensures ServerOk(Begun(own, shared, f))
    ensures InStep(Begun(own, shared, f)) <==> !f.NoClient? || own == DEFAULT_PUSH_BACK
  {
  }

  predicate Inv(s: State) {
    InRange(s.shared) && forall i :: 0 <= i < |s.servers| ==> ServerOk(s.servers[i])
  }

  function Apply(s: State, t: Tick): State
    requires t.i < |s.servers| && s.servers[t.i].pushBack >= 1
  {
    var sv := s.servers[t.i];
    var v := Clamp(Wanted(sv.pushBack, t.c, sv.prevReceived));
    State(SharedAfter(s.shared, v, sv.prevPushBack, t.db), s.servers[t.i := Ticked(sv, s.shared, t.c, t.db)])
  }

  predicate Ticks(ts: seq<Tick>, n: nat) { forall k :: 0 <= k < |ts| ==> ts[k].i < n }

  lemma WindowOk(sv: Server, c: Counts)
    requires ServerOk(sv)
    ensures MaxOf(Window(sv, c)) == Max(if Easing(c, sv.prevReceived) then c.received else sv.prevReceived, c.received)
  {
    var w := Window(sv, c);
    assert w[..|w| - 1] == if Easing(c, sv.prevReceived) then [] else sv.window;
  }

  lemma SharingOk(shared: int, wanted: int, prev: int, db: Db)
    requires InRange(shared)
    ensures InRange(OwnAfter(shared, Clamp(wanted), prev, db)) && InRange(SharedAfter(shared, Clamp(wanted), prev, db))
  {
  }

  lemma TickOk(sv: Server, shared: int, c: Counts, db: Db)
    requires ServerOk(sv) && InRange(shared)
    ensures ServerOk(Ticked(sv, shared, c, db)) && InStep(Ticked(sv, shared, c, db))
    ensures InRange(SharedAfter(shared, Clamp(Wanted(sv.pushBack, c, sv.prevReceived)), sv.prevPushBack, db))
  {
    WindowOk(sv, c);
    SharingOk(shared, Wanted(sv.pushBack, c, sv.prevReceived), sv.prevPushBack, db);
  }

  lemma InvStep(s: State, t: Tick)
    requires Inv(s) && t.i < |s.servers|
    ensures Inv(Apply(s, t))
  {
    TickOk(s.servers[t.i], s.shared, t.c, t.db);
  }

  function Final(s: State, ts: seq<Tick>): (r: State)
    requires Inv(s) && Ticks(ts, |s.servers|)
    ensures |r.servers| == |s.servers|
    decreases |ts|
  {
    if ts == [] then s else
      InvStep(s, ts[0]);
      Final(Apply(s, ts[0]), ts[1..])
  }

  /**
   Push-back stays usable: for any number of servers sharing a value that starts
   in 1..60, however the first read of it went, after any ticks with any counters and any database failures, the shared
   value and every server's own are in 1..60, and the received count a server compares
   against is the largest since its last decrease.
   */
  lemma {:induction false} StaysInRange(s: State, ts: seq<Tick>, i: nat)
    requires Inv(s) && Ticks(ts, |s.servers|) && i < |s.servers|
    ensures var t := Final(s, ts);
      InRange(t.shared) && InRange(t.servers[i].pushBack) && t.servers[i].prevReceived == MaxOf(t.servers[i].window)
    decreases |ts|
  {
    if ts == [] {
      assert ServerOk(s.servers[i]);
    } else {
      InvStep(s, ts[0]);
      StaysInRange(Apply(s, ts[0]), ts[1..], i);
    }
  }

  /**
   A tick whose transaction commits leaves the server and the shared value agreed, on the value
   it changed to or on the one it read; any other tick leaves the shared value as it was.  No
   tick touches another server.
   */
  lemma CommitAgrees(s: State, t: Tick)
    requires Inv(s) && t.i < |s.servers|
    ensures var u := Apply(s, t);
      && (t.db.Commits? ==> u.shared == u.servers[t.i].pushBack)
      && (!t.db.Commits? ==> u.shared == s.shared)
      && (t.db.Commits? && s.shared == s.servers[t.i].pushBack == s.servers[t.i].prevPushBack ==>
            u.shared == Clamp(Wanted(s.shared, t.c, s.servers[t.i].prevReceived)))
      && |u.servers| == |s.servers| && forall j :: 0 <= j < |s.servers| && j != t.i ==> u.servers[j] == s.servers[j]
  {
    TickOk(s.servers[t.i], s.shared, t.c, t.db);
  }

  // ----- the direction of every tick -----

  // Plenty of reports came in, and too few of them were ingested.
  predicate Pressed(c: Counts) { Overloaded(c) && c.received >= 100 }

  /**
   Every tick moves the factor the right way, however the transaction goes: up under
   pressure until the maximum, to the double if less than half of the accepted is ingested and by
   one otherwise; down when the load has eased until one, to a half at most if the load has
   halved and by one otherwise; and else not at all, except to adopt the shared value.
   */
  lemma TickDirection(sv: Server, shared: int, c: Counts, db: Db)
    requires ServerOk(sv) && InRange(shared)
    ensures var v, v' := sv.pushBack, Ticked(sv, shared, c, db).pushBack;
      && (Pressed(c) && v < MAX_PUSH_BACK ==>
            v < v' == if c.accepted >= 2 * Max(c.ingested, 1) then Clamp(2 * v) else v + 1)
      && (InStep(sv) && Easing(c, sv.prevReceived) && v > 1 ==>
            v' < v && if 2 * Max(c.received, 1) <= sv.prevReceived then v' <= Max(1, v / 2) else v' == v - 1)
      && (!Pressed(c) && !Easing(c, sv.prevReceived) ==> v' == v || v' == shared)
  {
    AtLeastTimes(Max(c.accepted, 1), Max(c.ingested, 1), 2);
    if Easing(c, sv.prevReceived) {
      var ratio := Max(sv.prevReceived, 1) / Max(c.received, 1);
      AtLeastTimes(Max(sv.prevReceived, 1), Max(c.received, 1), 2);
      if ratio >= 2 { HalvedAtLeast(sv.pushBack, ratio); }
    }
  }

  lemma AtLeastTimes(a: nat, b: nat, n: nat)
    requires b > 0
    ensures a / b >= n <==> a >= n * b
  {
    var q, m := a / b, a % b;
    assert a == q * b + m && 0 <= m < b;
    if q >= n { assert q * b >= n * b; } else { assert (q + 1) * b <= n * b; }
  }

  lemma BelowHalfExactly(v: nat, d: nat)
    requires InRange(v) && d >= 2
    ensures Clamp(v / d) < v / 2 <==> v >= 4 && d >= 3
  {
    if d >= 3 {
      var q := v / d;
      AtLeastTimes(v, d, q);
      TimesMore(q, 3, d);
    }
  }

  /**
   The decrease is not limited to a half, as a comment in the loop has it: an easing tick
   leaves less than half of the factor exactly when the factor is at least four and the load
   has fallen to a third or less.
   */
  lemma PastHalfExactly(sv: Server, shared: int, c: Counts, db: Db)
    requires ServerOk(sv) && InStep(sv) && InRange(shared) && Easing(c, sv.prevReceived)
    ensures Ticked(sv, shared, c, db).pushBack < sv.pushBack / 2
      <==> sv.pushBack >= 4 && sv.prevReceived >= 3 * Max(c.received, 1)
  {
    var low := Max(c.received, 1);
    var ratio := Max(sv.prevReceived, 1) / low;
    AtLeastTimes(Max(sv.prevReceived, 1), low, 3);
    if ratio >= 2 {
      HalvedAtLeast(sv.pushBack, ratio);
      BelowHalfExactly(sv.pushBack, ratio);
    }
  }

  // A load that falls to a tenth takes the factor from sixty to six in one tick.
  lemma SixtyFallsToSix(db: Db)
    ensures var sv := Server(60, 60, 1000, [1000]);
      ServerOk(sv) && InStep(sv) && Ticked(sv, 60, Counts(100, 100, 100), db).pushBack == 6
  {
    TenthWanted();
    assert MaxOf([1000]) == Max(MaxOf([1000][..0]), 1000);
  }

  lemma TenthWanted()
    ensures Wanted(60, Counts(100, 100, 100), 1000) == 6
  {
    assert Max(1000, 1) == 1000 && Max(100, 1) == 100 && 1000 / 100 == 10 && 60 / 10 == 6;
  }

  lemma HalvedAtLeast(v: nat, d: nat)
    requires d >= 2
    ensures v / d <= v / 2
  {
    var q := v / d;
    AtLeastTimes(v, d, q);
    TimesMore(q, 2, d);
  }

  lemma TimesMore(q: nat, a: nat, b: nat)
    requires a <= b
    ensures q * a <= q * b
  {
    assert q * b == q * a + q * (b - a);
  }

  // ----- sustained overload -----

  predicate OverloadFor(ts: seq<Tick>, i: nat) {
    forall k :: 0 <= k < |ts| && ts[k].i == i ==> Pressed(ts[k].c)
  }

  function Own(ts: seq<Tick>, i: nat): nat {
    if ts == [] then 0 else (if ts[0].i == i then 1 else 0) + Own(ts[1..], i)
  }

  ghost predicate ReachesMax(s: State, ts: seq<Tick>, i: nat)
    requires Inv(s) && Ticks(ts, |s.servers|) && i < |s.servers|
    decreases |ts|
  {
    || s.servers[i].pushBack == MAX_PUSH_BACK
    || (ts != [] && (InvStep(s, ts[0]); ReachesMax(Apply(s, ts[0]), ts[1..], i)))
  }

  lemma {:induction false} Climbs(s: State, ts: seq<Tick>, i: nat)
    requires Inv(s) && Ticks(ts, |s.servers|) && i < |s.servers| && OverloadFor(ts, i)
    requires s.servers[i].pushBack + Own(ts, i) >= MAX_PUSH_BACK
    ensures ReachesMax(s, ts, i)
    decreases |ts|
  {
    assert ServerOk(s.servers[i]);
    if s.servers[i].pushBack < MAX_PUSH_BACK {
      InvStep(s, ts[0]);
      if ts[0].i == i { TickDirection(s.servers[i], s.shared, ts[0].c, ts[0].db); }
      Climbs(Apply(s, ts[0]), ts[1..], i);
    }
  }

  /**
   Under sustained overload a server reaches the largest factor within 59 ticks of its
   own, however it was started, whatever the other servers do in between and however often
   the database fails.
   */
  lemma OverloadReachesMax(s: State, ts: seq<Tick>, i: nat)
    requires Inv(s) && Ticks(ts, |s.servers|) && i < |s.servers| && OverloadFor(ts, i) && Own(ts, i) >= 59
    ensures ReachesMax(s, ts, i)
  {
    assert ServerOk(s.servers[i]);
    Climbs(s, ts, i);
  }

  // Pressure that leaves less than half of the accepted reports ingested.
  predicate SevereFor(ts: seq<Tick>, i: nat) {
    forall k :: 0 <= k < |ts| && ts[k].i == i ==> Pressed(ts[k].c) && ts[k].c.accepted >= 2 * Max(ts[k].c.ingested, 1)
  }

  // Doublings needed to get from a factor to the maximum.
  function Doublings(v: int): nat
    requires v >= 1
    decreases MAX_PUSH_BACK - v
  {
    if v >= MAX_PUSH_BACK then 0 else 1 + Doublings(2 * v)
  }

  lemma {:induction false} Doubles(s: State, ts: seq<Tick>, i: nat)
    requires Inv(s) && Ticks(ts, |s.servers|) && i < |s.servers| && SevereFor(ts, i)
    requires Own(ts, i) >= Doublings(s.servers[i].pushBack)
    ensures ReachesMax(s, ts, i)
    decreases |ts|
  {
    assert ServerOk(s.servers[i]);
    if s.servers[i].pushBack < MAX_PUSH_BACK {
      InvStep(s, ts[0]);
      if ts[0].i == i { TickDirection(s.servers[i], s.shared, ts[0].c, ts[0].db); }
      Doubles(Apply(s, ts[0]), ts[1..], i);
    }
  }

  // Six ticks are enough when less than half of the accepted reports are ingested.
  lemma SevereOverloadReachesMax(s: State, ts: seq<Tick>, i: nat)
    requires Inv(s) && Ticks(ts, |s.servers|) && i < |s.servers| && SevereFor(ts, i) && Own(ts, i) >= 6
    ensures ReachesMax(s, ts, i)
  {
    assert ServerOk(s.servers[i]);
    FewDoublings(s.servers[i].pushBack);
    Doubles(s, ts, i);
  }

  lemma FewDoublings(v: int)
    requires InRange(v)
    ensures Doublings(v) <= 6
  {
    DoublingsDrop(1, v);
    assert Doublings(1) == 1 + Doublings(2) == 2 + Doublings(4) == 3 + Doublings(8);
    assert Doublings(8) == 1 + Doublings(16) == 2 + Doublings(32) == 3 + Doublings(64);
  }

  lemma {:induction false} DoublingsDrop(v: int, w: int)
    requires 1 <= v <= w
    ensures Doublings(w) <= Doublings(v)
    decreases MAX_PUSH_BACK - v
  {
    if v < MAX_PUSH_BACK && w < MAX_PUSH_BACK { DoublingsDrop(2 * v, 2 * w); }
  }

  /**
   A lone server whose transactions commit then stays there while the overload lasts;
   the shared value is its own after every tick.
   */
  lemma {:induction false} LoneServerStays(s: State, ts: seq<Tick>)
    requires Inv(s) && |s.servers| == 1 && s.shared == s.servers[0].pushBack == MAX_PUSH_BACK
    requires Ticks(ts, 1) && OverloadFor(ts, 0) && forall k :: 0 <= k < |ts| ==> ts[k].db.Commits?
    ensures Final(s, ts).servers[0].pushBack == MAX_PUSH_BACK && Final(s, ts).shared == MAX_PUSH_BACK
    decreases |ts|
  {
    if ts != [] {
      InvStep(s, ts[0]);
      assert ServerOk(s.servers[0]);
      LoneServerStays(Apply(s, ts[0]), ts[1..]);
    }
  }
}
