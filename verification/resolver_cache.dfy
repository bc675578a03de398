/**
 The cache in front of one Redis map.  Entries are stamped with the start of the report
 that read them and are served to reports that start less than `MAP_TTL` later.

 The first part is the cache as one report uses it; the second lets any number of
 workers look up, read and store in any interleaving with updates and clearing of Redis.
 */
module ResolverCache {
  import opened Identifiers

  const MAP_TTL: int := 60

  datatype CacheEntry = CacheEntry(value: string, lastUpdated: int)
  type Cache = map<string, CacheEntry>

  datatype Answer = Answer(value: string, ok: bool)

  // ----- one lookup -----

  predicate Hit(c: Cache, key: string, ttl: int) { key in c && ttl < c[key].lastUpdated }

  // Redis's reply to HGET; a missing key is an error.
  function Reply(redis: StringMap, key: string): Answer {
    if key in redis then Answer(redis[key], true) else Answer("", false)
  }

  // A lookup of a report, and whether its call of Redis fails, should it come to that.
  datatype Lookup = Lookup(key: string, fails: bool)

  function Got(redis: StringMap, q: Lookup): Answer {
    if q.fails then Answer("", false) else Reply(redis, q.key)
  }

  function Served(c: Cache, redis: StringMap, q: Lookup, ttl: int): Answer {
    if Hit(c, q.key, ttl) then Answer(c[q.key].value, c[q.key].value != "") else Got(redis, q)
  }

  function CacheAfter(c: Cache, redis: StringMap, q: Lookup, ttl: int): Cache {
    if Hit(c, q.key, ttl) then c else c[q.key := CacheEntry(Got(redis, q).value, ttl + MAP_TTL)]
  }

  // ----- the lookups of one report -----

  class EndpointResolversCache {
    var netCache: Cache
    var redis: StringMap
    ghost var asked: seq<string>   // the keys asked of Redis so far

    constructor ()
      ensures netCache == map[] && redis == map[] && asked == []
    {
      netCache, redis := map[], map[];
      asked := [];
    }

    // `fails` is how the call of Redis goes, if there is one.
    method GetHost(ip: string, ttl: int, fails: bool) returns (value: string, ok: bool)
      modifies this`netCache, this`asked
      ensures Answer(value, ok) == Served(old(netCache), redis, Lookup(ip, fails), ttl)
      ensures netCache == CacheAfter(old(netCache), redis, Lookup(ip, fails), ttl)
      ensures asked == if old(Hit(netCache, ip, ttl)) then old(asked) else old(asked) + [ip]
    {
      if ip in netCache {
        var entry := netCache[ip];
        if ttl < entry.lastUpdated {
          return entry.value, entry.value != "";
        }
      }
      asked := asked + [ip];
      var res, found := "", !fails && ip in redis;
      if found { res := redis[ip]; }
      netCache := netCache[ip := CacheEntry(res, ttl + MAP_TTL)];
      return res, found;
    }

    // All lookups of one report share its start time.
    method GetHosts(qs: seq<Lookup>, ttl: int) returns (answers: seq<Answer>)
      modifies this`netCache, this`asked
      ensures answers == Answers(old(netCache), redis, qs, ttl)
      ensures asked == old(asked) + ReadKeys(old(netCache), redis, qs, ttl)
    {
      answers := [];
      for i := 0 to |qs|
        invariant answers == Answers(old(netCache), redis, qs[..i], ttl)
        invariant netCache == CacheAfterAll(old(netCache), redis, qs[..i], ttl)
        invariant asked == old(asked) + ReadKeys(old(netCache), redis, qs[..i], ttl)
      {
        assert qs[..i + 1][..i] == qs[..i];
        var value, ok := GetHost(qs[i].key, ttl, qs[i].fails);
        assert Lookup(qs[i].key, qs[i].fails) == qs[i];
        answers := answers + [Answer(value, ok)];
      }
      assert qs[..|qs|] == qs;
    }
  }

  function CacheAfterAll(c: Cache, redis: StringMap, qs: seq<Lookup>, ttl: int): Cache {
    if qs == [] then c
    else CacheAfter(CacheAfterAll(c, redis, qs[..|qs| - 1], ttl), redis, qs[|qs| - 1], ttl)
  }

  function Answers(c: Cache, redis: StringMap, qs: seq<Lookup>, ttl: int): (r: seq<Answer>)
    ensures |r| == |qs|
  {
    if qs == [] then []
    else
      var init, last := qs[..|qs| - 1], qs[|qs| - 1];
      Answers(c, redis, init, ttl) + [Served(CacheAfterAll(c, redis, init, ttl), redis, last, ttl)]
  }

  function ReadKeys(c: Cache, redis: StringMap, qs: seq<Lookup>, ttl: int): seq<string> {
    if qs == [] then []
    else
      var init, last := qs[..|qs| - 1], qs[|qs| - 1];
      ReadKeys(c, redis, init, ttl) + if Hit(CacheAfterAll(c, redis, init, ttl), last.key, ttl) then [] else [last.key]
  }

  predicate Asks(qs: seq<Lookup>, key: string) { exists i :: 0 <= i < |qs| && qs[i].key == key }

  // The first lookup of a key, or the length if there is none.
  function First(qs: seq<Lookup>, key: string): (i: nat)
    ensures i <= |qs| && (i < |qs| <==> Asks(qs, key))
    ensures i < |qs| ==> qs[i].key == key
    ensures forall j :: 0 <= j < i ==> qs[j].key != key
  {
    if qs == [] then 0
    else
      var i := First(qs[..|qs| - 1], key);
      if i < |qs| - 1 || qs[i].key == key then i else |qs|
  }

  lemma FirstSnoc(qs: seq<Lookup>, q: Lookup, key: string)
    ensures Asks(qs + [q], key) <==> Asks(qs, key) || q.key == key
    ensures Asks(qs, key) ==> (qs + [q])[First(qs + [q], key)] == qs[First(qs, key)]
    ensures !Asks(qs, key) && q.key == key ==> (qs + [q])[First(qs + [q], key)] == q
  {
    var rs := qs + [q];
    assert rs[..|qs|] == qs && rs[|qs|] == q;
    if i :| 0 <= i < |qs| && qs[i].key == key { assert rs[i].key == key; }
    if i :| 0 <= i < |rs| && rs[i].key == key { assert i < |qs| ==> qs[i].key == key; }
  }

  // One lookup changes nothing but its own key, and that only if it is not fresh.
  lemma AfterOne(c: Cache, redis: StringMap, q: Lookup, ttl: int, key: string)
    ensures var c' := CacheAfter(c, redis, q, ttl);
      && (q.key == key ==> Hit(c', key, ttl) && (!Hit(c, key, ttl) ==> c'[key].value == Got(redis, q).value))
      && (q.key != key || Hit(c, key, ttl) ==> (key in c' <==> key in c) && (key in c ==> c'[key] == c[key]))
  {
  }

  // An entry stored for a report is served to exactly the reports that start less than `MAP_TTL` after it.
  lemma FreshForExactly(c: Cache, redis: StringMap, q: Lookup, start: int, later: int)
    requires !Hit(c, q.key, start - MAP_TTL)
    ensures Hit(CacheAfter(c, redis, q, start - MAP_TTL), q.key, later - MAP_TTL) <==> later < start + 60
  {
  }

  // Once looked up, a key stays fresh for the rest of the report, with the value of its first lookup.
  lemma {:induction false} StaysFresh(c: Cache, redis: StringMap, qs: seq<Lookup>, ttl: int, key: string)
    ensures var c' := CacheAfterAll(c, redis, qs, ttl);
      && (Asks(qs, key) ==> Hit(c', key, ttl))
      && (Hit(c, key, ttl) ==> Hit(c', key, ttl) && c'[key].value == c[key].value)
      && (!Hit(c, key, ttl) && Asks(qs, key) ==> c'[key].value == Got(redis, qs[First(qs, key)]).value)
      && (!Asks(qs, key) ==> (key in c' <==> key in c) && (key in c ==> c'[key] == c[key]))
  {
    if qs != [] {
      var init, last := qs[..|qs| - 1], qs[|qs| - 1];
      StaysFresh(c, redis, init, ttl, key);
      AfterOne(CacheAfterAll(c, redis, init, ttl), redis, last, ttl, key);
      assert qs == init + [last];
      FirstSnoc(init, last, key);
    }
  }

  lemma {:induction false} ReadMeansLookedUp(c: Cache, redis: StringMap, qs: seq<Lookup>, ttl: int, key: string)
    requires key in ReadKeys(c, redis, qs, ttl)
    ensures Asks(qs, key) && !Hit(c, key, ttl)
  {
    var init, last := qs[..|qs| - 1], qs[|qs| - 1];
    if key in ReadKeys(c, redis, init, ttl) {
      ReadMeansLookedUp(c, redis, init, ttl, key);
      assert qs[First(init, key)].key == key;
    } else {
      StaysFresh(c, redis, init, ttl, key);
      assert qs[|qs| - 1].key == key;
    }
  }

  // One report asks Redis for each key at most once, whether or not the call fails.
  lemma {:induction false} ReadAtMostOnce(c: Cache, redis: StringMap, qs: seq<Lookup>, ttl: int)
    ensures var r := ReadKeys(c, redis, qs, ttl); forall i, j :: 0 <= i < j < |r| ==> r[i] != r[j]
  {
    if qs != [] {
      var init, last := qs[..|qs| - 1], qs[|qs| - 1];
      ReadAtMostOnce(c, redis, init, ttl);
      var r := ReadKeys(c, redis, init, ttl);
      if last.key in r {
        ReadMeansLookedUp(c, redis, init, ttl, last.key);
        StaysFresh(c, redis, init, ttl, last.key);
      }
    }
  }

  lemma {:induction false} AnswerAt(c: Cache, redis: StringMap, qs: seq<Lookup>, ttl: int, i: nat)
    requires i < |qs|
    ensures Answers(c, redis, qs, ttl)[i] == Served(CacheAfterAll(c, redis, qs[..i], ttl), redis, qs[i], ttl)
  {
    if i == |qs| - 1 {
    } else {
      var init := qs[..|qs| - 1];
      AnswerAt(c, redis, init, ttl, i);
      assert init[..i] == qs[..i];
    }
  }

  /**
   One report sees one answer for a key, whichever calls fail, with one exception: a key that
   Redis maps to the empty name is found by the lookup that reads it and not found by the
   later ones.
   */
  lemma OneAnswerExactly(c: Cache, redis: StringMap, qs: seq<Lookup>, ttl: int, i: nat, j: nat)
    requires i < j < |qs| && qs[i].key == qs[j].key
    ensures Answers(c, redis, qs, ttl)[i] == Answers(c, redis, qs, ttl)[j]
      <==> !(!Asks(qs[..i], qs[i].key) && !Hit(c, qs[i].key, ttl) && Got(redis, qs[i]) == Answer("", true))
  {
    var key := qs[i].key;
    AnswerAt(c, redis, qs, ttl, i);
    AnswerAt(c, redis, qs, ttl, j);
    StaysFresh(c, redis, qs[..i], ttl, key);
    StaysFresh(c, redis, qs[..j], ttl, key);
    assert qs[..j][i] == qs[i];
    FirstBefore(qs, i, j, key);
  }

  lemma FirstBefore(qs: seq<Lookup>, i: nat, j: nat, key: string)
    requires i < j <= |qs| && qs[i].key == key
    ensures Asks(qs[..j], key) && qs[..j][First(qs[..j], key)]
      == if Asks(qs[..i], key) then qs[..i][First(qs[..i], key)] else qs[i]
  {
    assert qs[..j][i].key == key;
    var f, g := First(qs[..j], key), First(qs[..i], key);
    assert forall n :: 0 <= n < i ==> qs[..j][n] == qs[n] && qs[..i][n] == qs[n];
  }

  // ----- many workers -----

  // Redis from `time` on, until the next snapshot.
  datatype Snapshot = Snapshot(time: int, content: StringMap)

  datatype Worker =
    | Free
    | Missed(key: string, start: int)
    | Read(key: string, start: int, value: string)

  datatype State = State(
    now: int,
    hist: seq<Snapshot>,           // never empty; the last one is Redis now
    faults: set<(string, int)>,    // HGET calls that failed, with their moment
    cache: Cache,
    workers: seq<Worker>)

  datatype Action =
    | Pass(dt: nat)
    | PushMaps(m: StringMap)
    | Clean(deleted: bool)                       // the map was too large; deleting it may fail
    | Look(w: nat, key: string, start: int)      // by a report that started at `start`
    | Ask(w: nat, fails: bool)
    | Store(w: nat)

  predicate Shaped(s: State) { s.hist != [] }

  function Redis(s: State): StringMap
    requires Shaped(s)
  {
    s.hist[|s.hist| - 1].content
  }

  predicate Enabled(s: State, a: Action) {
    && Shaped(s)
    && match a
       case Pass(_) => true
       case PushMaps(_) => true
       case Clean(_) => true
       case Look(w, _, start) => w < |s.workers| && s.workers[w].Free? && start <= s.now
       case Ask(w, _) => w < |s.workers| && s.workers[w].Missed?
       case Store(w) => w < |s.workers| && s.workers[w].Read?
  }

  function Apply(s: State, a: Action): State
    requires Enabled(s, a)
  {
    match a
    case Pass(dt) => s.(now := s.now + dt)
    case PushMaps(m) => s.(hist := s.hist + [Snapshot(s.now, Redis(s) + m)])
    case Clean(deleted) =>
      s.(cache := map[], hist := if deleted then s.hist + [Snapshot(s.now, map[])] else s.hist)
    case Look(w, key, start) =>
      if Hit(s.cache, key, start - MAP_TTL) then s else s.(workers := s.workers[w := Missed(key, start)])
    case Ask(w, fails) =>
      var x := s.workers[w];
      var value := if fails then "" else Reply(Redis(s), x.key).value;
      s.(workers := s.workers[w := Read(x.key, x.start, value)],
         faults := if fails then s.faults + {(x.key, s.now)} else s.faults)
    case Store(w) =>
      var x := s.workers[w];
      s.(cache := s.cache[x.key := CacheEntry(x.value, x.start)], workers := s.workers[w := Free])
  }

  // Redis held `value` for the key (the empty string: none, or an empty one) at the moment.
  ghost predicate HeldAt(s: State, key: string, value: string, moment: int) {
    exists i :: 0 <= i < |s.hist| && HeldIn(s, i, key, value, moment)
  }

  predicate HeldIn(s: State, i: int, key: string, value: string, moment: int)
    requires 0 <= i < |s.hist|
  {
    && s.hist[i].time <= moment <= (if i + 1 < |s.hist| then s.hist[i + 1].time else s.now)
    && Reply(s.hist[i].content, key).value == value
  }

  // A read at the moment could have returned the value.
  ghost predicate Witness(s: State, key: string, value: string, moment: int) {
    HeldAt(s, key, value, moment) || (value == "" && (key, moment) in s.faults)
  }

  ghost predicate SeenSince(s: State, key: string, value: string, since: int) {
    exists moment :: since <= moment <= s.now && Witness(s, key, value, moment)
  }

  ghost predicate WorkerOk(s: State, x: Worker) {
    match x
    case Free => true
    case Missed(_, start) => start <= s.now
    case Read(key, start, value) => SeenSince(s, key, value, start)
  }

  ghost predicate Inv(s: State) {
    && Shaped(s) && s.hist[|s.hist| - 1].time <= s.now
    && (forall k :: k in s.cache ==> SeenSince(s, k, s.cache[k].value, s.cache[k].lastUpdated))
    && (forall w :: 0 <= w < |s.workers| ==> WorkerOk(s, s.workers[w]))
  }

  // What was true of Redis at a moment stays true of that moment.
  ghost predicate Grows(s: State, t: State) {
    && Shaped(s) && |s.hist| <= |t.hist| && s.now <= t.now && s.faults <= t.faults
    && t.hist[..|s.hist|] == s.hist
    && (|t.hist| > |s.hist| ==> t.hist[|s.hist|].time >= s.now)
  }

  lemma WitnessGrows(s: State, t: State, key: string, value: string, moment: int)
    requires Grows(s, t) && Witness(s, key, value, moment) && moment <= s.now
    ensures Witness(t, key, value, moment)
  {
    if HeldAt(s, key, value, moment) {
      var i :| 0 <= i < |s.hist| && HeldIn(s, i, key, value, moment);
      assert t.hist[..|s.hist|][i] == t.hist[i];
      assert i + 1 < |s.hist| ==> t.hist[..|s.hist|][i + 1] == t.hist[i + 1];
      assert HeldIn(t, i, key, value, moment);
    }
  }

  lemma SeenGrows(s: State, t: State, key: string, value: string, since: int)
    requires Grows(s, t) && SeenSince(s, key, value, since)
    ensures SeenSince(t, key, value, since)
  {
    var moment :| since <= moment <= s.now && Witness(s, key, value, moment);
    WitnessGrows(s, t, key, value, moment);
  }

  lemma StepGrows(s: State, a: Action)
    requires Shaped(s) && Enabled(s, a)
    ensures Grows(s, Apply(s, a))
  {
    assert s.hist[..|s.hist|] == s.hist;
  }

  lemma AskSees(s: State, w: nat, fails: bool)
    requires Inv(s) && Enabled(s, Ask(w, fails))
    ensures var t := Apply(s, Ask(w, fails)); WorkerOk(t, t.workers[w])
  {
    var t := Apply(s, Ask(w, fails));
    var x := t.workers[w];
    if !fails { assert HeldIn(t, |t.hist| - 1, x.key, x.value, s.now); }
    assert Witness(t, x.key, x.value, s.now);
  }

  lemma InvStep(s: State, a: Action)
    requires Inv(s) && Enabled(s, a)
    ensures Inv(Apply(s, a))
  {
    var t := Apply(s, a);
    StepGrows(s, a);
    if a.Ask? { AskSees(s, a.w, a.fails); }
    forall k | k in t.cache ensures SeenSince(t, k, t.cache[k].value, t.cache[k].lastUpdated) {
      if a.Store? && k == s.workers[a.w].key {
        var x := s.workers[a.w];
        SeenGrows(s, t, x.key, x.value, x.start);
      } else {
        SeenGrows(s, t, k, s.cache[k].value, s.cache[k].lastUpdated);
      }
    }
    forall w | 0 <= w < |t.workers| ensures WorkerOk(t, t.workers[w]) {
      if t.workers[w] == s.workers[w] {
        assert WorkerOk(s, s.workers[w]);
        if s.workers[w].Read? { SeenGrows(s, t, s.workers[w].key, s.workers[w].value, s.workers[w].start); }
      }
    }
  }

  predicate IsRun(s: State, acts: seq<Action>)
    decreases |acts|
  {
    acts == [] || (Enabled(s, acts[0]) && IsRun(Apply(s, acts[0]), acts[1..]))
  }

  function Final(s: State, acts: seq<Action>): State
    requires IsRun(s, acts)
    decreases |acts|
  {
    if acts == [] then s else Final(Apply(s, acts[0]), acts[1..])
  }

  lemma {:induction false} InvRun(s: State, acts: seq<Action>)
    requires Inv(s) && IsRun(s, acts)
    ensures Inv(Final(s, acts))
    decreases |acts|
  {
    if acts != [] {
      InvStep(s, acts[0]);
      InvRun(Apply(s, acts[0]), acts[1..]);
    }
  }

  predicate Init(s: State) {
    && |s.hist| == 1 && s.hist[0].time <= s.now && s.cache == map[]
    && forall w :: 0 <= w < |s.workers| ==> s.workers[w].Free?
  }

  /**
   Bounded staleness: under any interleaving of lookups, reads, stores, pushes and
   clearings, a value served from the cache to a report was held by Redis, or came from
   a failed call, at a moment less than `MAP_TTL` before that report started.
   */
  lemma BoundedStaleness(s: State, acts: seq<Action>, key: string, start: int)
    requires Init(s) && IsRun(s, acts) && start <= Final(s, acts).now
    requires Hit(Final(s, acts).cache, key, start - MAP_TTL)
    ensures var t := Final(s, acts);
      exists moment :: start - MAP_TTL < moment <= t.now && Witness(t, key, t.cache[key].value, moment)
  {
    InvRun(s, acts);
    var t := Final(s, acts);
    var moment :| t.cache[key].lastUpdated <= moment <= t.now && Witness(t, key, t.cache[key].value, moment);
  }

  /**
   The lookup of one report is the three steps of a worker that nobody disturbs: it leaves
   the same cache, and stores what it was given.
   */
  lemma LookupIsThreeSteps(s: State, w: nat, key: string, start: int, fails: bool)
    requires Shaped(s) && w < |s.workers| && s.workers[w].Free? && start <= s.now
    ensures var ttl := start - MAP_TTL;
      var s1 := Apply(s, Look(w, key, start));
      if Hit(s.cache, key, ttl) then s1 == s
      else
        && Enabled(s1, Ask(w, fails))
        && var s2 := Apply(s1, Ask(w, fails));
           && Enabled(s2, Store(w))
           && Apply(s2, Store(w)).cache == CacheAfter(s.cache, Redis(s), Lookup(key, fails), ttl)
           && Apply(s2, Store(w)).workers == s.workers && Redis(s2) == Redis(s)
           && s2.workers[w].value == Served(s.cache, Redis(s), Lookup(key, fails), ttl).value
  {
    if !Hit(s.cache, key, start - MAP_TTL) {
      var s1 := Apply(s, Look(w, key, start));
      var s2 := Apply(s1, Ask(w, fails));
      assert Apply(s2, Store(w)).workers == s.workers;
    }
  }

  // Updates of Redis: a push changes the keys it names and no others, a clearing leaves nothing to serve.
  lemma UpdatesExactly(s: State, m: StringMap, deleted: bool, key: string, ttl: int)
    requires Shaped(s)
    ensures Reply(Redis(Apply(s, PushMaps(m))), key) == if key in m then Reply(m, key) else Reply(Redis(s), key)
    ensures Apply(s, PushMaps(m)).cache == s.cache
    ensures var t := Apply(s, Clean(deleted));
      !Hit(t.cache, key, ttl) && Reply(Redis(t), key) == if deleted then Answer("", false) else Reply(Redis(s), key)
  {
  }
}
