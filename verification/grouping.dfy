/**
 Grouping the connections of a report by pair of hosts, through a map whose key is
 the two names joined by ";;;" and which is taken apart again by splitting that key.
 */
module Grouping {
  import opened Identifiers
  import opened Connections

  datatype Pid = Pid(left: int, right: int, localPort: int, leftIP: Option<string>, rightIP: Option<string>)
  datatype Row = Row(source: string, destination: string, pids: seq<Pid>)

  // The five lists kept for one key.
  datatype Lists = Lists(
    leftPIDs: seq<int>, rightPIDs: seq<int>, localPorts: seq<int>,
    leftIPs: seq<Option<string>>, rightIPs: seq<Option<string>>)

  predicate Parallel(l: Lists) {
    |l.leftPIDs| == |l.rightPIDs| == |l.localPorts| == |l.leftIPs| == |l.rightIPs|
  }

  function PidOf(c: Connection): Pid { Pid(c.leftPID, c.rightPID, c.localPort, c.leftIP, c.rightIP) }

  // ----- the key -----

  const DELIM := ";;;"

  function Key(c: Connection): string { c.source + DELIM + c.destination }

  predicate DelimAt(s: string, i: int) {
    0 <= i && i + 3 <= |s| && s[i] == ';' && s[i + 1] == ';' && s[i + 2] == ';'
  }

  predicate HasDelim(s: string) { exists i :: 0 <= i < |s| && DelimAt(s, i) }

  // The first delimiter at or after `from`, or the end of the string.
  function NextDelim(s: string, from: nat): (i: nat)
    requires from <= |s|
    ensures from <= i <= |s|
    ensures i < |s| ==> DelimAt(s, i)
    ensures forall j :: from <= j < i ==> !DelimAt(s, j)
    decreases |s| - from
  {
    if from == |s| || DelimAt(s, from) then from else NextDelim(s, from + 1)
  }

  // The first two pieces of a key split at the delimiter.
  function Parts(k: string): (string, string)
    requires HasDelim(k)
  {
    var i := NextDelim(k, 0);
    assert DelimAt(k, i);
    (k[..i], k[i + 3..NextDelim(k, i + 3)])
  }

  // The names that survive being joined and split.
  predicate Clean(source: string, destination: string) {
    !HasDelim(source) && !(source != "" && source[|source| - 1] == ';') && !HasDelim(destination)
  }

  lemma KeyHasDelim(c: Connection)
    ensures HasDelim(Key(c)) && DelimAt(Key(c), |c.source|)
  {
    assert DelimAt(Key(c), |c.source|);
  }

  lemma FirstDelim(s: string, n: nat)
    requires DelimAt(s, n) && forall j :: 0 <= j < n ==> !DelimAt(s, j)
    ensures NextDelim(s, 0) == n
  {
    var i := NextDelim(s, 0);
    assert i <= n;
    assert i < |s|;
  }

  // A source that survives hides no delimiter before its own end.
  lemma SourceFirst(c: Connection)
    requires !HasDelim(c.source) && !(c.source != "" && c.source[|c.source| - 1] == ';')
    ensures NextDelim(Key(c), 0) == |c.source|
  {
    var k, n := Key(c), |c.source|;
    KeyHasDelim(c);
    forall j | 0 <= j < n ensures !DelimAt(k, j) {
      assert !DelimAt(c.source, j);
      assert forall m :: 0 <= m < n ==> k[m] == c.source[m];
    }
    FirstDelim(k, n);
  }

  lemma DestinationShift(c: Connection, j: int)
    ensures DelimAt(c.destination, j) ==> DelimAt(Key(c), |c.source| + 3 + j)
    ensures j >= 0 && DelimAt(Key(c), |c.source| + 3 + j) ==> DelimAt(c.destination, j)
  {
    assert Key(c)[|c.source| + 3..] == c.destination;
    assert forall m :: 0 <= m < |c.destination| ==> Key(c)[|c.source| + 3 + m] == c.destination[m];
  }

  lemma CleanSurvives(c: Connection)
    requires Clean(c.source, c.destination)
    ensures HasDelim(Key(c)) && Parts(Key(c)) == (c.source, c.destination)
  {
    var k, n := Key(c), |c.source|;
    KeyHasDelim(c);
    SourceFirst(c);
    var e := NextDelim(k, n + 3);
    if e < |k| {
      DestinationShift(c, e - n - 3);
      assert false;
    }
    assert k[..n] == c.source && k[n + 3..e] == c.destination;
  }

  // Whatever the names, the two pieces of a key are names that survive.
  lemma PartsAreClean(k: string)
    requires HasDelim(k)
    ensures Clean(Parts(k).0, Parts(k).1)
  {
    var i := NextDelim(k, 0);
    assert DelimAt(k, i);
    var e := NextDelim(k, i + 3);
    var source, destination := k[..i], k[i + 3..e];
    forall j ensures !DelimAt(source, j) {
      assert 0 <= j < i ==> !DelimAt(k, j);
    }
    if i > 0 {
      assert !DelimAt(k, i - 1);
    }
    forall j ensures !DelimAt(destination, j) {
      if 0 <= j && j + 3 <= |destination| {
        assert !DelimAt(k, i + 3 + j);
      }
    }
  }

  /**
   A pair of names survives the key exactly when the source contains no ";;;" and does
   not end in ';', and the destination contains no ";;;".
   */
  lemma SurvivesExactly(c: Connection)
    ensures HasDelim(Key(c))
    ensures Parts(Key(c)) == (c.source, c.destination) <==> Clean(c.source, c.destination)
  {
    KeyHasDelim(c);
    PartsAreClean(Key(c));
    if Clean(c.source, c.destination) { CleanSurvives(c); }
  }

  // ----- what the rows hold -----

  // The pids recorded under a key, in the order of the connections.
  function PidsFor(cs: seq<Connection>, k: string): seq<Pid> {
    if cs == [] then []
    else
      var rest := PidsFor(cs[..|cs| - 1], k);
      if Key(cs[|cs| - 1]) == k then rest + [PidOf(cs[|cs| - 1])] else rest
  }

  function RowOf(cs: seq<Connection>, k: string): Row
    requires HasDelim(k)
  {
    Row(Parts(k).0, Parts(k).1, PidsFor(cs, k))
  }

  function Zipped(l: Lists): seq<Pid>
    requires Parallel(l)
  {
    seq(|l.leftPIDs|, i requires 0 <= i < |l.leftPIDs| =>
      Pid(l.leftPIDs[i], l.rightPIDs[i], l.localPorts[i], l.leftIPs[i], l.rightIPs[i]))
  }

  function Extended(l: Lists, c: Connection): (l': Lists)
    requires Parallel(l)
    ensures Parallel(l') && Zipped(l') == Zipped(l) + [PidOf(c)]
  {
    Lists(l.leftPIDs + [c.leftPID], l.rightPIDs + [c.rightPID], l.localPorts + [c.localPort],
          l.leftIPs + [c.leftIP], l.rightIPs + [c.rightIP])
  }

  const NO_LISTS := Lists([], [], [], [], [])

  function Keys(cs: seq<Connection>): set<string> { set i | 0 <= i < |cs| :: Key(cs[i]) }

  // The first loop: one map entry per key, five parallel lists in each.
  method Collect(cs: seq<Connection>) returns (m: map<string, Lists>)
    ensures m.Keys == Keys(cs)
    ensures forall k :: k in m ==> Parallel(m[k]) && Zipped(m[k]) == PidsFor(cs, k)
  {
    m := map[];
    for n := 0 to |cs|
      invariant m.Keys == Keys(cs[..n])
      invariant forall k :: k in m ==> Parallel(m[k]) && Zipped(m[k]) == PidsFor(cs[..n], k)
      invariant forall k :: k !in m ==> PidsFor(cs[..n], k) == []
    {
      var c := cs[n];
      var id := Key(c);
      assert cs[..n + 1][..n] == cs[..n] && cs[..n + 1][n] == c;
      assert Keys(cs[..n + 1]) == Keys(cs[..n]) + {id} by { KeysSnoc(cs[..n + 1]); }
      m := m[id := Extended(if id in m then m[id] else NO_LISTS, c)];
    }
    assert cs[..|cs|] == cs;
  }

  lemma KeysSnoc(cs: seq<Connection>)
    requires cs != []
    ensures Keys(cs) == Keys(cs[..|cs| - 1]) + {Key(cs[|cs| - 1])}
  {
    var n := |cs| - 1;
    assert forall i :: 0 <= i < n ==> cs[..n][i] == cs[i];
    forall k | k in Keys(cs) ensures k in Keys(cs[..n]) + {Key(cs[n])} {
      var i :| 0 <= i < |cs| && Key(cs[i]) == k;
      if i < n { assert Key(cs[..n][i]) == k; }
    }
    forall k | k in Keys(cs[..n]) + {Key(cs[n])} ensures k in Keys(cs) {
      if k in Keys(cs[..n]) {
        var i :| 0 <= i < n && Key(cs[..n][i]) == k;
        assert Key(cs[i]) == k;
      } else {
        assert Key(cs[n]) == k;
      }
    }
  }

  // The inner loop of the second pass.
  method Zip(l: Lists) returns (pids: seq<Pid>)
    requires Parallel(l)
    ensures pids == Zipped(l)
  {
    pids := [];
    for i := 0 to |l.leftPIDs|
      invariant pids == Zipped(l)[..i]
    {
      pids := pids + [Pid(l.leftPIDs[i], l.rightPIDs[i], l.localPorts[i], l.leftIPs[i], l.rightIPs[i])];
    }
  }

  ghost predicate Distinct<T>(s: seq<T>) { forall i, j :: 0 <= i < j < |s| ==> s[i] != s[j] }

  ghost function Elements(order: seq<string>): set<string> { set k | k in order }

  ghost predicate RowsOk(cs: seq<Connection>, rows: seq<Row>, order: seq<string>) {
    && |rows| == |order| && Distinct(order)
    && forall i :: 0 <= i < |rows| ==> HasDelim(order[i]) && rows[i] == RowOf(cs, order[i])
  }

  // The rows of a grouping, the keys taken in some order.
  ghost predicate IsGrouping(cs: seq<Connection>, rows: seq<Row>, order: seq<string>) {
    RowsOk(cs, rows, order) && Elements(order) == Keys(cs)
  }

  lemma AddRow(cs: seq<Connection>, rows: seq<Row>, order: seq<string>, k: string)
    requires RowsOk(cs, rows, order) && k !in Elements(order) && HasDelim(k)
    ensures RowsOk(cs, rows + [RowOf(cs, k)], order + [k])
    ensures Elements(order + [k]) == Elements(order) + {k}
  {
    var rows', order' := rows + [RowOf(cs, k)], order + [k];
    forall i | 0 <= i < |rows'| ensures HasDelim(order'[i]) && rows'[i] == RowOf(cs, order'[i]) {
      if i < |rows| { assert rows'[i] == rows[i] && order'[i] == order[i]; }
    }
    forall i, j | 0 <= i < j < |order'| ensures order'[i] != order'[j] {
      if j == |order| { assert order[i] in order; }
    }
  }

  // The keys not taken yet.
  ghost predicate Remaining(keys: set<string>, todo: set<string>, order: seq<string>) {
    todo !! Elements(order) && todo + Elements(order) == keys
  }

  lemma TakeKey(keys: set<string>, todo: set<string>, order: seq<string>, k: string)
    requires Remaining(keys, todo, order) && k in todo
    ensures Remaining(keys, todo - {k}, order + [k]) && k !in Elements(order) && k in keys
  {
    assert Elements(order + [k]) == Elements(order) + {k};
  }

  method MakeRow(ghost cs: seq<Connection>, k: string, l: Lists) returns (row: Row)
    requires k in Keys(cs) && Parallel(l) && Zipped(l) == PidsFor(cs, k)
    ensures HasDelim(k) && row == RowOf(cs, k)
  {
    KeyOfSome(cs, k);
    var pids := Zip(l);
    row := Row(Parts(k).0, Parts(k).1, pids);
  }

  lemma KeyOfSome(cs: seq<Connection>, k: string)
    requires k in Keys(cs)
    ensures HasDelim(k)
  {
    var i :| 0 <= i < |cs| && Key(cs[i]) == k;
    KeyHasDelim(cs[i]);
  }

  // ----- nothing is lost, exactly when the names survive -----

  // A connection as its row gives it back.
  function Given(c: Connection): Connection {
    SurvivesExactly(c);
    c.(source := Parts(Key(c)).0, destination := Parts(Key(c)).1)
  }

  function AllGiven(cs: seq<Connection>): (r: seq<Connection>)
    ensures |r| == |cs|
  {
    seq(|cs|, i requires 0 <= i < |cs| => Given(cs[i]))
  }

  function Expanded(r: Row): seq<Connection> {
    seq(|r.pids|, i requires 0 <= i < |r.pids| =>
      var p := r.pids[i];
      Connection(r.source, r.destination, p.left, p.right, p.localPort, p.leftIP, p.rightIP))
  }

  function Flattened(rows: seq<Row>): seq<Connection> {
    if rows == [] then [] else Flattened(rows[..|rows| - 1]) + Expanded(rows[|rows| - 1])
  }

  // The connections with one of some keys, as given back.
  function Selected(cs: seq<Connection>, ks: set<string>): seq<Connection> {
    if cs == [] then []
    else
      var rest := Selected(cs[..|cs| - 1], ks);
      if Key(cs[|cs| - 1]) in ks then rest + [Given(cs[|cs| - 1])] else rest
  }

  lemma {:induction false} RowHolds(cs: seq<Connection>, k: string)
    requires HasDelim(k)
    ensures Expanded(RowOf(cs, k)) == Selected(cs, {k})
  {
    if cs != [] {
      var init, c := cs[..|cs| - 1], cs[|cs| - 1];
      RowHolds(init, k);
      if Key(c) == k {
        var ps := PidsFor(init, k);
        assert PidsFor(cs, k) == ps + [PidOf(c)];
        assert Expanded(Row(Parts(k).0, Parts(k).1, ps + [PidOf(c)])) == Expanded(RowOf(init, k)) + [Given(c)];
      }
    }
  }

  lemma {:induction false} SelectMore(cs: seq<Connection>, ks: set<string>, k: string)
    requires k !in ks
    ensures multiset(Selected(cs, ks + {k})) == multiset(Selected(cs, ks)) + multiset(Selected(cs, {k}))
  {
    if cs != [] { SelectMore(cs[..|cs| - 1], ks, k); }
  }

  lemma {:induction false} SelectNone(cs: seq<Connection>)
    ensures Selected(cs, {}) == []
  {
    if cs != [] { SelectNone(cs[..|cs| - 1]); }
  }

  lemma {:induction false} SelectAll(cs: seq<Connection>, ks: set<string>)
    requires Keys(cs) <= ks
    ensures Selected(cs, ks) == AllGiven(cs)
  {
    if cs != [] {
      KeysSnoc(cs);
      SelectAll(cs[..|cs| - 1], ks);
      assert AllGiven(cs) == AllGiven(cs[..|cs| - 1]) + [Given(cs[|cs| - 1])];
    }
  }

  lemma {:induction false} FlattenedSelects(cs: seq<Connection>, rows: seq<Row>, order: seq<string>)
    requires RowsOk(cs, rows, order)
    ensures multiset(Flattened(rows)) == multiset(Selected(cs, Elements(order)))
    decreases |rows|
  {
    if rows == [] {
      assert Elements(order) == {};
      SelectNone(cs);
    } else {
      var n := |rows| - 1;
      assert RowsOk(cs, rows[..n], order[..n]);
      FlattenedSelects(cs, rows[..n], order[..n]);
      assert order == order[..n] + [order[n]];
      assert Elements(order) == Elements(order[..n]) + {order[n]};
      SelectMore(cs, Elements(order[..n]), order[n]);
      RowHolds(cs, order[n]);
    }
  }

  // Whatever the names, flattening the rows gives every connection back once, under its key's names.
  lemma FlattenedIsGiven(cs: seq<Connection>, rows: seq<Row>, order: seq<string>)
    requires IsGrouping(cs, rows, order)
    ensures multiset(Flattened(rows)) == multiset(AllGiven(cs))
  {
    FlattenedSelects(cs, rows, order);
    SelectAll(cs, Keys(cs));
  }

  ghost predicate AllClean(cs: seq<Connection>) {
    forall i :: 0 <= i < |cs| ==> Clean(cs[i].source, cs[i].destination)
  }

  /**
   Lossless grouping: flattening the rows gives back the input as a multiset exactly
   when every connection has names that survive the key.
   */
  lemma LosslessExactlyWhenClean(cs: seq<Connection>, rows: seq<Row>, order: seq<string>)
    requires IsGrouping(cs, rows, order)
    ensures multiset(Flattened(rows)) == multiset(cs) <==> AllClean(cs)
  {
    FlattenedIsGiven(cs, rows, order);
    if AllClean(cs) {
      forall i | 0 <= i < |cs| ensures Given(cs[i]) == cs[i] { CleanSurvives(cs[i]); }
      assert AllGiven(cs) == cs;
    } else {
      var i :| 0 <= i < |cs| && !Clean(cs[i].source, cs[i].destination);
      forall j | 0 <= j < |cs| ensures AllGiven(cs)[j] != cs[i] {
        SurvivesExactly(cs[j]);
        PartsAreClean(Key(cs[j]));
      }
      assert cs[i] in multiset(cs) && cs[i] !in multiset(AllGiven(cs));
    }
  }

  function ForPair(cs: seq<Connection>, source: string, destination: string): seq<Connection> {
    if cs == [] then []
    else
      var rest := ForPair(cs[..|cs| - 1], source, destination);
      var c := cs[|cs| - 1];
      if c.source == source && c.destination == destination then rest + [c] else rest
  }

  lemma {:induction false} SelectedIsPair(cs: seq<Connection>, c: Connection)
    requires AllClean(cs) && Clean(c.source, c.destination)
    ensures Selected(cs, {Key(c)}) == ForPair(cs, c.source, c.destination)
  {
    if cs != [] {
      var d := cs[|cs| - 1];
      SelectedIsPair(cs[..|cs| - 1], c);
      CleanSurvives(c);
      CleanSurvives(d);
    }
  }

  /**
   With names that survive, no two rows are for the same pair, and every row gives
   back the connections of its pair in their original order.
   */
  lemma RowPerPair(cs: seq<Connection>, rows: seq<Row>, order: seq<string>, i: nat, j: nat)
    requires IsGrouping(cs, rows, order) && AllClean(cs) && i < |rows| && j < |rows|
    ensures Expanded(rows[i]) == ForPair(cs, rows[i].source, rows[i].destination)
    ensures i != j ==> (rows[i].source, rows[i].destination) != (rows[j].source, rows[j].destination)
  {
    assert order[i] in Elements(order) && order[j] in Elements(order);
    var a :| 0 <= a < |cs| && Key(cs[a]) == order[i];
    var b :| 0 <= b < |cs| && Key(cs[b]) == order[j];
    CleanSurvives(cs[a]);
    CleanSurvives(cs[b]);
    RowHolds(cs, order[i]);
    SelectedIsPair(cs, cs[a]);
  }

  /**
   connections2maps: one row per key, in the arbitrary order of the map, holding the pids
   of exactly the connections with that key, in their order.  Flattening the rows gives back
   every connection once under its key's names, and so the input exactly when all
   names survive.
   */
  method Connections2Maps(cs: seq<Connection>) returns (rows: seq<Row>)
    ensures exists order :: IsGrouping(cs, rows, order)
    ensures multiset(Flattened(rows)) == multiset(AllGiven(cs))
    ensures multiset(Flattened(rows)) == multiset(cs) <==> AllClean(cs)
  {
    var m := Collect(cs);
    rows := [];
    ghost var order: seq<string> := [];
    var todo := m.Keys;
    while todo != {}
      invariant Remaining(m.Keys, todo, order) && RowsOk(cs, rows, order)
      decreases todo
    {
      var k :| k in todo;
      TakeKey(m.Keys, todo, order, k);
      var row := MakeRow(cs, k, m[k]);
      AddRow(cs, rows, order, k);
      rows := rows + [row];
      order := order + [k];
      todo := todo - {k};
    }
    assert IsGrouping(cs, rows, order);
    FlattenedIsGiven(cs, rows, order);
    LosslessExactlyWhenClean(cs, rows, order);
  }
}
