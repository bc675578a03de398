/**
 The identifiers that tie reports together: endpoint ids `scope;ip;port`, process
 references `ip;pid`, the resolver key made of an address and a port, and scan ids
 `node-seconds`.
 */
module Identifiers {
  datatype Option<+T> = None | Some(value: T)

  type StringMap = map<string, string>

  const LOCALHOST := "127.0.0.1"

  // ----- decimal numbers, as strconv writes and reads them -----

  const MIN_INT := -0x8000_0000_0000_0000
  const MAX_INT := 0x7FFF_FFFF_FFFF_FFFF

  const DIGITS := "0123456789"

  function Decimal(n: nat): string {
    if n < 10 then [DIGITS[n]] else Decimal(n / 10) + [DIGITS[n % 10]]
  }

  function Itoa(n: int): string { if n < 0 then "-" + Decimal(-n) else Decimal(n) }

  predicate IsDigit(c: char) { '0' <= c <= '9' }
  predicate AllDigits(s: string) { forall i :: 0 <= i < |s| ==> IsDigit(s[i]) }

  function Value(s: string): nat
    requires AllDigits(s)
  {
    if s == [] then 0 else 10 * Value(s[..|s| - 1]) + (s[|s| - 1] as int - '0' as int)
  }

  // A parse with its error; on a range error the value is clamped, on a syntax error it is zero.
  datatype Parsed = Parsed(value: int, ok: bool)

  function Atoi(s: string): Parsed {
    var signed := s != [] && (s[0] == '-' || s[0] == '+');
    var digits := if signed then s[1..] else s;
    if digits == [] || !AllDigits(digits) then Parsed(0, false)
    else
      var n: int := if signed && s[0] == '-' then 0 - Value(digits) else Value(digits);
      if n < MIN_INT then Parsed(MIN_INT, false)
      else if n > MAX_INT then Parsed(MAX_INT, false)
      else Parsed(n, true)
  }

  lemma ValueSnoc(s: string, d: nat)
    requires AllDigits(s) && d < 10
    ensures AllDigits(s + [DIGITS[d]]) && Value(s + [DIGITS[d]]) == 10 * Value(s) + d
  {
    assert (s + [DIGITS[d]])[..|s|] == s;
  }

  lemma {:induction false} DecimalValue(n: nat)
    ensures Decimal(n) != [] && AllDigits(Decimal(n)) && Value(Decimal(n)) == n
  {
    if n < 10 {
      ValueSnoc([], n);
      assert [] + [DIGITS[n]] == Decimal(n);
    } else {
      DecimalValue(n / 10);
      ValueSnoc(Decimal(n / 10), n % 10);
    }
  }

  // Every machine integer survives being written and read.
  lemma AtoiItoa(n: int)
    requires MIN_INT <= n <= MAX_INT
    ensures Atoi(Itoa(n)) == Parsed(n, true)
  {
    AtoiClamps(n);
  }

  lemma AtoiUnsigned(n: nat)
    ensures Atoi(Decimal(n)) == if n > MAX_INT then Parsed(MAX_INT, false) else Parsed(n, true)
  {
    DecimalValue(n);
    assert IsDigit(Decimal(n)[0]);
  }

  lemma AtoiNegative(n: nat)
    ensures Atoi("-" + Decimal(n)) == if 0 - n < MIN_INT then Parsed(MIN_INT, false) else Parsed(0 - n, true)
  {
    DecimalValue(n);
    var s := "-" + Decimal(n);
    assert s[0] == '-' && s[1..] == Decimal(n);
  }

  // What is read of any integer: itself in the range of the machine, else an error and the nearest end of it.
  lemma AtoiClamps(n: int)
    ensures Atoi(Itoa(n)) == if n < MIN_INT then Parsed(MIN_INT, false) else if n > MAX_INT then Parsed(MAX_INT, false)
                             else Parsed(n, true)
  {
    if n < 0 { AtoiNegative(-n); } else { AtoiUnsigned(n); }
  }

  // ----- separators -----

  // The first position of a byte at or after `from`, or -1.
  function IndexFrom(s: string, c: char, from: nat): (i: int)
    requires from <= |s|
    ensures i == -1 || from <= i < |s|
    ensures i == -1 ==> forall j :: from <= j < |s| ==> s[j] != c
    ensures i >= 0 ==> s[i] == c && forall j :: from <= j < i ==> s[j] != c
    decreases |s| - from
  {
    if from == |s| then -1
    else if s[from] == c then from
    else IndexFrom(s, c, from + 1)
  }

  // ----- endpoint ids -----

  // None is the slice panic of an id with fewer than two separators.
  function ExtractIPPort(nodeID: string): Option<(string, string)> {
    var first := IndexFrom(nodeID, ';', 0);
    var second := IndexFrom(nodeID, ';', first + 1);
    if first < 0 || second < 0 then None
    else Some((nodeID[first + 1..second], nodeID[second + 1..]))
  }

  predicate EndpointID(nodeID: string, scope: string, ip: string, port: string) {
    ';' !in scope && ';' !in ip && nodeID == scope + [';'] + (ip + [';'] + port)
  }

  lemma ExtractOfParts(nodeID: string, scope: string, ip: string, port: string)
    requires EndpointID(nodeID, scope, ip, port)
    ensures ExtractIPPort(nodeID) == Some((ip, port))
  {
    var n, m := |scope|, |scope| + 1 + |ip|;
    assert nodeID[n] == ';' && forall j :: 0 <= j < n ==> nodeID[j] == scope[j];
    assert nodeID[m] == ';' && forall j :: n + 1 <= j < m ==> nodeID[j] == ip[j - n - 1];
    assert nodeID[n + 1..m] == ip && nodeID[m + 1..] == port;
  }

  lemma Rejoin(s: string, i: nat)
    requires i < |s|
    ensures s == s[..i] + [s[i]] + s[i + 1..]
  {
  }

  lemma PartsOfExtract(nodeID: string) returns (scope: string)
    requires ExtractIPPort(nodeID).Some?
    ensures var ipPort := ExtractIPPort(nodeID).value; EndpointID(nodeID, scope, ipPort.0, ipPort.1)
  {
    var first := IndexFrom(nodeID, ';', 0);
    var second := IndexFrom(nodeID, ';', first + 1);
    scope := nodeID[..first];
    var rest := nodeID[first + 1..];
    Rejoin(nodeID, first);
    Rejoin(rest, second - first - 1);
    assert rest[..second - first - 1] == nodeID[first + 1..second];
    assert rest[second - first..] == nodeID[second + 1..];
  }

  /**
   The extractor is the exact inverse of the id format: it returns an address and a
   port if and only if the id is made of some scope, that address and that port, with
   no separator inside the scope or the address; on any other id it panics.
   */
  lemma ExtractExactly(nodeID: string, ip: string, port: string)
    ensures ExtractIPPort(nodeID) == Some((ip, port)) <==> exists scope :: EndpointID(nodeID, scope, ip, port)
  {
    if ExtractIPPort(nodeID) == Some((ip, port)) {
      var scope := PartsOfExtract(nodeID);
      assert EndpointID(nodeID, scope, ip, port);
    }
    forall scope | EndpointID(nodeID, scope, ip, port)
      ensures ExtractIPPort(nodeID) == Some((ip, port))
    {
      ExtractOfParts(nodeID, scope, ip, port);
    }
  }

  // ----- process references -----

  function ProcessRef(ip: string, pid: int): string { ip + [';'] + Itoa(pid) }

  function ExtractPid(ref: string): int {
    var middle := IndexFrom(ref, ';', 0);
    if middle > 0 && Atoi(ref[middle + 1..]).ok then Atoi(ref[middle + 1..]).value else 0
  }

  // The pid is recovered, for every machine integer, whenever the address is not empty.
  lemma PidRoundTrip(ip: string, pid: int)
    requires ip != [] && ';' !in ip && MIN_INT <= pid <= MAX_INT
    ensures ExtractPid(ProcessRef(ip, pid)) == pid
  {
    var ref := ProcessRef(ip, pid);
    assert ref[|ip|] == ';' && forall j :: 0 <= j < |ip| ==> ref[j] == ip[j];
    assert ref[|ip| + 1..] == Itoa(pid);
    AtoiItoa(pid);
  }

  lemma NotANumber(s: string, i: nat)
    requires i < |s| && s[i] == ';'
    ensures !Atoi(s).ok
  {
    if s[0] == '-' || s[0] == '+' {
      assert s[1..][i - 1] == ';';
    }
  }

  // With an empty address, or one that has a separator itself, the pid read is zero.
  lemma BadAddressLosesPid(ip: string, pid: int)
    requires ip == "" || ';' in ip
    ensures ExtractPid(ProcessRef(ip, pid)) == 0
  {
    var ref := ProcessRef(ip, pid);
    assert ref[|ip|] == ';';
    var middle := IndexFrom(ref, ';', 0);
    if middle > 0 {
      var j :| 0 <= j < |ip| && ip[j] == ';';
      assert ref[j] == ';';
      NotANumber(ref[middle + 1..], |ip| - middle - 1);
    }
  }

  /**
   The pid of a process reference is recovered exactly when the address is neither empty nor
   has a separator in it, but for the pid zero, which is what is read when nothing is.
   */
  lemma PidRecoveredExactly(ip: string, pid: int)
    requires MIN_INT <= pid <= MAX_INT
    ensures ExtractPid(ProcessRef(ip, pid)) == pid <==> (ip != "" && ';' !in ip) || pid == 0
  {
    if ip != "" && ';' !in ip { PidRoundTrip(ip, pid); } else { BadAddressLosesPid(ip, pid); }
  }

  // ----- the resolver key -----

  // The address and the port with nothing between them.
  function ResolverKey(ip: string, port: string): string { ip + port }

  /**
   Two endpoints share a resolver key exactly when one address extends the other by
   the characters the other port starts with.
   */
  lemma KeyCollisions(ip: string, port: string, ip': string, port': string)
    requires |ip| <= |ip'|
    ensures ResolverKey(ip, port) == ResolverKey(ip', port')
      <==> ip <= ip' && port == ip'[|ip|..] + port'
  {
    assert (ip + port)[..|ip|] == ip && (ip + port)[|ip|..] == port;
    assert (ip' + port')[..|ip|] == ip'[..|ip|] && (ip' + port')[|ip|..] == ip'[|ip|..] + port';
    assert ip' + port' == ip'[..|ip|] + (ip'[|ip|..] + port');
  }

  lemma KeyAmbiguous()
    ensures ResolverKey("10.0.0.1", "1234") == ResolverKey("10.0.0.11", "234")
  {
    assert "10.0.0.1" + "1234" == "10.0.0.11" + "234";
  }

  // ----- scan ids -----

  function ScanID(nodeID: string, seconds: nat): string { nodeID + ['-'] + Itoa(seconds) }

  lemma SplitAtLast(a: string, x: string, b: string, y: string)
    requires '-' !in x && '-' !in y && a + ['-'] + x == b + ['-'] + y
    ensures a == b && x == y
  {
    var s := a + ['-'] + x;
    assert s == b + ['-'] + y;
    assert forall i :: |a| < i < |s| ==> s[i] == x[i - |a| - 1];
    assert forall i :: |b| < i < |s| ==> s[i] == y[i - |b| - 1];
    assert s[|a|] == '-' && s[|b|] == '-';
    assert |a| == |b|;
    assert a == s[..|a|] == b && x == s[|a| + 1..] == y;
  }

  // A scan id determines the node and the second it was made from, whatever the node id contains.
  lemma ScanIDInjective(nodeID: string, seconds: nat, nodeID': string, seconds': nat)
    requires ScanID(nodeID, seconds) == ScanID(nodeID', seconds')
    ensures nodeID == nodeID' && seconds == seconds'
  {
    DecimalValue(seconds);
    DecimalValue(seconds');
    SplitAtLast(nodeID, Decimal(seconds), nodeID', Decimal(seconds'));
  }
}
