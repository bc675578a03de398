/**
 The batcher: reports are gathered in a buffer of a thousand and merged, field by
 field, into one batch when the buffer is full or the ticker fires.
 */
module Batching {
  const BATCH_SIZE: nat := 1000

  type Row = map<string, string>

  // What a preparer makes of one report, and what the batcher merges many of them into.
  datatype Data = Data(
    process: seq<Row>, host: seq<Row>, container: seq<Row>, pod: seq<Row>, containerImage: seq<Row>,
    kubernetesCluster: seq<Row>, processEdges: seq<Row>, containerEdges: seq<Row>,
    containerProcessEdges: seq<Row>, podEdges: seq<Row>, podHostEdges: seq<Row>, endpointEdges: seq<Row>,
    containerImageEdges: seq<Row>, kubernetesClusterEdges: seq<Row>, hosts: seq<Row>,
    numMerged: int, retries: int)

  const BLANK := Data([], [], [], [], [], [], [], [], [], [], [], [], [], [], [], 0, 0)

  datatype Field =
    | Process | Host | Container | Pod | ContainerImage | KubernetesCluster | ProcessEdges | ContainerEdges
    | ContainerProcessEdges | PodEdges | PodHostEdges | EndpointEdges | ContainerImageEdges
    | KubernetesClusterEdges | Hosts

  function Get(d: Data, f: Field): seq<Row> {
    match f
    case Process => d.process
    case Host => d.host
    case Container => d.container
    case Pod => d.pod
    case ContainerImage => d.containerImage
    case KubernetesCluster => d.kubernetesCluster
    case ProcessEdges => d.processEdges
    case ContainerEdges => d.containerEdges
    case ContainerProcessEdges => d.containerProcessEdges
    case PodEdges => d.podEdges
    case PodHostEdges => d.podHostEdges
    case EndpointEdges => d.endpointEdges
    case ContainerImageEdges => d.containerImageEdges
    case KubernetesClusterEdges => d.kubernetesClusterEdges
    case Hosts => d.hosts
  }

  // One field of several reports, end to end.
  function Flat(ds: seq<Data>, f: Field): seq<Row> {
    if ds == [] then [] else Flat(ds[..|ds| - 1], f) + Get(ds[|ds| - 1], f)
  }

  // The batch that several reports are merged into.
  ghost predicate IsMerge(d: Data, ds: seq<Data>) {
    && (forall f: Field :: f != PodHostEdges ==> Get(d, f) == Flat(ds, f))
    && Get(d, PodHostEdges) == []
    && d.numMerged == |ds| && d.retries == 0
  }

  // The loop of mergeIngestionData; it carries fourteen of the fifteen fields.
  method MergeIngestionData(other: seq<Data>) returns (d: Data)
    ensures IsMerge(d, other)
  {
    d := BLANK;
    for i := 0 to |other|
      invariant d.podHostEdges == [] && d.numMerged == 0 && d.retries == 0
      invariant forall f: Field :: f != PodHostEdges ==> Get(d, f) == Flat(other[..i], f)
    {
      var o := other[i];
      assert other[..i + 1][..i] == other[..i];
      d := d.(
        process := d.process + o.process, host := d.host + o.host, container := d.container + o.container,
        containerImage := d.containerImage + o.containerImage, pod := d.pod + o.pod,
        kubernetesCluster := d.kubernetesCluster + o.kubernetesCluster,
        processEdges := d.processEdges + o.processEdges,
        containerProcessEdges := d.containerProcessEdges + o.containerProcessEdges,
        containerEdges := d.containerEdges + o.containerEdges, podEdges := d.podEdges + o.podEdges,
        endpointEdges := d.endpointEdges + o.endpointEdges,
        containerImageEdges := d.containerImageEdges + o.containerImageEdges,
        kubernetesClusterEdges := d.kubernetesClusterEdges + o.kubernetesClusterEdges, hosts := d.hosts + o.hosts);
    }
    assert other[..|other|] == other;
    d := d.(numMerged := |other|);
  }

  // ----- the batcher loop -----

  datatype Event = Report(d: Data) | Tick

  function Reports(events: seq<Event>): seq<Data> {
    if events == [] then []
    else
      var rest := Reports(events[..|events| - 1]);
      match events[|events| - 1]
      case Report(d) => rest + [d]
      case Tick => rest
  }

  // The reports received since the last tick.
  function SinceTick(events: seq<Event>): nat {
    if events == [] || events[|events| - 1].Tick? then 0 else SinceTick(events[..|events| - 1]) + 1
  }

  // How many of them are still in the buffer.
  function Buffered(events: seq<Event>): nat {
    if events == [] || events[|events| - 1].Tick? then 0
    else
      var n := Buffered(events[..|events| - 1]) + 1;
      if n == BATCH_SIZE then 0 else n
  }

  lemma BufferedStep(events: seq<Event>, n: nat)
    requires n < |events|
    ensures var size := Buffered(events[..n]) + 1;
      Buffered(events[..n + 1]) == if events[n].Tick? || size == BATCH_SIZE then 0 else size
  {
    assert events[..n + 1][..n] == events[..n];
  }

  lemma {:induction false} BufferedIsRemainder(events: seq<Event>)
    ensures Buffered(events) == SinceTick(events) % BATCH_SIZE
  {
    if events != [] && !events[|events| - 1].Tick? { BufferedIsRemainder(events[..|events| - 1]); }
  }

  function SumMerged(ds: seq<Data>): int {
    if ds == [] then 0 else SumMerged(ds[..|ds| - 1]) + ds[|ds| - 1].numMerged
  }

  // One field of the emitted batches followed by the buffer is that field of the reports received.
  ghost predicate FieldKept(received: seq<Data>, emitted: seq<Data>, buffer: seq<Data>, f: Field) {
    Flat(emitted, f) + Flat(buffer, f) == Flat(received, f)
  }

  // The buffer is the tail of the reports received, and the batches hold the rest.
  ghost predicate Balanced(received: seq<Data>, emitted: seq<Data>, buffer: seq<Data>) {
    && (forall f: Field :: f != PodHostEdges ==> FieldKept(received, emitted, buffer, f))
    && Flat(emitted, PodHostEdges) == []
    && SumMerged(emitted) + |buffer| == |received|
    && |buffer| <= |received| && buffer == received[|received| - |buffer|..]
    && forall i :: 0 <= i < |emitted| ==> 1 <= emitted[i].numMerged <= BATCH_SIZE && emitted[i].retries == 0
  }

  lemma Regroup(x: seq<Row>, y: seq<Row>, z: seq<Row>)
    ensures x + y + z == x + (y + z)
  {
  }

  lemma {:induction false} FlatAppend(a: seq<Data>, b: seq<Data>, f: Field)
    ensures Flat(a + b, f) == Flat(a, f) + Flat(b, f)
  {
    if b == [] {
      assert a + b == a;
    } else {
      var init, last := b[..|b| - 1], b[|b| - 1];
      assert (a + b)[..|a + b| - 1] == a + init && (a + b)[|a + b| - 1] == last;
      FlatAppend(a, init, f);
      Regroup(Flat(a, f), Flat(init, f), Get(last, f));
    }
  }

  lemma FlatSnoc(ds: seq<Data>, d: Data, f: Field)
    ensures Flat(ds + [d], f) == Flat(ds, f) + Get(d, f)
  {
    assert (ds + [d])[..|ds|] == ds;
  }

  lemma ReceiveKeepsField(received: seq<Data>, emitted: seq<Data>, buffer: seq<Data>, d: Data, f: Field)
    requires FieldKept(received, emitted, buffer, f)
    ensures FieldKept(received + [d], emitted, buffer + [d], f)
  {
    FlatSnoc(received, d, f);
    FlatSnoc(buffer, d, f);
    Regroup(Flat(emitted, f), Flat(buffer, f), Get(d, f));
  }

  lemma ReceiveKeeps(received: seq<Data>, emitted: seq<Data>, buffer: seq<Data>, d: Data)
    requires Balanced(received, emitted, buffer)
    ensures Balanced(received + [d], emitted, buffer + [d])
  {
    forall f: Field | f != PodHostEdges ensures FieldKept(received + [d], emitted, buffer + [d], f) {
      ReceiveKeepsField(received, emitted, buffer, d, f);
    }
  }

  lemma FlushKeepsField(received: seq<Data>, emitted: seq<Data>, buffer: seq<Data>, batch: Data, f: Field)
    requires FieldKept(received, emitted, buffer, f) && Get(batch, f) == Flat(buffer, f)
    ensures FieldKept(received, emitted + [batch], [], f)
  {
    FlatSnoc(emitted, batch, f);
  }

  lemma FlushKeeps(received: seq<Data>, emitted: seq<Data>, buffer: seq<Data>, batch: Data)
    requires Balanced(received, emitted, buffer) && IsMerge(batch, buffer) && 0 < |buffer| <= BATCH_SIZE
    ensures Balanced(received, emitted + [batch], [])
  {
    forall f: Field | f != PodHostEdges ensures FieldKept(received, emitted + [batch], [], f) {
      assert FieldKept(received, emitted, buffer, f);
      FlushKeepsField(received, emitted, buffer, batch, f);
    }
    assert (emitted + [batch])[..|emitted|] == emitted;
  }

  method Put(batch: array<Data>, size: nat, d: Data)
    requires size < batch.Length
    modifies batch
    ensures batch[..size + 1] == old(batch[..size]) + [d]
  {
    batch[size] := d;
  }

  // The buffered reports are merged and sent.
  method SendMerged(
    ghost received: seq<Data>, emitted: seq<Data>, ghost buffer: seq<Data>, batch: array<Data>, size: nat)
    returns (sent: seq<Data>)
    requires 0 < size <= BATCH_SIZE && batch.Length == BATCH_SIZE && buffer == batch[..size]
    requires Balanced(received, emitted, buffer)
    ensures Balanced(received, sent, [])
  {
    var finalBatch := MergeIngestionData(batch[..size]);
    FlushKeeps(received, emitted, buffer, finalBatch);
    sent := emitted + [finalBatch];
  }

  /**
   The batcher over any sequence of reports and ticks: the buffer never overflows,
   every batch merges between one and a thousand reports, and the batches sent to the
   database followed by what is still buffered hold every field of every report received,
   in order, but the edges from pods to hosts.  What is still buffered when the channel
   closes is the tail that is never sent: the reports since the last tick, but for full thousands.
   */
  method RunDBBatcher(events: seq<Event>) returns (emitted: seq<Data>, pending: seq<Data>)
    ensures Balanced(Reports(events), emitted, pending)
    ensures |pending| == SinceTick(events) % 1000
  {
    var batch := new Data[BATCH_SIZE](_ => BLANK);
    var size := 0;
    emitted := [];
    ghost var received, buffer: seq<Data> := [], [];
    for n := 0 to |events|
      invariant fresh(batch) && batch.Length == BATCH_SIZE && 0 <= size < BATCH_SIZE
      invariant received == Reports(events[..n]) && buffer == batch[..size]
      invariant Balanced(received, emitted, buffer)
      invariant size == Buffered(events[..n])
    {
      ReportsStep(events, n);
      BufferedStep(events, n);
      var send;
      match events[n] {
        case Report(d) =>
          ReceiveKeeps(received, emitted, buffer, d);
          received := received + [d];
          Put(batch, size, d);
          size := size + 1;
          send := size == BATCH_SIZE;
          buffer := buffer + [d];
        case Tick =>
          send := size > 0;
      }
      if send {
        emitted := SendMerged(received, emitted, buffer, batch, size);
        size := 0;
        batch := new Data[BATCH_SIZE](_ => BLANK);
        buffer := [];
      }
    }
    assert events[..|events|] == events;
    BufferedIsRemainder(events);
    pending := batch[..size];
  }

  lemma ReportsStep(events: seq<Event>, n: nat)
    requires n < |events|
    ensures Reports(events[..n + 1]) ==
      match events[n] case Report(d) => Reports(events[..n]) + [d] case Tick => Reports(events[..n])
  {
    assert events[..n + 1][..n] == events[..n];
  }

  /**
   The lost field: a run conserves the edges from pods to hosts as well exactly when the
   reports whose batches were sent carried none.
   */
  lemma PodHostEdgesLost(received: seq<Data>, emitted: seq<Data>, buffer: seq<Data>)
    requires Balanced(received, emitted, buffer)
    ensures FieldKept(received, emitted, buffer, PodHostEdges)
      <==> Flat(received[..|received| - |buffer|], PodHostEdges) == []
  {
    var sent := received[..|received| - |buffer|];
    assert received == sent + buffer;
    FlatAppend(sent, buffer, PodHostEdges);
    var a, b := Flat(sent, PodHostEdges), Flat(buffer, PodHostEdges);
    assert |a + b| == |a| + |b|;
  }
}
