/**
 The scheduler's unit-test scenarios, replayed on the model: the rejected
 class, per-flow order with mixed batches, the weighted first round, and
 class order under equal weights.
 */
module Scenarios {
  import opened Words
  import opened Packets
  import opened Seqs
  import opened Scheduling
  import opened ReadOrder
  import opened DrainOrder
  import opened Equivalence

  /** The weight table the tests share. */
  const WEIGHTS: seq<nat> := [2, 5, 1, 8, 4, 3, 6, 7]

  /** `Packet::new(132, 42, 1)` fails its class check. */
  lemma InvalidQueue()
    ensures NewPacket(132, 42, 1) == ClassOutOfRange(42)
  {
  }

  /** `(0..n).map(|payload| Packet::new(payload, cls, flow))`. */
  function Batch(cls: Class, flow: u16, n: nat): (b: seq<Packet>)
    requires n <= U64_LIMIT
    ensures |b| == n
  {
    seq(n, i requires 0 <= i < n => Packet(cls, flow, i))
  }

  /** Ten packets of class 0 on flow 1, four of class 7 on flow 2, eight of class 0 on flow 3. */
  function FlowBatches(): seq<seq<Packet>>
  {
    [Batch(0, 1, 10), Batch(7, 2, 4), Batch(0, 3, 8)]
  }

  /**
   Batch `j` of the flow test is flow `j + 1`, all of class 0 except batch 1,
   of class 7.
   The batches are a parameter pinned by the `requires` so that the literal
   data is unfolded only in the lemma that describes it.
   */
  lemma {:induction false} FlowBatchesTagged(bs: seq<seq<Packet>>)
    requires bs == FlowBatches()
    ensures |bs| == 3
    ensures forall j, p :: 0 <= j < 3 && p in bs[j] ==> p.flow == j + 1 && p.cls == if j == 1 then 7 else 0
  {
  }

  /** Every flow sits in one class of positive weight, so each comes out as it went in. */
  lemma {:induction false} TaggedFlowsInOrder(bs: seq<seq<Packet>>)
    requires |bs| == 3
    requires forall j, p :: 0 <= j < 3 && p in bs[j] ==> p.flow == j + 1 && p.cls == if j == 1 then 7 else 0
    ensures var s := EnqueueEach(New(WEIGHTS), bs);
      Filter(ReadSchedule(s.queues, s.weights), FlowIs(1)) == bs[0] &&
      Filter(ReadSchedule(s.queues, s.weights), FlowIs(2)) == bs[1] &&
      Filter(ReadSchedule(s.queues, s.weights), FlowIs(3)) == bs[2]
  {
    FlowOfBatch(WEIGHTS, bs, 0, 1, 0);
    FlowOfBatch(WEIGHTS, bs, 1, 2, 7);
    FlowOfBatch(WEIGHTS, bs, 2, 3, 0);
  }

  /**
   `test_flow_order`: the draining traversal restricted to flow 1, and the
   read traversal restricted to flows 2 and 3, give back each flow's packets
   in order; the two traversals yield the same sequence.
   The batches are a parameter pinned by the `requires` so that the literal
   data is unfolded only in the lemma that describes it.
   */
  lemma {:induction false} FlowOrderScenario(bs: seq<seq<Packet>>)
    requires bs == FlowBatches()
    ensures |bs| == 3
    ensures var s := EnqueueEach(New(WEIGHTS), bs);
      var read := ReadSchedule(s.queues, s.weights);
      var drained := DrainFrom(s.queues, s.weights).out;
      Filter(drained, FlowIs(1)) == bs[0] &&
      Filter(read, FlowIs(2)) == bs[1] &&
      Filter(read, FlowIs(3)) == bs[2] &&
      read == drained
  {
    var s := EnqueueEach(New(WEIGHTS), bs);
    FlowBatchesTagged(bs);
    TaggedFlowsInOrder(bs);
    ModesAgree(s.queues, s.weights);
  }

  /** `(0..5).map(|flow| Packet::new(0, cls, flow))`. */
  function FiveOf(cls: Class): (b: seq<Packet>)
    ensures |b| == 5 && forall p :: p in b ==> p.cls == cls
  {
    seq(5, f requires 0 <= f < 5 => Packet(cls, f, 0))
  }

  /** Five packets in each of classes 0, 1 and 2, one batch per class. */
  function WeightingBatches(): seq<seq<Packet>>
  {
    [FiveOf(0), FiveOf(1), FiveOf(2)]
  }

  /**
   Batch `j` of the weighting test holds five packets, all of class `j`.
   The batches are a parameter pinned by the `requires` so that the literal
   data is unfolded only in the lemma that describes it.
   */
  lemma {:induction false} WeightingBatchesTagged(bs: seq<seq<Packet>>)
    requires bs == WeightingBatches()
    ensures |bs| == 3
    ensures forall j :: 0 <= j < 3 ==> |bs[j]| == 5
    ensures forall j, p :: 0 <= j < 3 && p in bs[j] ==> p.cls == j
  {
  }

  /** After enqueuing batches of one class each, queue `c` holds exactly batch `c`. */
  lemma {:induction false} ClassBatchesQueued(bs: seq<seq<Packet>>, c: nat)
    requires |bs| == 3 && c < 3
    requires forall j, p :: 0 <= j < 3 && p in bs[j] ==> p.cls == j
    ensures var s := EnqueueEach(New(WEIGHTS), bs);
      s.weights == WEIGHTS && Routed(s.queues) && s.queues[c] == bs[c]
  {
    EnqueueEachIsConcat(New(WEIGHTS), bs);
    EnqueueRouted(New(WEIGHTS), Concat(bs));
    FilterPicksOne(bs, ClassIs(c), c);
  }

  /** The traversal of a routed scheduler whose first three queues hold at least their quotas. */
  lemma {:induction false} FullFirstQueues(qs: seq<seq<Packet>>, w: seq<nat>)
    requires |w| == |qs| == CLASSES && Routed(qs)
    requires w[0] == 2 && w[1] == 5 && w[2] == 1
    requires forall c :: 0 <= c < 3 ==> w[c] <= |qs[c]|
    ensures var read := ReadCollect(ReadStart(qs, w));
      |read| >= 8 &&
      (forall i :: 0 <= i < 2 ==> read[i].cls == 0) &&
      (forall i :: 2 <= i < 7 ==> read[i].cls == 1) &&
      read[7].cls == 2
  {
    IterYieldsSchedule(qs, w);
    var read := ReadSchedule(qs, w);
    assert w[..0] == [] && w[..1] == [2] && w[..2] == [2, 5];
    assert [2][..0] == [] && [2, 5][..1] == [2];
    assert Sum(w[..1]) == 2 && Sum(w[..2]) == 7;
    FirstRoundLayout(qs, w, 2, 0);
    forall i | 0 <= i < 2
      ensures i < |read| && read[i].cls == 0
    {
      FirstRoundLayout(qs, w, 0, i);
    }
    forall i | 2 <= i < 7
      ensures i < |read| && read[i].cls == 1
    {
      FirstRoundLayout(qs, w, 1, i - 2);
    }
  }

  /** Three batches of five, one per class 0..2, enqueued on `Scheduler::new(WEIGHTS)`. */
  lemma {:induction false} ClassBatchesFirstRound(bs: seq<seq<Packet>>)
    requires |bs| == 3
    requires forall j :: 0 <= j < 3 ==> |bs[j]| == 5
    requires forall j, p :: 0 <= j < 3 && p in bs[j] ==> p.cls == j
    ensures var s := EnqueueEach(New(WEIGHTS), bs);
      var read := ReadCollect(ReadStart(s.queues, s.weights));
      |read| >= 8 &&
      (forall i :: 0 <= i < 2 ==> read[i].cls == 0) &&
      (forall i :: 2 <= i < 7 ==> read[i].cls == 1) &&
      read[7].cls == 2
  {
    var s := EnqueueEach(New(WEIGHTS), bs);
    ClassBatchesQueued(bs, 0);
    ClassBatchesQueued(bs, 1);
    ClassBatchesQueued(bs, 2);
    FullFirstQueues(s.queues, s.weights);
  }

  /**
   `test_weighting`: the first two packets handed out are of class 0, the
   next five of class 1, and the one after them of class 2.
   The batches are a parameter pinned by the `requires` so that the literal
   data is unfolded only in the lemma that describes it.
   */
  lemma {:induction false} WeightingScenario(bs: seq<seq<Packet>>)
    requires bs == WeightingBatches()
    ensures var s := EnqueueEach(New(WEIGHTS), bs);
      var read := ReadCollect(ReadStart(s.queues, s.weights));
      |read| >= 8 &&
      (forall i :: 0 <= i < 2 ==> read[i].cls == 0) &&
      (forall i :: 2 <= i < 7 ==> read[i].cls == 1) &&
      read[7].cls == 2
  {
    WeightingBatchesTagged(bs);
    ClassBatchesFirstRound(bs);
  }

  /** A packet of class `c` on flow 0 with payload 0, as `test_class_order` builds them. */
  function Plain(c: Class): Packet
  {
    Packet(c, 0, 0)
  }

  function InputOrder(): seq<Packet>
  {
    [Plain(3), Plain(0), Plain(5), Plain(2), Plain(7), Plain(4), Plain(1), Plain(6)]
  }

  /** `Plain(0), Plain(1), ..., Plain(7)`. */
  function DesiredOrder(): seq<Packet>
  {
    seq(CLASSES, c requires 0 <= c < CLASSES => Plain(c))
  }

  function ScrambledOrder(): seq<Packet>
  {
    [Plain(7), Plain(3), Plain(2), Plain(0), Plain(4), Plain(1), Plain(6), Plain(5)]
  }

  /** Where the packet of each class sits in `InputOrder()`. */
  const INPUT_POSITION: seq<nat> := [1, 6, 3, 0, 5, 2, 7, 4]

  /**
   `InputOrder()` holds `Plain(c)` at position `INPUT_POSITION[c]` and
   nothing else. The input is a parameter pinned by the `requires` so that
   the literal data is unfolded only in the lemma that describes it.
   */
  lemma {:induction false} InputOrderPositions(input: seq<Packet>)
    requires input == InputOrder()
    ensures forall c :: 0 <= c < CLASSES ==> INPUT_POSITION[c] < |input| && input[INPUT_POSITION[c]] == Plain(c)
    ensures forall j :: 0 <= j < |input| ==> INPUT_POSITION[input[j].cls] == j
  {
  }

  /** `Scheduler::default()` with one packet per class enqueued: one packet per queue, in its own class. */
  lemma {:induction false} ClassOrderQueues(input: seq<Packet>)
    requires forall c :: 0 <= c < CLASSES ==> INPUT_POSITION[c] < |input| && input[INPUT_POSITION[c]] == Plain(c)
    requires forall j :: 0 <= j < |input| ==> INPUT_POSITION[input[j].cls] == j
    ensures var s := Enqueue(Default(), input);
      Valid(s) && s.weights == [1, 1, 1, 1, 1, 1, 1, 1] &&
      forall c :: 0 <= c < CLASSES ==> s.queues[c] == [Plain(c)]
  {
    var s := Enqueue(Default(), input);
    forall c | 0 <= c < CLASSES
      ensures s.queues[c] == [Plain(c)]
    {
      FilterUnique(input, ClassIs(c), INPUT_POSITION[c]);
    }
  }

  /** One packet in each queue and every weight positive: one round, by ascending class. */
  lemma {:induction false} OnePerQueueInClassOrder(qs: seq<seq<Packet>>, w: seq<nat>)
    requires |w| == |qs|
    requires forall c :: 0 <= c < |qs| ==> |qs[c]| == 1 && w[c] >= 1
    ensures ReadCollect(ReadStart(qs, w)) == seq(|qs|, c requires 0 <= c < |qs| => qs[c][0])
  {
    IterYieldsSchedule(qs, w);
    OneRoundSuffices(qs, w);
    ConcatSingletons(qs);
  }

  /** A scheduler holding `Plain(c)` alone in every queue `c`, all weights 1, hands them out by class. */
  lemma {:induction false} PlainPerQueue(s: Scheduler)
    requires Valid(s) && s.weights == [1, 1, 1, 1, 1, 1, 1, 1]
    requires forall c :: 0 <= c < CLASSES ==> s.queues[c] == [Plain(c)]
    ensures ReadCollect(ReadStart(s.queues, s.weights)) == DesiredOrder()
    ensures ReadCollect(ReadStart(s.queues, s.weights)) != ScrambledOrder()
  {
    OnePerQueueInClassOrder(s.queues, s.weights);
    assert ReadCollect(ReadStart(s.queues, s.weights))[0] == Plain(0) != ScrambledOrder()[0];
  }

  /**
   `test_class_order`: with equal weights, the read traversal hands out the
   packets by ascending class whatever order they were enqueued in, and so
   not in the scrambled order. The input is pinned as in `InputOrderPositions`.
   */
  lemma {:induction false} ClassOrderScenario(input: seq<Packet>)
    requires input == InputOrder()
    ensures var s := Enqueue(Default(), input);
      var read := ReadCollect(ReadStart(s.queues, s.weights));
      read == DesiredOrder() && read != ScrambledOrder()
  {
    InputOrderPositions(input);
    ClassOrderQueues(input);
    PlainPerQueue(Enqueue(Default(), input));
  }
}
