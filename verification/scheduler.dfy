/**
 The scheduler's state (eight FIFO queues and an eight-entry weight table),
 its two constructors and `enqueue`.
 */
module Scheduling {
  import opened Packets
  import opened Seqs

  /** `queues[c]` holds the packets of class `c` front to back; `weights[c]` is its per-round quota. */
  datatype Scheduler = Scheduler(queues: seq<seq<Packet>>, weights: seq<nat>)

  /** The fixed-size arrays of the source: one queue and one weight per class. */
  predicate Valid(s: Scheduler)
  {
    |s.queues| == CLASSES && |s.weights| == CLASSES
  }

  /** Every queued packet sits in the queue of its own class. */
  predicate Routed(qs: seq<seq<Packet>>)
  {
    forall c, i :: 0 <= c < |qs| && 0 <= i < |qs[c]| ==> qs[c][i].cls == c
  }

  /** `Scheduler::new(weights)`: the weights verbatim, every queue empty. */
  function New(weights: seq<nat>): (s: Scheduler)
    requires |weights| == CLASSES
    ensures Valid(s) && Routed(s.queues)
    ensures s.weights == weights
    ensures forall c :: 0 <= c < CLASSES ==> s.queues[c] == []
  {
    Scheduler(seq(CLASSES, _ => []), weights)
  }

  /** `Scheduler::default()`: equal-weight round robin. */
  function Default(): (s: Scheduler)
    ensures s == New([1, 1, 1, 1, 1, 1, 1, 1])
    ensures Valid(s) && forall c :: 0 <= c < CLASSES ==> s.weights[c] == 1 && s.queues[c] == []
  {
    Scheduler(seq(CLASSES, _ => []), seq(CLASSES, _ => 1))
  }

  /** One `push_back` onto the queue the packet's class selects; nothing else changes. */
  function Push(s: Scheduler, p: Packet): (t: Scheduler)
    requires Valid(s)
    ensures Valid(t) && t.weights == s.weights
    ensures t.queues[p.cls] == s.queues[p.cls] + [p]
    ensures forall c :: 0 <= c < CLASSES && c != p.cls ==> t.queues[c] == s.queues[c]
  {
    s.(queues := s.queues[p.cls := s.queues[p.cls] + [p]])
  }

  /**
   `enqueue(packets)`: every queue gets the packets of its class appended,
   in input order; weights and other queues do not change.
   */
  function Enqueue(s: Scheduler, packets: seq<Packet>): (t: Scheduler)
    requires Valid(s)
    ensures Valid(t) && t.weights == s.weights
    ensures forall c :: 0 <= c < CLASSES ==> t.queues[c] == s.queues[c] + Filter(packets, ClassIs(c))
    decreases |packets|
  {
    if |packets| == 0 then s
    else
      var s' := Push(s, packets[0]);
      var t := Enqueue(s', packets[1..]);
      assert forall c :: 0 <= c < CLASSES ==> t.queues[c] == s.queues[c] + Filter(packets, ClassIs(c)) by {
        forall c | 0 <= c < CLASSES
          ensures t.queues[c] == s.queues[c] + Filter(packets, ClassIs(c))
        {
          assert t.queues[c] == s'.queues[c] + Filter(packets[1..], ClassIs(c));
          if packets[0].cls == c {
            assert s'.queues[c] == s.queues[c] + [packets[0]];
            assert Filter(packets, ClassIs(c)) == [packets[0]] + Filter(packets[1..], ClassIs(c));
          } else {
            assert s'.queues[c] == s.queues[c];
          }
        }
      }
      t
  }

  /** Enqueuing keeps every packet in the queue of its own class. */
  lemma {:induction false} EnqueueRouted(s: Scheduler, packets: seq<Packet>)
    requires Valid(s) && Routed(s.queues)
    ensures Routed(Enqueue(s, packets).queues)
  {
    var t := Enqueue(s, packets);
    forall c, i | 0 <= c < |t.queues| && 0 <= i < |t.queues[c]|
      ensures t.queues[c][i].cls == c
    {
      FilterMembers(packets, ClassIs(c));
      if i >= |s.queues[c]| {
        assert t.queues[c][i] in Filter(packets, ClassIs(c));
      }
    }
  }

  /** Enqueuing two batches is enqueuing their concatenation. */
  lemma {:induction false} EnqueueAppend(s: Scheduler, a: seq<Packet>, b: seq<Packet>)
    requires Valid(s)
    ensures Enqueue(Enqueue(s, a), b) == Enqueue(s, a + b)
  {
    var t1 := Enqueue(Enqueue(s, a), b);
    var t2 := Enqueue(s, a + b);
    forall c | 0 <= c < CLASSES
      ensures t1.queues[c] == t2.queues[c]
    {
      FilterAppend(a, b, ClassIs(c));
    }
  }

  /** A queue whose class occurs nowhere in the batch is left exactly as it was. */
  lemma {:induction false} EnqueueUntouched(s: Scheduler, packets: seq<Packet>, c: Class)
    requires Valid(s)
    requires forall p :: p in packets ==> p.cls != c
    ensures Enqueue(s, packets).queues[c] == s.queues[c]
  {
    FilterEmpty(packets, ClassIs(c));
  }

  /** Several `enqueue` calls in a row, one batch each. */
  function EnqueueEach(s: Scheduler, batches: seq<seq<Packet>>): (t: Scheduler)
    requires Valid(s)
    ensures Valid(t)
    decreases |batches|
  {
    if |batches| == 0 then s else EnqueueEach(Enqueue(s, batches[0]), batches[1..])
  }

  /** Enqueuing batch after batch is enqueuing them all at once. */
  lemma {:induction false} EnqueueEachIsConcat(s: Scheduler, batches: seq<seq<Packet>>)
    requires Valid(s)
    ensures EnqueueEach(s, batches) == Enqueue(s, Concat(batches))
    decreases |batches|
  {
    if |batches| > 0 {
      EnqueueEachIsConcat(Enqueue(s, batches[0]), batches[1..]);
      EnqueueAppend(s, batches[0], Concat(batches[1..]));
    }
  }
}
