/**
 The pull-from-front traversals `Scheduler::iter_mut` and
 `Scheduler::into_iter`: whenever their buffer is empty they take, class by
 class, up to `w[c]` packets off the front of each queue into the buffer,
 then hand the buffer out one packet at a time. Both consume the queues in
 the same way (`IterMut::next` on a per-queue cursor, `pop_front` on the
 owned queue), so one state machine models the order of both.
 */
module DrainOrder {
  import opened Words
  import opened Packets
  import opened Seqs

  /**
   `repeat_with(|| queue.pop_front()).take(n).flatten()`: up to `n` packets
   off the front of `q`, and what remains of it.
   */
  function PopUpTo(q: seq<Packet>, n: nat): (r: (seq<Packet>, seq<Packet>))
    ensures r.0 + r.1 == q
    ensures |r.0| == Min(n, |q|)
    decreases n
  {
    if n == 0 then ([], q)
    else if q == [] then ([], [])
    else
      var (taken, rest) := PopUpTo(q[1..], n - 1);
      ([q[0]] + taken, rest)
  }

  /** Popping up to `n` packets splits the queue at position `min(n, |q|)`. */
  lemma {:induction false} PopUpToSlices(q: seq<Packet>, n: nat)
    ensures PopUpTo(q, n).0 == q[..Min(n, |q|)]
    ensures PopUpTo(q, n).1 == q[Min(n, |q|)..]
  {
    var (taken, rest) := PopUpTo(q, n);
    assert q[..Min(n, |q|)] == (taken + rest)[..|taken|];
  }

  /** What each queue contributes to one refill of the buffer. */
  function Fronts(qs: seq<seq<Packet>>, w: seq<nat>): (fs: seq<seq<Packet>>)
    requires |w| == |qs|
    ensures |fs| == |qs|
  {
    seq(|qs|, c requires 0 <= c < |qs| => PopUpTo(qs[c], w[c]).0)
  }

  /** What each queue holds after one refill of the buffer. */
  function Backs(qs: seq<seq<Packet>>, w: seq<nat>): (bs: seq<seq<Packet>>)
    requires |w| == |qs|
    ensures |bs| == |qs|
  {
    seq(|qs|, c requires 0 <= c < |qs| => PopUpTo(qs[c], w[c]).1)
  }

  /**
   One refill: the packets moved into the buffer, in class order, and the
   queues left behind. Each queue loses exactly its quota from its front, so
   the packets still queued shrink by what was taken.
   */
  function DrainRound(qs: seq<seq<Packet>>, w: seq<nat>): (r: (seq<Packet>, seq<seq<Packet>>))
    requires |w| == |qs|
    ensures |r.1| == |qs|
    ensures forall c :: 0 <= c < |qs| ==> r.1[c] == qs[c][Min(w[c], |qs[c]|)..]
    ensures |Concat(qs)| == |r.0| + |Concat(r.1)|
  {
    ConcatPointwiseLength(qs, Fronts(qs, w), Backs(qs, w));
    (Concat(Fronts(qs, w)), Backs(qs, w))
  }

  /** A refill loses and creates no packet. */
  lemma {:induction false} DrainRoundConserves(qs: seq<seq<Packet>>, w: seq<nat>)
    requires |w| == |qs|
    ensures multiset(Concat(qs)) == multiset(DrainRound(qs, w).0) + multiset(Concat(DrainRound(qs, w).1))
  {
    ConcatPointwise(qs, Fronts(qs, w), Backs(qs, w));
  }

  /** A refill moves nothing exactly when every positive-weight queue is empty. */
  lemma {:induction false} DrainRoundEmpty(qs: seq<seq<Packet>>, w: seq<nat>)
    requires |w| == |qs|
    ensures DrainRound(qs, w).0 == [] <==> forall c :: 0 <= c < |qs| && w[c] > 0 ==> qs[c] == []
  {
    ConcatEmpty(Fronts(qs, w));
    assert forall c :: 0 <= c < |qs| ==> |Fronts(qs, w)[c]| == Min(w[c], |qs[c]|);
  }

  /** The outcome of running a draining traversal to its end. */
  datatype Drained = Drained(out: seq<Packet>, leftover: seq<seq<Packet>>)

  /**
   Refill rounds until one moves nothing; the packets handed out and the
   queues left then, which between them hold as many packets as the queues did.
   */
  function DrainFrom(qs: seq<seq<Packet>>, w: seq<nat>): (d: Drained)
    requires |w| == |qs|
    ensures |d.leftover| == |qs|
    ensures |d.out| + |Concat(d.leftover)| == |Concat(qs)|
    decreases |Concat(qs)|
  {
    var (taken, rest) := DrainRound(qs, w);
    if taken == [] then Drained([], qs)
    else
      var d := DrainFrom(rest, w);
      Drained(taken + d.out, d.leftover)
  }

  /**
   At the end of a drain every positive-weight queue is empty, every
   zero-weight queue is exactly as it was, and the output holds exactly the
   packets that left the queues.
   */
  lemma {:induction false} DrainFromResult(qs: seq<seq<Packet>>, w: seq<nat>)
    requires |w| == |qs|
    ensures forall c :: 0 <= c < |qs| ==> DrainFrom(qs, w).leftover[c] == if w[c] == 0 then qs[c] else []
    ensures multiset(Concat(qs)) == multiset(DrainFrom(qs, w).out) + multiset(Concat(DrainFrom(qs, w).leftover))
    decreases |Concat(qs)|
  {
    var (taken, rest) := DrainRound(qs, w);
    if taken == [] {
      DrainRoundEmpty(qs, w);
    } else {
      DrainRoundConserves(qs, w);
      DrainFromResult(rest, w);
    }
  }

  /**
   State of a `SchedulerIterMut` or `SchedulerIntoIter`: the unconsumed part
   of every queue, the weights, and the buffer of the current round.
   */
  datatype PullIter = PullIter(queues: seq<seq<Packet>>, weights: seq<nat>, buffer: seq<Packet>)

  predicate PullIterValid(it: PullIter)
  {
    |it.weights| == |it.queues|
  }

  /**
   The termination measure of the iterator: the buffer plus everything left
   in the queues. It bounds what the iterator can still hand out from above;
   the packets of zero-weight queues count here but are never handed out,
   and `PullCollectConserves` accounts for them as leftovers.
   */
  function PullPending(it: PullIter): nat
  {
    |it.buffer| + |Concat(it.queues)|
  }

  /** `iter_mut()` / `into_iter()`: every queue unconsumed, empty buffer. */
  function PullStart(queues: seq<seq<Packet>>, weights: seq<nat>): (it: PullIter)
    ensures |weights| == |queues| ==> PullIterValid(it)
    ensures it.queues == queues && it.weights == weights
    ensures PullPending(it) == |Concat(queues)|
  {
    PullIter(queues, weights, [])
  }

  /**
   `next` of both pull-from-front iterators: refill the buffer with one round
   when it is empty, then pop its front.
   */
  function PullNext(it: PullIter): (res: (Option<Packet>, PullIter))
    requires PullIterValid(it)
    ensures PullIterValid(res.1) && res.1.weights == it.weights
    ensures res.0.None? <==> it.buffer == [] && DrainRound(it.queues, it.weights).0 == []
  {
    if it.buffer != [] then
      (Some(it.buffer[0]), it.(buffer := it.buffer[1..]))
    else
      var (taken, rest) := DrainRound(it.queues, it.weights);
      if taken == [] then (None, it.(queues := rest, buffer := taken))
      else (Some(taken[0]), it.(queues := rest, buffer := taken[1..]))
  }

  /**
   Every packet handed out lowers the termination measure by one; an
   answer `None` leaves the queues as they were.
   */
  lemma {:induction false} PullNextProgress(it: PullIter)
    requires PullIterValid(it)
    ensures PullNext(it).0.Some? ==> PullPending(PullNext(it).1) + 1 == PullPending(it)
    ensures PullNext(it).0.None? ==> PullNext(it).1.queues == it.queues
  {
    if it.buffer == [] && DrainRound(it.queues, it.weights).0 == [] {
      DrainRoundEmpty(it.queues, it.weights);
    }
  }

  /** Everything a consumer gets by calling `next` until the first `None`, and the queues left then. */
  function PullCollect(it: PullIter): Drained
    requires PullIterValid(it)
    decreases PullPending(it)
  {
    var (next, it') := PullNext(it);
    match next
    case None => Drained([], it'.queues)
    case Some(p) =>
      PullNextProgress(it);
      var d := PullCollect(it');
      Drained([p] + d.out, d.leftover)
  }

  lemma {:induction false} PullCollectStep(it: PullIter)
    requires PullIterValid(it) && PullNext(it).0.Some?
    ensures PullPending(PullNext(it).1) < PullPending(it)
    ensures PullCollect(it).out == [PullNext(it).0.value] + PullCollect(PullNext(it).1).out
    ensures PullCollect(it).leftover == PullCollect(PullNext(it).1).leftover
  {
    PullNextProgress(it);
  }

  /**
   Running a pull iterator to its end loses no packet: what it hands out
   and what it leaves in the queues add up to its termination measure.
   */
  lemma {:induction false} PullCollectConserves(it: PullIter)
    requires PullIterValid(it)
    ensures |PullCollect(it).out| + |Concat(PullCollect(it).leftover)| == PullPending(it)
    decreases PullPending(it)
  {
    if PullNext(it).0.Some? {
      PullCollectStep(it);
      PullNextProgress(it);
      PullCollectConserves(PullNext(it).1);
    } else {
      PullNextProgress(it);
    }
  }

  lemma {:induction false} DrainFromUnfold(qs: seq<seq<Packet>>, w: seq<nat>)
    requires |w| == |qs| && DrainRound(qs, w).0 != []
    ensures DrainFrom(qs, w).out == DrainRound(qs, w).0 + DrainFrom(DrainRound(qs, w).1, w).out
    ensures DrainFrom(qs, w).leftover == DrainFrom(DrainRound(qs, w).1, w).leftover
  {
  }

  /**
   Driving a pull iterator to its end yields its buffer followed by the
   round-by-round drain of its queues, and leaves the same queues behind.
   */
  lemma {:induction false} PullCollectIsDrain(it: PullIter)
    requires PullIterValid(it)
    ensures PullCollect(it).out == it.buffer + DrainFrom(it.queues, it.weights).out
    ensures PullCollect(it).leftover == DrainFrom(it.queues, it.weights).leftover
    decreases PullPending(it), 1
  {
    if it.buffer != [] {
      PullFromBuffer(it);
    } else {
      PullAfterRefill(it);
    }
  }

  lemma {:induction false} PullFromBuffer(it: PullIter)
    requires PullIterValid(it) && it.buffer != []
    ensures PullCollect(it).out == it.buffer + DrainFrom(it.queues, it.weights).out
    ensures PullCollect(it).leftover == DrainFrom(it.queues, it.weights).leftover
    decreases PullPending(it), 0
  {
    var it' := it.(buffer := it.buffer[1..]);
    assert PullNext(it) == (Some(it.buffer[0]), it');
    PullCollectStep(it);
    PullCollectIsDrain(it');
    HeadThenTail(it.buffer, DrainFrom(it.queues, it.weights).out);
  }

  lemma {:induction false} PullAfterRefill(it: PullIter)
    requires PullIterValid(it) && it.buffer == []
    ensures PullCollect(it).out == DrainFrom(it.queues, it.weights).out
    ensures PullCollect(it).leftover == DrainFrom(it.queues, it.weights).leftover
    decreases PullPending(it), 0
  {
    var qs, w := it.queues, it.weights;
    var round := DrainRound(qs, w);
    if round.0 == [] {
      PullNextProgress(it);
    } else {
      var it' := PullIter(round.1, w, round.0[1..]);
      assert PullNext(it) == (Some(round.0[0]), it');
      PullCollectStep(it);
      PullCollectIsDrain(it');
      DrainFromUnfold(qs, w);
      HeadThenTail(round.0, DrainFrom(round.1, w).out);
    }
  }

  /** After the first `None`, every later `next` call answers `None` as well. */
  lemma {:induction false} PullFusedAfterEnd(it: PullIter)
    requires PullIterValid(it)
    requires PullNext(it).0.None?
    ensures PullNext(PullNext(it).1).0.None?
  {
    PullNextProgress(it);
  }
}
