/**
 The read-only and the pull-from-front traversals hand out the same packets
 in the same order, and what that order promises: every packet of a
 positive-weight queue exactly once, nothing of a zero-weight queue, and each
 class in its queue's FIFO order.
 */
module Equivalence {
  import opened Words
  import opened Packets
  import opened Seqs
  import opened Scheduling
  import opened ReadOrder
  import opened DrainOrder

  /** The queues a traversal serves: those of positive weight, whole; the others count as empty. */
  function Serviced(qs: seq<seq<Packet>>, w: seq<nat>): (ss: seq<seq<Packet>>)
    requires |w| == |qs|
    ensures |ss| == |qs|
  {
    seq(|qs|, c requires 0 <= c < |qs| => if w[c] > 0 then qs[c] else [])
  }

  /** Popping a queue's quota off the part of it not yet read yields round `r`'s window. */
  lemma {:induction false} PopUnvisited(q: seq<Packet>, k: nat, r: nat)
    ensures PopUpTo(q[Visited(q, k, r)..], k) == (Window(q, k, r), q[Visited(q, k, r + 1)..])
  {
  }

  /**
   Popping every queue's quota off the part not yet read yields exactly round
   `r`'s windows, and leaves exactly the part round `r + 1` starts from.
   */
  lemma {:induction false} UnvisitedMatchesDrain(qs: seq<seq<Packet>>, w: seq<nat>, r: nat)
    requires |w| == |qs|
    ensures Fronts(Unvisited(qs, w, r), w) == Windows(qs, w, r)
    ensures Backs(Unvisited(qs, w, r), w) == Unvisited(qs, w, r + 1)
  {
    var us := Unvisited(qs, w, r);
    forall c | 0 <= c < |qs|
      ensures Fronts(us, w)[c] == Windows(qs, w, r)[c]
      ensures Backs(us, w)[c] == Unvisited(qs, w, r + 1)[c]
    {
      PopUnvisited(qs[c], w[c], r);
    }
  }

  /** From any round on, the read traversal and the drain of what it has not read agree. */
  lemma {:induction false} ReadEqualsDrain(qs: seq<seq<Packet>>, w: seq<nat>, r: nat)
    requires |w| == |qs|
    ensures ReadFrom(qs, w, r) == DrainFrom(Unvisited(qs, w, r), w).out
    decreases |Concat(Unvisited(qs, w, r))|
  {
    var us := Unvisited(qs, w, r);
    UnvisitedMatchesDrain(qs, w, r);
    assert DrainRound(us, w) == (Round(qs, w, r), Unvisited(qs, w, r + 1));
    if Round(qs, w, r) != [] {
      RoundAdvances(qs, w, r);
      ReadEqualsDrain(qs, w, r + 1);
      ReadFromUnfold(qs, w, r);
      DrainFromUnfold(us, w);
    }
  }

  /**
   `iter`, `iter_mut` and `into_iter` all yield the same sequence: the
   position-window schedule is the pop-front schedule.
   */
  lemma {:induction false} ModesAgree(qs: seq<seq<Packet>>, w: seq<nat>)
    requires |w| == |qs|
    ensures ReadSchedule(qs, w) == DrainFrom(qs, w).out
    ensures ReadCollect(ReadStart(qs, w)) == ReadSchedule(qs, w)
    ensures PullCollect(PullStart(qs, w)).out == ReadSchedule(qs, w)
  {
    NothingVisitedYet(qs, w);
    ReadEqualsDrain(qs, w, 0);
    IterYieldsSchedule(qs, w);
    PullCollectIsDrain(PullStart(qs, w));
  }

  /** Every queue is what the drain serves of it followed by what the drain leaves of it. */
  lemma {:induction false} ServicedThenLeftover(qs: seq<seq<Packet>>, w: seq<nat>)
    requires |w| == |qs|
    ensures forall c :: 0 <= c < |qs| ==> qs[c] == Serviced(qs, w)[c] + DrainFrom(qs, w).leftover[c]
  {
    var d, ss := DrainFrom(qs, w), Serviced(qs, w);
    DrainFromResult(qs, w);
    forall c | 0 <= c < |qs|
      ensures qs[c] == ss[c] + d.leftover[c]
    {
      if w[c] == 0 {
        assert ss[c] == [];
      } else {
        assert d.leftover[c] == [];
      }
    }
  }

  /** A drain hands out exactly the packets of the positive-weight queues. */
  lemma {:induction false} DrainIsPermutation(qs: seq<seq<Packet>>, w: seq<nat>)
    requires |w| == |qs|
    ensures multiset(DrainFrom(qs, w).out) == multiset(Concat(Serviced(qs, w)))
  {
    var d, ss := DrainFrom(qs, w), Serviced(qs, w);
    DrainFromResult(qs, w);
    ServicedThenLeftover(qs, w);
    ConcatPointwise(qs, ss, d.leftover);
    MultisetCancel(multiset(d.out), multiset(Concat(ss)), multiset(Concat(d.leftover)));
  }

  /**
   The schedule is a permutation of the positive-weight queues laid end to
   end, so its length is the sum of their lengths.
   */
  lemma {:induction false} ScheduleIsPermutation(qs: seq<seq<Packet>>, w: seq<nat>)
    requires |w| == |qs|
    ensures multiset(ReadSchedule(qs, w)) == multiset(Concat(Serviced(qs, w)))
    ensures |ReadSchedule(qs, w)| == |Concat(Serviced(qs, w))|
  {
    ModesAgree(qs, w);
    DrainIsPermutation(qs, w);
    assert |multiset(ReadSchedule(qs, w))| == |multiset(Concat(Serviced(qs, w)))|;
  }

  /** Every scheduled packet comes from a queue of positive weight. */
  lemma {:induction false} ScheduleMembers(qs: seq<seq<Packet>>, w: seq<nat>, p: Packet)
    requires |w| == |qs| && p in ReadSchedule(qs, w)
    ensures exists c :: 0 <= c < |qs| && w[c] > 0 && p in qs[c]
  {
    ScheduleIsPermutation(qs, w);
    assert p in multiset(Concat(Serviced(qs, w)));
    ConcatMember(Serviced(qs, w), p);
    var c :| 0 <= c < |qs| && p in Serviced(qs, w)[c];
    assert w[c] > 0 && p in qs[c];
  }

  /** With every packet in its own class's queue, no class of weight 0 ever appears in a traversal. */
  lemma {:induction false} ZeroWeightStarves(qs: seq<seq<Packet>>, w: seq<nat>)
    requires |w| == |qs| && Routed(qs)
    ensures forall p :: p in ReadSchedule(qs, w) ==> p.cls < |qs| && w[p.cls] > 0
  {
    forall p | p in ReadSchedule(qs, w)
      ensures p.cls < |qs| && w[p.cls] > 0
    {
      ScheduleMembers(qs, w, p);
      var c :| 0 <= c < |qs| && w[c] > 0 && p in qs[c];
      var i :| 0 <= i < |qs[c]| && qs[c][i] == p;
    }
  }

  /** Packets of a routed queue's slice all belong to that queue's class. */
  lemma {:induction false} SliceRouted(qs: seq<seq<Packet>>, c: nat, lo: nat, hi: nat)
    requires Routed(qs) && c < |qs| && lo <= hi <= |qs[c]|
    ensures forall p :: p in qs[c][lo..hi] ==> p.cls == c
  {
    forall p | p in qs[c][lo..hi]
      ensures p.cls == c
    {
      var i :| 0 <= i < hi - lo && qs[c][lo..hi][i] == p;
      assert p == qs[c][lo + i];
    }
  }

  /** Popping keeps every remaining packet in the queue of its own class. */
  lemma {:induction false} BacksRouted(qs: seq<seq<Packet>>, w: seq<nat>)
    requires |w| == |qs| && Routed(qs)
    ensures Routed(Backs(qs, w))
  {
    var bs: seq<seq<Packet>> := Backs(qs, w);
    forall c: nat, i: nat | c < |bs| && i < |bs[c]|
      ensures bs[c][i].cls == c
    {
      PopUpToSlices(qs[c], w[c]);
      SliceRouted(qs, c, Min(w[c], |qs[c]|), |qs[c]|);
      assert bs[c][i] in qs[c][Min(w[c], |qs[c]|)..|qs[c]|];
    }
  }

  /** Restricted to one class, a refill is exactly that class's share of it. */
  lemma {:induction false} RoundClassFilter(qs: seq<seq<Packet>>, w: seq<nat>, c: nat)
    requires |w| == |qs| && Routed(qs) && c < |qs|
    ensures Filter(DrainRound(qs, w).0, ClassIs(c)) == Fronts(qs, w)[c]
  {
    var fs := Fronts(qs, w);
    var filtered := seq(|fs|, i requires 0 <= i < |fs| => Filter(fs[i], ClassIs(c)));
    FilterConcat(fs, ClassIs(c));
    forall i | 0 <= i < |fs|
      ensures filtered[i] == if i == c then fs[c] else []
    {
      PopUpToSlices(qs[i], w[i]);
      SliceRouted(qs, i, 0, Min(w[i], |qs[i]|));
      assert fs[i] == qs[i][0..Min(w[i], |qs[i]|)];
      if i == c {
        FilterKeepsAll(fs[i], ClassIs(c));
      } else {
        FilterEmpty(fs[i], ClassIs(c));
      }
    }
    ConcatSingle(filtered, c);
  }

  /** Restricted to one class, a drain yields that class's queue in order, or nothing when its weight is 0. */
  lemma {:induction false} DrainClassOrder(qs: seq<seq<Packet>>, w: seq<nat>, c: nat)
    requires |w| == |qs| && Routed(qs) && c < |qs|
    ensures Filter(DrainFrom(qs, w).out, ClassIs(c)) == Serviced(qs, w)[c]
    decreases |Concat(qs)|
  {
    var (taken, rest) := DrainRound(qs, w);
    PopUpToSlices(qs[c], w[c]);
    if taken == [] {
      DrainRoundEmpty(qs, w);
    } else {
      RoundClassFilter(qs, w, c);
      BacksRouted(qs, w);
      DrainClassOrder(rest, w, c);
      DrainFromUnfold(qs, w);
      FilterAppend(taken, DrainFrom(rest, w).out, ClassIs(c));
    }
  }

  /**
   Per-class FIFO: restricted to one class, every traversal yields that
   class's queue in order when its weight is positive, and nothing otherwise.
   */
  lemma {:induction false} ClassFifo(qs: seq<seq<Packet>>, w: seq<nat>, c: nat)
    requires |w| == |qs| && Routed(qs) && c < |qs|
    ensures Filter(ReadSchedule(qs, w), ClassIs(c)) == if w[c] > 0 then qs[c] else []
  {
    ModesAgree(qs, w);
    DrainClassOrder(qs, w, c);
  }

  /**
   Once a pull traversal answers `None`, every positive-weight queue is used
   up and every zero-weight queue is exactly as it was.
   */
  lemma {:induction false} PullEndsExhausted(qs: seq<seq<Packet>>, w: seq<nat>)
    requires |w| == |qs|
    ensures |PullCollect(PullStart(qs, w)).leftover| == |qs|
    ensures forall c :: 0 <= c < |qs| ==>
      PullCollect(PullStart(qs, w)).leftover[c] == if w[c] == 0 then qs[c] else []
  {
    PullCollectIsDrain(PullStart(qs, w));
    DrainFromResult(qs, w);
  }

  /**
   Per-flow order on a freshly built scheduler: when every packet of flow `f`
   has class `c` and `c` has positive weight, the traversal restricted to the
   flow is the flow's packets in the order they were enqueued.
   */
  lemma {:induction false} FlowOrder(w: seq<nat>, packets: seq<Packet>, f: u16, c: Class)
    requires |w| == CLASSES && w[c] > 0
    requires forall p :: p in packets && p.flow == f ==> p.cls == c
    ensures var s := Enqueue(New(w), packets);
      Filter(ReadSchedule(s.queues, s.weights), FlowIs(f)) == Filter(packets, FlowIs(f))
  {
    var s := Enqueue(New(w), packets);
    var schedule := ReadSchedule(s.queues, s.weights);
    EnqueueRouted(New(w), packets);
    forall p | p in schedule && FlowIs(f)(p)
      ensures ClassIs(c)(p)
    {
      ScheduleMembers(s.queues, s.weights, p);
      var k :| 0 <= k < CLASSES && w[k] > 0 && p in s.queues[k];
      assert s.queues[k] == Filter(packets, ClassIs(k));
      FilterMembers(packets, ClassIs(k));
    }
    FilterRefine(schedule, ClassIs(c), FlowIs(f));
    ClassFifo(s.queues, s.weights, c);
    assert Filter(schedule, ClassIs(c)) == Filter(packets, ClassIs(c));
    FilterRefine(packets, ClassIs(c), FlowIs(f));
  }

  /**
   Batch `i` is a whole flow `f` of one class `k` of positive weight, and no
   other batch carries `f`: after enqueuing the batches one by one on a fresh
   scheduler, the traversal restricted to `f` is batch `i`.
   */
  lemma {:induction false} FlowOfBatch(w: seq<nat>, batches: seq<seq<Packet>>, i: nat, f: u16, k: Class)
    requires |w| == CLASSES && w[k] > 0 && i < |batches|
    requires forall p :: p in batches[i] ==> p.flow == f && p.cls == k
    requires forall j, p :: 0 <= j < |batches| && j != i && p in batches[j] ==> p.flow != f
    ensures var s := EnqueueEach(New(w), batches);
      Filter(ReadSchedule(s.queues, s.weights), FlowIs(f)) == batches[i]
  {
    var packets := Concat(batches);
    EnqueueEachIsConcat(New(w), batches);
    forall p | p in packets && p.flow == f
      ensures p.cls == k
    {
      ConcatMember(batches, p);
    }
    FlowOrder(w, packets, f, k);
    FilterPicksOne(batches, FlowIs(f), i);
  }
}
