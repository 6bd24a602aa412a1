/**
 The read-only traversal `Scheduler::iter`: round `r` reads, class by class,
 the queue positions `[w*r, w*r + w)` of every queue without removing
 anything, and the traversal ends at the first round that reads nothing.

 Everything here is stated for any number of queues with one weight each;
 the scheduler itself always has eight.
 */
module ReadOrder {
  import opened Packets
  import opened Seqs

  /**
   The `skip` count `w * r` of round `r`, built up one round at a time so
   that the verifier's default context holds no products.
   */
  function Offset(w: nat, r: nat): nat
  {
    if r == 0 then 0 else Offset(w, r - 1) + w
  }

  lemma {:induction false} OffsetIsProduct(w: nat, r: nat)
    ensures Offset(w, r) == w * r
  {
    if r > 0 {
      OffsetIsProduct(w, r - 1);
      assert w * r == w * (r - 1) + w;
    }
  }

  lemma {:induction false} OffsetMonotone(w: nat, r: nat, r': nat)
    requires r <= r'
    ensures Offset(w, r) <= Offset(w, r')
    decreases r'
  {
    if r < r' {
      OffsetMonotone(w, r, r' - 1);
    }
  }

  /** How many positions of a queue lie before round `r`'s window. */
  function Visited(q: seq<Packet>, w: nat, r: nat): nat
  {
    if Offset(w, r) >= |q| then |q| else Offset(w, r)
  }

  /**
   What `CustomMap::next` hands out for one queue in round `r`,
   `skip(w * r).take(w)`: the slice between the positions visited before
   round `r` and before round `r + 1`.
   */
  function Window(q: seq<Packet>, w: nat, r: nat): (win: seq<Packet>)
    ensures Visited(q, w, r) <= Visited(q, w, r + 1)
    ensures win == q[Visited(q, w, r)..Visited(q, w, r + 1)]
  {
    assert Offset(w, r + 1) == Offset(w, r) + w;
    Take(Skip(q, Offset(w, r)), w)
  }

  /** The windows of all queues in round `r`, in class order. */
  function Windows(qs: seq<seq<Packet>>, w: seq<nat>, r: nat): (ws: seq<seq<Packet>>)
    requires |w| == |qs|
    ensures |ws| == |qs|
  {
    seq(|qs|, c requires 0 <= c < |qs| => Window(qs[c], w[c], r))
  }

  /** Everything round `r` yields: the windows flattened in class order. */
  function Round(qs: seq<seq<Packet>>, w: seq<nat>, r: nat): seq<Packet>
    requires |w| == |qs|
  {
    Concat(Windows(qs, w, r))
  }

  /** The part of every queue that rounds `0 .. r-1` have not read. */
  function Unvisited(qs: seq<seq<Packet>>, w: seq<nat>, r: nat): (us: seq<seq<Packet>>)
    requires |w| == |qs|
    ensures |us| == |qs|
  {
    seq(|qs|, c requires 0 <= c < |qs| => qs[c][Visited(qs[c], w[c], r)..])
  }

  /**
   A window is exactly the positions `w*r, w*r + 1, ...` that exist in the
   queue, at most `w` of them.
   */
  lemma {:induction false} WindowPositions(q: seq<Packet>, w: nat, r: nat)
    ensures |Window(q, w, r)| == if w * r >= |q| then 0 else if w <= |q| - w * r then w else |q| - w * r
    ensures forall i :: 0 <= i < |Window(q, w, r)| ==> Window(q, w, r)[i] == q[w * r + i]
  {
    OffsetIsProduct(w, r);
  }

  /** A window is empty exactly when its class has weight 0 or its queue is read to the end. */
  lemma {:induction false} WindowEmpty(q: seq<Packet>, w: nat, r: nat)
    ensures Window(q, w, r) == [] <==> w == 0 || w * r >= |q|
  {
    OffsetIsProduct(w, r);
  }

  /** A window that is empty stays empty in every later round. */
  lemma {:induction false} WindowStaysEmpty(q: seq<Packet>, w: nat, r: nat, r': nat)
    requires Window(q, w, r) == [] && r <= r'
    ensures Window(q, w, r') == []
  {
    OffsetMonotone(w, r, r');
  }

  /** Round `r` reads each queue's window; what it leaves unread is round `r + 1`'s starting point. */
  lemma {:induction false} RoundAdvances(qs: seq<seq<Packet>>, w: seq<nat>, r: nat)
    requires |w| == |qs|
    ensures forall c :: 0 <= c < |qs| ==>
      Unvisited(qs, w, r)[c] == Windows(qs, w, r)[c] + Unvisited(qs, w, r + 1)[c]
    ensures |Concat(Unvisited(qs, w, r))| == |Round(qs, w, r)| + |Concat(Unvisited(qs, w, r + 1))|
  {
    var us, ws, us' := Unvisited(qs, w, r), Windows(qs, w, r), Unvisited(qs, w, r + 1);
    forall c | 0 <= c < |qs|
      ensures us[c] == ws[c] + us'[c]
    {
      var q, k := qs[c], w[c];
      assert q[Visited(q, k, r)..] == Window(q, k, r) + q[Visited(q, k, r + 1)..];
    }
    ConcatPointwiseLength(us, ws, us');
  }

  /** Once a round reads nothing, every later round reads nothing either. */
  lemma {:induction false} EmptyRoundStaysEmpty(qs: seq<seq<Packet>>, w: seq<nat>, r: nat, r': nat)
    requires |w| == |qs|
    requires Round(qs, w, r) == [] && r <= r'
    ensures Round(qs, w, r') == []
  {
    ConcatEmpty(Windows(qs, w, r));
    forall c | 0 <= c < |qs|
      ensures Windows(qs, w, r')[c] == []
    {
      assert Windows(qs, w, r)[c] == Window(qs[c], w[c], r);
      WindowStaysEmpty(qs[c], w[c], r, r');
    }
    ConcatEmpty(Windows(qs, w, r'));
  }

  /**
   The rounds from `r` on, up to (not including) the first round that reads
   nothing. Each non-empty round reads at least one unread position, which
   bounds the recursion.
   */
  function ReadFrom(qs: seq<seq<Packet>>, w: seq<nat>, r: nat): seq<Packet>
    requires |w| == |qs|
    decreases |Concat(Unvisited(qs, w, r))|
  {
    var round := Round(qs, w, r);
    if round == [] then []
    else
      RoundAdvances(qs, w, r);
      round + ReadFrom(qs, w, r + 1)
  }

  /**
   The traversal from round `r` is empty exactly when round `r` is, and it
   reads no position twice, so it is no longer than what is still unvisited.
   */
  lemma {:induction false} ReadFromBounded(qs: seq<seq<Packet>>, w: seq<nat>, r: nat)
    requires |w| == |qs|
    ensures ReadFrom(qs, w, r) == [] <==> Round(qs, w, r) == []
    ensures |ReadFrom(qs, w, r)| <= |Concat(Unvisited(qs, w, r))|
    decreases |Concat(Unvisited(qs, w, r))|
  {
    if Round(qs, w, r) != [] {
      RoundAdvances(qs, w, r);
      ReadFromBounded(qs, w, r + 1);
    }
  }

  /** Before round 0 nothing has been visited. */
  lemma {:induction false} NothingVisitedYet(qs: seq<seq<Packet>>, w: seq<nat>)
    requires |w| == |qs|
    ensures Unvisited(qs, w, 0) == qs
  {
  }

  /** The whole read-only traversal. */
  function ReadSchedule(qs: seq<seq<Packet>>, w: seq<nat>): seq<Packet>
    requires |w| == |qs|
  {
    ReadFrom(qs, w, 0)
  }

  /** The whole traversal reads no position twice, so it is no longer than the queues together. */
  lemma {:induction false} ReadScheduleBounded(qs: seq<seq<Packet>>, w: seq<nat>)
    requires |w| == |qs|
    ensures |ReadSchedule(qs, w)| <= |Concat(qs)|
  {
    NothingVisitedYet(qs, w);
    ReadFromBounded(qs, w, 0);
  }

  /**
   Packet `k` of class `c`'s window in round `r` (queue position `w[c]*r + k`,
   by `WindowPositions`) comes right after the windows of the classes before `c`.
   */
  lemma {:induction false} RoundLayout(qs: seq<seq<Packet>>, w: seq<nat>, r: nat, c: nat, k: nat)
    requires |w| == |qs| && c < |qs|
    requires k < |Window(qs[c], w[c], r)|
    ensures |Concat(Windows(qs, w, r)[..c])| + k < |ReadFrom(qs, w, r)|
    ensures ReadFrom(qs, w, r)[|Concat(Windows(qs, w, r)[..c])| + k] == Window(qs[c], w[c], r)[k]
  {
    ConcatIndex(Windows(qs, w, r), c, k);
    assert ReadFrom(qs, w, r) == Round(qs, w, r) + ReadFrom(qs, w, r + 1);
  }

  /** When no queue holds more than its quota, the traversal is one round: the queues in class order. */
  lemma {:induction false} OneRoundSuffices(qs: seq<seq<Packet>>, w: seq<nat>)
    requires |w| == |qs|
    requires forall c :: 0 <= c < |qs| ==> |qs[c]| <= w[c]
    ensures ReadSchedule(qs, w) == Concat(qs)
  {
    forall c | 0 <= c < |qs|
      ensures Windows(qs, w, 0)[c] == qs[c] && Windows(qs, w, 1)[c] == []
    {
      assert Offset(w[c], 2) == Offset(w[c], 1) + w[c];
    }
    assert Windows(qs, w, 0) == qs;
    ConcatEmpty(Windows(qs, w, 1));
    if Round(qs, w, 0) != [] {
      ReadFromUnfold(qs, w, 0);
    }
  }

  /** Round 0 of a queue holding at least its quota reads the first `w` packets. */
  lemma {:induction false} FirstWindow(q: seq<Packet>, w: nat)
    requires w <= |q|
    ensures Window(q, w, 0) == q[..w]
  {
  }

  /**
   When the queues of classes `0 .. c-1` each hold at least their quota,
   round 0 spends exactly the sum of their weights before class `c`.
   */
  lemma {:induction false} FirstRoundOffset(qs: seq<seq<Packet>>, w: seq<nat>, c: nat)
    requires |w| == |qs| && c <= |qs|
    requires forall i :: 0 <= i < c ==> w[i] <= |qs[i]|
    ensures |Concat(Windows(qs, w, 0)[..c])| == Sum(w[..c])
  {
    if c > 0 {
      var ws := Windows(qs, w, 0);
      FirstRoundOffset(qs, w, c - 1);
      assert ws[..c] == ws[..c - 1] + [ws[c - 1]];
      ConcatAppend(ws[..c - 1], [ws[c - 1]]);
      assert Concat([ws[c - 1]]) == ws[c - 1] + Concat([]);
      WindowPositions(qs[c - 1], w[c - 1], 0);
      assert w[..c][..c - 1] == w[..c - 1];
    }
  }

  /**
   Weighting in the first round: when the queues of classes `0 .. c` each hold
   at least their quota, positions `Sum(w[..c])` up to `Sum(w[..c]) + w[c]`
   of the traversal are the first `w[c]` packets of queue `c`.
   */
  lemma {:induction false} FirstRoundLayout(qs: seq<seq<Packet>>, w: seq<nat>, c: nat, k: nat)
    requires |w| == |qs| && c < |qs| && k < w[c]
    requires forall i :: 0 <= i <= c ==> w[i] <= |qs[i]|
    ensures Sum(w[..c]) + k < |ReadSchedule(qs, w)|
    ensures ReadSchedule(qs, w)[Sum(w[..c]) + k] == qs[c][k]
  {
    assert ReadSchedule(qs, w) == ReadFrom(qs, w, 0);
    FirstRoundOffset(qs, w, c);
    FirstWindow(qs[c], w[c]);
    RoundLayout(qs, w, 0, c, k);
  }

  /**
   State of a `SchedulerIter`: the queues and weights it borrows, what is
   left of the round being handed out, and the index of the next round.
   */
  datatype ReadIter = ReadIter(queues: seq<seq<Packet>>, weights: seq<nat>, current: seq<Packet>, index: nat)

  predicate ReadIterValid(it: ReadIter)
  {
    |it.weights| == |it.queues|
  }

  /**
   The termination measure of the iterator: what is left of the current
   round plus every queue position not yet visited. It bounds what the
   iterator can still hand out from above; it is not exact, because the
   packets of a zero-weight queue count here but are never handed out.
   */
  function ReadPending(it: ReadIter): nat
    requires ReadIterValid(it)
  {
    |it.current| + |Concat(Unvisited(it.queues, it.weights, it.index))|
  }

  /** `Scheduler::iter`: no round built yet, round index 0, so every queued packet is still unvisited. */
  function ReadStart(queues: seq<seq<Packet>>, weights: seq<nat>): (it: ReadIter)
    ensures |weights| == |queues| ==> ReadIterValid(it) && ReadPending(it) == |Concat(queues)|
  {
    var it := ReadIter(queues, weights, [], 0);
    if |weights| == |queues| then
      NothingVisitedYet(queues, weights);
      it
    else it
  }

  /**
   `SchedulerIter::next`: hand out the next packet of the current round; when
   it is used up, build round `index`, advance the index and try again once.
   */
  function ReadNext(it: ReadIter): (res: (Option<Packet>, ReadIter))
    requires ReadIterValid(it)
    ensures ReadIterValid(res.1) && res.1.queues == it.queues && res.1.weights == it.weights
    ensures res.0.None? <==> it.current == [] && Round(it.queues, it.weights, it.index) == []
  {
    if it.current != [] then
      (Some(it.current[0]), it.(current := it.current[1..]))
    else
      var round := Round(it.queues, it.weights, it.index);
      if round == [] then (None, it.(current := round, index := it.index + 1))
      else (Some(round[0]), it.(current := round[1..], index := it.index + 1))
  }

  /** Every packet handed out lowers the termination measure by one. */
  lemma {:induction false} ReadNextProgress(it: ReadIter)
    requires ReadIterValid(it)
    ensures ReadNext(it).0.Some? ==> ReadPending(ReadNext(it).1) + 1 == ReadPending(it)
  {
    RoundAdvances(it.queues, it.weights, it.index);
  }

  /** Everything a consumer gets by calling `next` until the first `None`. */
  function ReadCollect(it: ReadIter): seq<Packet>
    requires ReadIterValid(it)
    decreases ReadPending(it)
  {
    var (next, it') := ReadNext(it);
    match next
    case None => []
    case Some(p) =>
      ReadNextProgress(it);
      [p] + ReadCollect(it')
  }

  /** The iterator never hands out more than its termination measure. */
  lemma {:induction false} ReadCollectBounded(it: ReadIter)
    requires ReadIterValid(it)
    ensures |ReadCollect(it)| <= ReadPending(it)
    decreases ReadPending(it)
  {
    var (next, it') := ReadNext(it);
    if next.Some? {
      ReadNextProgress(it);
      ReadCollectBounded(it');
    }
  }

  /** Driving the iterator to its end yields what is left of the current round, then the later rounds. */
  lemma {:induction false} ReadCollectIsSchedule(it: ReadIter)
    requires ReadIterValid(it)
    ensures ReadCollect(it) == it.current + ReadFrom(it.queues, it.weights, it.index)
    decreases ReadPending(it), 2
  {
    if it.current != [] {
      ReadFromCurrent(it);
    } else {
      ReadAfterNewRound(it);
    }
  }

  lemma {:induction false} ReadFromCurrent(it: ReadIter)
    requires ReadIterValid(it) && it.current != []
    ensures ReadCollect(it) == it.current + ReadFrom(it.queues, it.weights, it.index)
    decreases ReadPending(it), 0
  {
    var it' := it.(current := it.current[1..]);
    assert ReadNext(it) == (Some(it.current[0]), it');
    ReadNextProgress(it);
    ReadCollectIsSchedule(it');
    assert ReadCollect(it) == [it.current[0]] + ReadCollect(it');
    HeadThenTail(it.current, ReadFrom(it.queues, it.weights, it.index));
  }

  lemma {:induction false} ReadCollectNewRound(it: ReadIter)
    requires ReadIterValid(it) && it.current == []
    requires Round(it.queues, it.weights, it.index) != []
    ensures var round := Round(it.queues, it.weights, it.index);
      var it' := ReadIter(it.queues, it.weights, round[1..], it.index + 1);
      ReadPending(it') < ReadPending(it) && ReadCollect(it) == [round[0]] + ReadCollect(it')
  {
    ReadNextProgress(it);
  }

  lemma {:induction false} ReadFromUnfold(qs: seq<seq<Packet>>, w: seq<nat>, r: nat)
    requires |w| == |qs| && Round(qs, w, r) != []
    ensures ReadFrom(qs, w, r) == Round(qs, w, r) + ReadFrom(qs, w, r + 1)
  {
  }

  lemma {:induction false} ReadAfterNewRound(it: ReadIter)
    requires ReadIterValid(it) && it.current == []
    ensures ReadCollect(it) == ReadFrom(it.queues, it.weights, it.index)
    decreases ReadPending(it), 1
  {
    if Round(it.queues, it.weights, it.index) == [] {
      assert ReadNext(it).0.None?;
    } else {
      ReadAfterNonEmptyRound(it);
    }
  }

  /**
   Once the rest of a fresh round's iterator is known to yield the rest of
   the round and the later rounds, the iterator yields this round and the
   later rounds.
   */
  lemma {:induction false} NewRoundJoin(it: ReadIter)
    requires ReadIterValid(it) && it.current == []
    requires Round(it.queues, it.weights, it.index) != []
    requires var round := Round(it.queues, it.weights, it.index);
      ReadCollect(ReadIter(it.queues, it.weights, round[1..], it.index + 1))
        == round[1..] + ReadFrom(it.queues, it.weights, it.index + 1)
    ensures ReadCollect(it) == ReadFrom(it.queues, it.weights, it.index)
  {
    var round := Round(it.queues, it.weights, it.index);
    ReadCollectNewRound(it);
    ReadFromUnfold(it.queues, it.weights, it.index);
    HeadThenTail(round, ReadFrom(it.queues, it.weights, it.index + 1));
  }

  lemma {:induction false} ReadAfterNonEmptyRound(it: ReadIter)
    requires ReadIterValid(it) && it.current == []
    requires Round(it.queues, it.weights, it.index) != []
    ensures ReadCollect(it) == ReadFrom(it.queues, it.weights, it.index)
    decreases ReadPending(it), 0
  {
    var round := Round(it.queues, it.weights, it.index);
    var it' := ReadIter(it.queues, it.weights, round[1..], it.index + 1);
    ReadCollectNewRound(it);
    ReadCollectIsSchedule(it');
    NewRoundJoin(it);
  }

  /** `Scheduler::iter` driven to its end yields the read schedule. */
  lemma {:induction false} IterYieldsSchedule(qs: seq<seq<Packet>>, w: seq<nat>)
    requires |w| == |qs|
    ensures ReadCollect(ReadStart(qs, w)) == ReadSchedule(qs, w)
  {
    ReadCollectIsSchedule(ReadStart(qs, w));
    assert ReadStart(qs, w).current == [];
  }

  /** After the first `None`, every later `next` call answers `None` as well. */
  lemma {:induction false} ReadFusedAfterEnd(it: ReadIter)
    requires ReadIterValid(it)
    requires ReadNext(it).0.None?
    ensures ReadNext(ReadNext(it).1).0.None?
  {
    assert ReadNext(it).1 == ReadIter(it.queues, it.weights, [], it.index + 1);
    EmptyRoundStaysEmpty(it.queues, it.weights, it.index, it.index + 1);
  }
}
