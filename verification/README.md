# Weighted round-robin packet scheduler, counter and Fibonacci: a Dafny model

The main subject is the packet scheduler of the `scheduler` workspace crate.

**State.** The scheduler keeps eight FIFO queues, one per priority class 0..7, and a weight table with one `usize` per class.

**Enqueue.** `enqueue` appends each packet to the queue of its class. `Packet::new` panics on a class of 8 or more.

**Traversals.** Three traversals hand the packets out in weighted rounds. In round `r`, class `c` contributes up to `weights[c]` packets, visiting the classes in ascending order. Traversal ends at the first round that contributes nothing.

- `Scheduler::iter` (read traversal) does not consume anything. Round `r` is `skip(weights[c] * r).take(weights[c])` on every queue. It is modelled in `ReadOrder`:
  - `ReadSchedule` is the round-level schedule;
  - `ReadIter` is a step-by-step state machine of `SchedulerIter::next`.
- `iter_mut` and `into_iter` (pull traversals) take each round's packets from the queue fronts into a buffer. `into_iter` pops them off the owned queues. `iter_mut` only advances one cursor per queue and buffers `&mut Packet` references, so every packet stays in the scheduler. Both hand the buffer out one packet at a time and refill it when it is empty. They are modelled in `DrainOrder`:
  - `DrainFrom` is the round-level drain;
  - `PullIter` is the state machine of `next`. Its `queues` are the owned queues for `into_iter` and the unread rest behind each cursor for `iter_mut`.

**Equivalence.** `Equivalence` proves the traversals hand out the same sequence (`ModesAgree`). On top of that it proves:
- the schedule is a permutation of the packets in positive-weight queues;
- each class comes out in FIFO order;
- zero-weight classes never appear;
- each flow confined to one class comes out as it was enqueued.

**Test scenarios.** `Scenarios` restates the crate's four unit tests on the model and proves them.

**Smaller crates.** Two other crates contribute small functions:
- `Counter` models the demo application's `update`, `checked_increment` and `saturating_sub` on a `u64` counter;
- `Fibonacci` models `fib`, a fold over `(a, b) -> (a + b, a)` with a `u128` result;
- `Words.Add` models the `add` function the two crates share.

Rust integer widths are subset types of `int` (`u8`, `u16`, `u64`, `u128` in `Words`). The weights are `nat`.

The traversals are stated for any number of queues, provided there is one weight per queue. The scheduler itself always has eight.

**Where a traversal stops.** A traversal stops at the first round that yields nothing, not when every queue is empty. A zero-weight queue therefore keeps its packets; `PullEndsExhausted` states exactly which packets are left.

## Model

| member | source | states |
|---|---|---|
| Words.Add | rust-advanced/src/lib.rs:7-9 | `add` returns `left + right` (also `add` in rust/src/lib.rs:1-3); callers keep the sum within `u64` |
| Words.AddTwoTwo | rust-advanced/src/lib.rs:26-30 | `add(2, 2)` is 4 |
| Words.AddTwoTwoNotFortyTwo | rust/src/lib.rs:14-18 | `add(2, 2)` is not the 42 that this crate's test expects |
| Packets.NewPacket | rust-workspaces/scheduler/src/lib.rs:19-26 | construction succeeds exactly when the class is below 8, keeps payload, class and flow verbatim, and otherwise reports the offending class |
| Scheduling.New | rust-workspaces/scheduler/src/lib.rs:51-56 | eight empty queues and the given weights, unchanged |
| Scheduling.Default | rust-workspaces/scheduler/src/lib.rs:35-42 | the default scheduler is `new` with all eight weights 1 |
| Scheduling.Push | rust-workspaces/scheduler/src/lib.rs:47 | one `push_back` appends the packet to the queue of its class; the other seven queues and the weights are unchanged |
| Scheduling.Enqueue | rust-workspaces/scheduler/src/lib.rs:45-49 | every queue `c` gains exactly the packets of class `c`, in input order; the weights are unchanged |
| Scheduling.EnqueueRouted | rust-workspaces/scheduler/src/lib.rs:46-48 | after enqueuing, every queued packet sits in the queue of its own class |
| Scheduling.EnqueueAppend | rust-workspaces/scheduler/src/lib.rs:45-49 | enqueuing `a` then `b` is the same as enqueuing `a + b` |
| Scheduling.EnqueueUntouched | rust-workspaces/scheduler/src/lib.rs:45-49 | a queue whose class does not occur in the batch is left exactly as it was |
| Scheduling.EnqueueEachIsConcat | rust-workspaces/scheduler/src/tests.rs:16-18 | several `enqueue` calls in a row equal one call on the concatenated batches |
| Seqs.Skip | rust-workspaces/scheduler/src/lib.rs:123 | `skip(n)` leaves the suffix after position `n`, or nothing when the sequence is shorter |
| Seqs.Take | rust-workspaces/scheduler/src/lib.rs:123 | `take(n)` keeps the prefix up to position `n`, or everything when the sequence is shorter |
| ReadOrder.Window | rust-workspaces/scheduler/src/lib.rs:121-124 | `skip(w * r).take(w)` of a queue is the contiguous slice between the positions visited before round `r` and before round `r + 1` |
| ReadOrder.OffsetIsProduct | rust-workspaces/scheduler/src/lib.rs:123 | the skip offset of round `r` is `weights[index] * r` |
| ReadOrder.WindowPositions | rust-workspaces/scheduler/src/lib.rs:123 | a round's window has length `min(w, len - w*r)` (0 past the end), and its `i`-th packet is the queue's packet at `w*r + i` |
| ReadOrder.WindowEmpty | rust-workspaces/scheduler/src/lib.rs:123 | a window is empty exactly when the weight is 0 or the offset reaches the queue's length |
| ReadOrder.WindowStaysEmpty | rust-workspaces/scheduler/src/lib.rs:121-124 | once a queue's window is empty, it stays empty in every later round |
| ReadOrder.RoundAdvances | rust-workspaces/scheduler/src/lib.rs:145-153 | a round consumes, from each queue's unvisited part, exactly its window; the unvisited total drops by the round's length |
| ReadOrder.EmptyRoundStaysEmpty | rust-workspaces/scheduler/src/lib.rs:137-159 | once a round yields nothing, every later round yields nothing |
| ReadOrder.ReadFromBounded | rust-workspaces/scheduler/src/lib.rs:134-160 | the rounds from `r` on (each round the windows of all queues in class order, up to the first round that reads nothing) are empty exactly when round `r` is, and never longer than what is still unvisited |
| ReadOrder.NothingVisitedYet | rust-workspaces/scheduler/src/lib.rs:58-65 | before round 0 no position of any queue has been visited |
| ReadOrder.ReadScheduleBounded | rust-workspaces/scheduler/src/lib.rs:134-160 | the whole read traversal reads no position twice, so it is no longer than all queues together |
| ReadOrder.RoundLayout | rust-workspaces/scheduler/src/lib.rs:138-155 | within a round, class `c`'s window follows the windows of all lower classes, packet by packet |
| ReadOrder.OneRoundSuffices | rust-workspaces/scheduler/src/lib.rs:137-159 | when no queue is longer than its weight, the traversal is all queues concatenated in class order |
| ReadOrder.FirstRoundOffset | rust-workspaces/scheduler/src/lib.rs:145-153 | when classes `0..c-1` each hold at least their weight, round 0 hands out exactly `w[0] + … + w[c-1]` packets before class `c` |
| ReadOrder.FirstWindow | rust-workspaces/scheduler/src/lib.rs:121-124 | in round 0, a queue holding at least its weight `w` contributes its first `w` packets |
| ReadOrder.FirstRoundLayout | rust-workspaces/scheduler/src/lib.rs:121-124 | when classes `0..=c` each hold at least their weight, packet `k` of class `c` comes out at position `w[0] + … + w[c-1] + k` |
| ReadOrder.ReadStart | rust-workspaces/scheduler/src/lib.rs:58-65 | `iter()` starts with no round built and round index 0, so its termination measure counts every queued packet |
| ReadOrder.ReadNext | rust-workspaces/scheduler/src/lib.rs:137-159 | `next` answers `None` exactly when the current round is exhausted and the next round is empty; it never changes queues or weights |
| ReadOrder.ReadNextProgress | rust-workspaces/scheduler/src/lib.rs:137-159 | every packet handed out lowers the iterator's termination measure (the rest of the current round plus every unvisited queue position) by one; the measure is an upper bound on what is still to come, not its exact count, since zero-weight queues count in it |
| ReadOrder.ReadCollectBounded | rust-workspaces/scheduler/src/lib.rs:137-159 | calling `next` until `None` hands out no more packets than the termination measure |
| ReadOrder.ReadCollectIsSchedule | rust-workspaces/scheduler/src/lib.rs:134-160 | calling `next` until `None`, from any state, yields the rest of the current round and then every later round up to the first empty one |
| ReadOrder.IterYieldsSchedule | rust-workspaces/scheduler/src/lib.rs:58-65 | a fresh `iter()` run to its end yields exactly the round-by-round schedule |
| ReadOrder.ReadFusedAfterEnd | rust-workspaces/scheduler/src/lib.rs:137-159 | after the first `None`, the next call answers `None` as well |
| DrainOrder.PopUpTo | rust-workspaces/scheduler/src/lib.rs:205-209 | popping up to `n` packets takes `min(n, len)` of them off the front; what is taken plus what remains is the queue |
| DrainOrder.PopUpToSlices | rust-workspaces/scheduler/src/lib.rs:205-209 | the packets taken are the queue's prefix of length `min(n, len)`, and the rest is its suffix |
| DrainOrder.DrainRound | rust-workspaces/scheduler/src/lib.rs:200-211 | a refill leaves each queue without its first `min(weight, len)` packets; the queued total drops by the refill's size |
| DrainOrder.DrainRoundConserves | rust-workspaces/scheduler/src/lib.rs:200-211 | a refill neither loses nor creates packets: buffer plus queues is a permutation of the queues before |
| DrainOrder.DrainRoundEmpty | rust-workspaces/scheduler/src/lib.rs:200-213 | a refill moves nothing exactly when every positive-weight queue is empty |
| DrainOrder.DrainFrom | rust-workspaces/scheduler/src/lib.rs:194-215 | refilling round after round until a refill moves nothing: the packets handed out and the queues left then hold as many packets as the queues did |
| DrainOrder.DrainFromResult | rust-workspaces/scheduler/src/lib.rs:194-215 | at the end of a drain every positive-weight queue is empty, every zero-weight queue is unchanged, and the output holds exactly the packets that left |
| DrainOrder.PullStart | rust-workspaces/scheduler/src/lib.rs:99-108 | `into_iter()` (and `iter_mut()`, lib.rs:67-77) starts with every queue unconsumed, the scheduler's weights and an empty buffer, so its termination measure counts every queued packet |
| DrainOrder.PullNext | rust-workspaces/scheduler/src/lib.rs:197-214 | `next` answers `None` exactly when the buffer is empty and a refill moves nothing; the weights never change |
| DrainOrder.PullNextProgress | rust-workspaces/scheduler/src/lib.rs:197-214 | each packet handed out lowers the termination measure (buffer plus queued packets, an upper bound on what is still to come) by one; a `None` leaves the queues as they were |
| DrainOrder.PullCollectConserves | rust-workspaces/scheduler/src/lib.rs:189-215 | running a pull iterator to its end loses no packet: what it hands out plus what it leaves in the queues is exactly its termination measure |
| DrainOrder.PullCollectIsDrain | rust-workspaces/scheduler/src/lib.rs:170-214 | running a pull iterator to its end yields its buffer followed by the round-by-round drain of its queues, and leaves the same remainders behind: the owned queues for `into_iter`, the unread rest behind each cursor for `iter_mut` |
| DrainOrder.PullFusedAfterEnd | rust-workspaces/scheduler/src/lib.rs:197-214 | after the first `None`, the next call answers `None` as well |
| Equivalence.PopUnvisited | rust-workspaces/scheduler/src/lib.rs:121-124 | popping a queue's weight off its unvisited part yields round `r`'s window and leaves the part round `r + 1` starts from |
| Equivalence.UnvisitedMatchesDrain | rust-workspaces/scheduler/src/lib.rs:118-124 | on what the read traversal has not visited yet, one refill takes exactly round `r`'s windows and leaves exactly what round `r + 1` starts from |
| Equivalence.ReadEqualsDrain | rust-workspaces/scheduler/src/lib.rs:134-214 | from any round on, reading and draining give the same sequence |
| Equivalence.ModesAgree | rust-workspaces/scheduler/src/tests.rs:41-49 | `iter`, `iter_mut` and `into_iter`, each run to its end, hand out the same sequence |
| Equivalence.ServicedThenLeftover | rust-workspaces/scheduler/src/lib.rs:194-215 | every queue is what the drain hands out of it followed by what the drain leaves of it |
| Equivalence.DrainIsPermutation | rust-workspaces/scheduler/src/lib.rs:194-215 | the drained output is a permutation of the packets in positive-weight queues |
| Equivalence.ScheduleIsPermutation | rust-workspaces/scheduler/src/lib.rs:134-160 | the read schedule is a permutation of the packets in positive-weight queues |
| Equivalence.ScheduleMembers | rust-workspaces/scheduler/src/lib.rs:121-124 | every scheduled packet comes from some queue of positive weight |
| Equivalence.ZeroWeightStarves | rust-workspaces/scheduler/src/lib.rs:39 | with packets routed by class, no packet of a zero-weight class is ever scheduled |
| Equivalence.BacksRouted | rust-workspaces/scheduler/src/lib.rs:205-209 | popping fronts keeps every remaining packet in the queue of its class |
| Equivalence.RoundClassFilter | rust-workspaces/scheduler/src/lib.rs:200-211 | the packets of class `c` in one refill are exactly what queue `c` contributed |
| Equivalence.DrainClassOrder | rust-workspaces/scheduler/src/lib.rs:194-215 | the drain restricted to class `c` is queue `c` in order when its weight is positive, and nothing otherwise |
| Equivalence.ClassFifo | rust-workspaces/scheduler/src/lib.rs:134-160 | the schedule restricted to class `c` is queue `c` in FIFO order when its weight is positive, and nothing otherwise |
| Equivalence.PullEndsExhausted | rust-workspaces/scheduler/src/lib.rs:189-215 | after `into_iter` runs out, zero-weight queues keep all their packets and the others are empty |
| Equivalence.FlowOrder | rust-workspaces/scheduler/src/tests.rs:19-40 | a flow whose packets all share one positive-weight class comes out in the order it was enqueued |
| Equivalence.FlowOfBatch | rust-workspaces/scheduler/src/tests.rs:12-18 | a flow that is exactly one of several enqueued batches, of one positive-weight class, comes out as that batch |
| Scenarios.InvalidQueue | rust-workspaces/scheduler/src/tests.rs:4-8 | `Packet::new(132, 42, 1)` is rejected for its class 42 |
| Scenarios.TaggedFlowsInOrder | rust-workspaces/scheduler/src/tests.rs:27-40 | with the test's weights, flows 1, 2 and 3 each come out as their batch |
| Scenarios.FlowOrderScenario | rust-workspaces/scheduler/src/tests.rs:10-50 | `test_flow_order`: the drain restricted to flow 1 and the read schedule restricted to flows 2 and 3 give back each batch, and both traversals agree |
| Scenarios.ClassBatchesQueued | rust-workspaces/scheduler/src/tests.rs:55-58 | after enqueuing one single-class batch per class, queue `c` holds exactly batch `c` |
| Scenarios.FullFirstQueues | rust-workspaces/scheduler/src/tests.rs:59-72 | with weights 2, 5, 1 and full first queues, the traversal hands out two class-0, five class-1, then one class-2 packet |
| Scenarios.ClassBatchesFirstRound | rust-workspaces/scheduler/src/tests.rs:55-72 | five packets each of classes 0..2, enqueued class by class, start the traversal with two of class 0, five of class 1 and one of class 2 |
| Scenarios.WeightingScenario | rust-workspaces/scheduler/src/tests.rs:52-73 | `test_weighting` on the model |
| Scenarios.InputOrderPositions | rust-workspaces/scheduler/src/tests.rs:87-96 | the test's input holds the packet of class `c` at one fixed position and nowhere else |
| Scenarios.ClassOrderQueues | rust-workspaces/scheduler/src/tests.rs:107-108 | an input holding one packet per class leaves one packet per queue, each in its own class |
| Scenarios.OnePerQueueInClassOrder | rust-workspaces/scheduler/src/tests.rs:109-110 | with one packet per queue and all weights positive, the traversal yields the queues' packets by ascending class |
| Scenarios.PlainPerQueue | rust-workspaces/scheduler/src/tests.rs:109-114 | one packet of class `c` alone in queue `c`, all weights 1, comes out in class order, which is not the scrambled order |
| Scenarios.ClassOrderScenario | rust-workspaces/scheduler/src/tests.rs:75-115 | `test_class_order`: the default scheduler hands out the packets by ascending class and not in the scrambled order |
| Counter.CheckedIncrement | rust-advanced/src/lib.rs:18-20 | the counter rises by at most one, and stays put exactly when it has reached 10 |
| Counter.SaturatingSub | rust-advanced/src/lib.rs:14 | the difference when it is non-negative, 0 otherwise, never more than the minuend |
| Counter.Update | rust-advanced/src/lib.rs:11-16 | an increment never lowers the counter and stays put exactly at or above 10; a decrement never raises it and stays put exactly at 0; no step moves it by more than one, and no `u64` overflows |
| Counter.RunStaysInRange | rust-advanced/src/lib.rs:11-20 | a counter in `0..=10` stays in that range under any sequence of messages |
| Counter.IncrementsSaturate | rust-advanced/src/lib.rs:18-20 | `k` increments from `n <= 10` reach `min(n + k, 10)` |
| Counter.DecrementsSaturate | rust-advanced/src/lib.rs:14 | `k` decrements from any `n` reach `max(n - k, 0)` |
| Counter.UndoIncrement | rust-advanced/src/lib.rs:11-20 | below 10, a decrement undoes an increment |
| Counter.UndoDecrement | rust-advanced/src/lib.rs:11-20 | within `1..=10`, an increment undoes a decrement |
| Fibonacci.Fold | rust/src/lib.rs:6 | after `k` steps of the fold the pair is `(F(k), F(k-1))`, with the seed's 1 standing for `F(-1)` |
| Fibonacci.Fib | rust/src/lib.rs:5-7 | `fib(n)` is the `n`-th Fibonacci number of the recurrence |
| Fibonacci.FibFirstValues | rust/src/lib.rs:5-7 | `fib(0) = 0`, `fib(1) = 1`, `fib(2) = 1` |
| Fibonacci.FibRecurrence | rust/src/lib.rs:5-7 | `fib(n + 2) = fib(n + 1) + fib(n)` |
| Fibonacci.FoldBounded | rust/src/lib.rs:6 | no value the fold computes on the way to `fib(n)` exceeds `fib(n)`, apart from the seed's 1 |
| Fibonacci.FibLoop | rust/src/lib.rs:5-7 | with `u64` input and `u128` accumulators, the fold returns `F(n)` and no addition overflows, provided `F(n)` fits in 128 bits |

## Left out

- Words.Add: requires that the sum fits in `u64`. A debug build panics on overflow and a release build wraps around; neither outcome is modelled.
- Fibonacci.FibLoop: requires `F(n) < 2^128`, which holds exactly for `n <= 186`. For larger `n`, a debug build panics and a release build wraps around; neither is modelled.
- ReadOrder.Window: the skip offset `weights[index] * self.index` is an unbounded product. The `usize` overflow that huge weights and long traversals could cause is not modelled.
- Mutation through `iter_mut`: the model fixes the order in which packets are handed out, not writes through the returned `&mut Packet`.
- `iter_mut` and `into_iter` share one state machine. They hand out the packets in the same order. For `iter_mut`, the state's queues are the unread rest behind each cursor; the scheduler's own queues keep every packet, which the model does not track separately.
- Rust iterator mechanics are not modelled: the `Flatten`/`CustomMap` adapter chain, lifetimes, and the buffer's `VecDeque` representation. Each traversal is an explicit state with a `next` function.
- Enqueuing while a traversal is running is not modelled. The borrow checker forbids it.
- The test scenarios are stated on `ReadSchedule` and `DrainFrom`, or on the collected `ReadIter`. `ModesAgree` and `IterYieldsSchedule` tie those to each iterator's `next`.
- `Scheduler::clone` in the tests is not modelled. Model values are immutable, so a clone is the value itself.
- The `derive`d `Debug`, `Clone`, `Copy` and `PartialEq` implementations are not modelled. Structural equality of datatypes stands in for `PartialEq`.
- The `iced` user interface of the counter is not part of this model: the view, the theme, and the application loop that starts at 1. `Counter.Run` applies messages from any start value instead.
- The other workspace crates are not part of this model: graphing, mandelbrot, subcrate-example and its benchmark. None of them is part of the scheduler, the counter or `fib`.

## Findings

| source | as written | input that shows it | evidently intended | confidence | as-written member | corrected member |
|---|---|---|---|---|---|---|
| rust/src/lib.rs:17 | the test asserts `add(2, 2) == 42` | `add(2, 2)` returns 4, so the assertion fails | expect 4, as the identical test of the counter crate does | high; not executed | Words.AddTwoTwoNotFortyTwo | Words.AddTwoTwo |
