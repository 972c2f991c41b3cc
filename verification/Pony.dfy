/** A queue with many producers and one consumer, step by step. A push clears the node's link,
    swaps the tail and only then links the node in; a pop reads a link and then moves on. */
module Pony {
  import opened Syntax

  type Node = nat
  type Pid = nat

  /** Where a push stands. `at` records the place its swap got in the order of all swaps. */
  datatype Producer = Cleared(m: Node) | Swapped(m: Node, prev: Node, at: nat)

  /** Where a pop stands: it has read the link of the sentinel. */
  datatype Consumer = Resting | Loaded(next: Option<Node>)

  /** `live` are the nodes in use: the sentinel, those behind it and those being pushed. In a debug build
      they are the nodes not marked as released, but for the first sentinel (`MarksAre`). The last three
      fields record the past: the nodes that became the tail, that became the head, and that were
      released, in order. */
  datatype Queue = Queue(
    next: map<Node, Option<Node>>,
    tail: Node,
    sentinel: Node,
    head: Option<Node>,
    live: set<Node>,
    producers: map<Pid, Producer>,
    consumer: Consumer,
    order: seq<Node>,
    heads: seq<Node>,
    released: seq<Node>)

  datatype Step = Clear(p: Pid, m: Node) | Swap(p: Pid) | Link(p: Pid) | Load | Take

  function Next(q: Queue, n: Node): Option<Node> {
    if n in q.next then q.next[n] else None
  }

  /** A new queue holds one node, which is its head. */
  function Initial(stub: Node): Queue {
    Queue(map[stub := None], stub, stub, Some(stub), {stub}, map[], Resting, [stub], [stub], [])
  }

  /** A producer may start to push any node that is not in use. */
  predicate Enabled(q: Queue, s: Step) {
    match s
    case Clear(p, m) => p !in q.producers && m !in q.live
    case Swap(p) => p in q.producers && q.producers[p].Cleared?
    case Link(p) => p in q.producers && q.producers[p].Swapped?
    case Load => q.consumer.Resting?
    case Take => q.consumer.Loaded?
  }

  function Do(q: Queue, s: Step): Queue
    requires Enabled(q, s)
  {
    match s
    case Clear(p, m) =>
      q.(live := q.live + {m}, next := q.next[m := None], producers := q.producers[p := Cleared(m)])
    case Swap(p) =>
      var m := q.producers[p].m;
      q.(tail := m, producers := q.producers[p := Swapped(m, q.tail, |q.order|)], order := q.order + [m])
    case Link(p) =>
      var l := q.producers[p];
      q.(next := q.next[l.prev := Some(l.m)], producers := q.producers - {p})
    case Load =>
      q.(consumer := Loaded(Next(q, q.sentinel)))
    case Take =>
      var n := q.consumer.next;
      if n.None? then q.(head := None, consumer := Resting)
      else q.(head := n, sentinel := n.value, live := q.live - {q.sentinel}, consumer := Resting,
              heads := q.heads + [n.value], released := q.released + [q.sentinel])
  }

  /** The steps can be taken one after the other from `q`. */
  predicate Possible(q: Queue, steps: seq<Step>)
    decreases |steps|
  {
    steps == [] || (Enabled(q, steps[0]) && Possible(Do(q, steps[0]), steps[1..]))
  }

  function After(q: Queue, steps: seq<Step>): Queue
    requires Possible(q, steps)
    decreases |steps|
  {
    if steps == [] then q else After(Do(q, steps[0]), steps[1..])
  }

  // --- the invariant ---

  /** Nodes from the sentinel to the tail are distinct and live. */
  ghost predicate Held(q: Queue, b: nat)
    requires b == |q.released|
  {
    && b < |q.order|
    && (forall i, j :: b <= i < j < |q.order| ==> q.order[i] != q.order[j])
    && (forall i :: b <= i < |q.order| ==> q.order[i] in q.live)
  }

  ghost predicate Pushing(q: Queue, p: Pid, b: nat)
    requires p in q.producers
  {
    match q.producers[p]
    case Cleared(m) =>
      && m in q.live && Next(q, m) == None
      && (forall i :: b <= i < |q.order| ==> q.order[i] != m)
    case Swapped(m, prev, at) =>
      && b < at < |q.order| && q.order[at] == m && q.order[at - 1] == prev && Next(q, prev) == None
  }

  predicate Waiting(q: Queue, i: nat)
    requires 0 < i < |q.order|
  {
    exists p :: p in q.producers && q.producers[p] == Swapped(q.order[i], q.order[i - 1], i)
  }

  /** The past agrees with the pointers. */
  predicate Placed(q: Queue, b: nat)
    requires b == |q.released| < |q.order|
  {
    && q.released == q.order[..b] && q.heads == q.order[..b + 1]
    && q.sentinel == q.order[b] && q.tail == q.order[|q.order| - 1]
    && (q.head == None || q.head == Some(q.sentinel))
  }

  ghost predicate AllPushing(q: Queue, b: nat) {
    && (forall p :: p in q.producers ==> Pushing(q, p, b))
    && (forall p, r :: p in q.producers && r in q.producers && p != r ==> q.producers[p].m != q.producers[r].m)
  }

  /** Every node but the tail is linked to the one pushed after it, or the push is not over. */
  ghost predicate Chained(q: Queue, b: nat)
    requires b < |q.order|
  {
    && (forall i :: b < i < |q.order| ==> Next(q, q.order[i - 1]) == Some(q.order[i]) || Waiting(q, i))
    && Next(q, q.order[|q.order| - 1]) == None
  }

  ghost predicate Inv(q: Queue) {
    var b := |q.released|;
    && Held(q, b) && Placed(q, b) && AllPushing(q, b) && Chained(q, b)
    && (q.consumer.Loaded? && q.consumer.next.Some? ==> Next(q, q.sentinel) == q.consumer.next)
  }

  lemma WaitingUnlinked(q: Queue, i: nat)
    requires Inv(q) && |q.released| < i < |q.order|
    ensures Waiting(q, i) ==> Next(q, q.order[i - 1]) == None
  {
    if Waiting(q, i) {
      var p :| p in q.producers && q.producers[p] == Swapped(q.order[i], q.order[i - 1], i);
      assert Pushing(q, p, |q.released|);
    }
  }

  lemma WaitingKept(q: Queue, q': Queue, i: nat)
    requires 0 < i < |q.order| && i < |q'.order| && q'.order[i] == q.order[i] && q'.order[i - 1] == q.order[i - 1]
    requires forall p | p in q.producers && q.producers[p].Swapped? && q.producers[p].at == i ::
               p in q'.producers && q'.producers[p] == q.producers[p]
    ensures Waiting(q, i) ==> Waiting(q', i)
  {
    if Waiting(q, i) {
      var p :| p in q.producers && q.producers[p] == Swapped(q.order[i], q.order[i - 1], i);
      assert p in q'.producers && q'.producers[p] == q.producers[p];
    }
  }

  lemma InitialInv(stub: Node)
    ensures Inv(Initial(stub))
  {
  }

  lemma ClearInv(q: Queue, p: Pid, m: Node)
    requires Inv(q) && Enabled(q, Clear(p, m))
    ensures Inv(Do(q, Clear(p, m)))
  {
    var q', b := Do(q, Clear(p, m)), |q.released|;
    ClearPushing(q, p, m);
    forall i | b < i < |q.order| ensures Next(q', q.order[i - 1]) == Some(q.order[i]) || Waiting(q', i) {
      WaitingKept(q, q', i);
    }
  }

  lemma ClearPushing(q: Queue, p: Pid, m: Node)
    requires Inv(q) && Enabled(q, Clear(p, m))
    ensures AllPushing(Do(q, Clear(p, m)), |q.released|)
  {
    var q', b := Do(q, Clear(p, m)), |q.released|;
    forall r | r in q'.producers ensures Pushing(q', r, b) {
      if r != p { assert Pushing(q, r, b); }
    }
    forall r | r in q.producers ensures q.producers[r].m != m {
      assert Pushing(q, r, b);
    }
  }

  lemma SwapInv(q: Queue, p: Pid)
    requires Inv(q) && Enabled(q, Swap(p))
    ensures Inv(Do(q, Swap(p)))
  {
    var q', b := Do(q, Swap(p)), |q.released|;
    SwapPushing(q, p);
    SwapChained(q, p);
    assert Pushing(q, p, b);
    assert q'.order[..b] == q.order[..b] && q'.order[..b + 1] == q.order[..b + 1];
  }

  lemma SwapPushing(q: Queue, p: Pid)
    requires Inv(q) && Enabled(q, Swap(p))
    ensures AllPushing(Do(q, Swap(p)), |q.released|)
  {
    var q', b := Do(q, Swap(p)), |q.released|;
    assert Pushing(q, p, b);
    forall r | r in q'.producers ensures Pushing(q', r, b) {
      assert Pushing(q, r, b);
    }
  }

  lemma SwapChained(q: Queue, p: Pid)
    requires Inv(q) && Enabled(q, Swap(p))
    ensures Chained(Do(q, Swap(p)), |q.released|)
  {
    var q', b := Do(q, Swap(p)), |q.released|;
    assert Pushing(q, p, b);
    forall i | b < i < |q'.order| ensures Next(q', q'.order[i - 1]) == Some(q'.order[i]) || Waiting(q', i) {
      if i == |q.order| {
        assert q'.producers[p] == Swapped(q'.order[i], q'.order[i - 1], i);
      } else {
        WaitingKept(q, q', i);
      }
    }
  }

  lemma LinkInv(q: Queue, p: Pid)
    requires Inv(q) && Enabled(q, Link(p))
    ensures Inv(Do(q, Link(p)))
  {
    var q', b, l := Do(q, Link(p)), |q.released|, q.producers[p];
    assert Pushing(q, p, b);
    LinkPushing(q, p);
    forall i | b < i < |q.order| ensures Next(q', q.order[i - 1]) == Some(q.order[i]) || Waiting(q', i) {
      if i != l.at { WaitingKept(q, q', i); }
    }
  }

  /** A link is only written into the node it belongs to. */
  lemma LinkPushing(q: Queue, p: Pid)
    requires Inv(q) && Enabled(q, Link(p))
    ensures AllPushing(Do(q, Link(p)), |q.released|)
  {
    forall r | r in Do(q, Link(p)).producers ensures Pushing(Do(q, Link(p)), r, |q.released|) {
      LinkOther(q, p, r);
    }
  }

  lemma LinkOther(q: Queue, p: Pid, r: Pid)
    requires Held(q, |q.released|) && AllPushing(q, |q.released|)
    requires Enabled(q, Link(p)) && r in q.producers && r != p
    ensures Pushing(Do(q, Link(p)), r, |q.released|)
  {
    var b, l, k := |q.released|, q.producers[p], q.producers[r];
    assert Pushing(q, p, b) && Pushing(q, r, b) && k.m != l.m;
    if k.Swapped? { assert k.at != l.at; }
  }

  lemma TakeInv(q: Queue)
    requires Inv(q) && Enabled(q, Take)
    ensures Inv(Do(q, Take))
  {
    if q.consumer.next.Some? {
      AdvanceInv(q);
    } else {
      var q', b := Do(q, Take), |q.released|;
      forall r | r in q.producers ensures Pushing(q', r, b) {
        assert Pushing(q, r, b);
      }
      forall i | b < i < |q.order| ensures Waiting(q, i) ==> Waiting(q', i) {
        WaitingKept(q, q', i);
      }
    }
  }

  /** The node the consumer moves to is the next one in the order of swaps. */
  lemma AdvanceIs(q: Queue)
    requires Inv(q) && q.consumer.Loaded? && q.consumer.next.Some?
    ensures |q.released| + 1 < |q.order| && q.consumer.next.value == q.order[|q.released| + 1]
  {
    WaitingUnlinked(q, |q.released| + 1);
  }

  lemma AdvanceInv(q: Queue)
    requires Inv(q) && q.consumer.Loaded? && q.consumer.next.Some?
    ensures Inv(Do(q, Take))
  {
    var q', b := Do(q, Take), |q.released|;
    AdvanceIs(q);
    AdvancePushing(q);
    forall i | b + 1 < i < |q.order| ensures Next(q', q.order[i - 1]) == Some(q.order[i]) || Waiting(q', i) {
      WaitingKept(q, q', i);
    }
    assert Chained(q', b + 1);
    assert q.order[..b + 1] == q.order[..b] + [q.order[b]];
    assert q.order[..b + 2] == q.order[..b + 1] + [q.order[b + 1]];
    assert Placed(q', b + 1);
  }

  lemma AdvancePushing(q: Queue)
    requires Inv(q) && q.consumer.Loaded? && q.consumer.next.Some?
    ensures AllPushing(Do(q, Take), |q.released| + 1)
  {
    var q', b := Do(q, Take), |q.released|;
    AdvanceIs(q);
    forall r | r in q.producers ensures Pushing(q', r, b + 1) {
      assert Pushing(q, r, b);
    }
  }

  lemma LoadInv(q: Queue)
    requires Inv(q) && Enabled(q, Load)
    ensures Inv(Do(q, Load))
  {
    var q', b := Do(q, Load), |q.released|;
    forall r | r in q.producers ensures Pushing(q', r, b) {
      assert Pushing(q, r, b);
    }
    forall i | b < i < |q.order| ensures Waiting(q, i) ==> Waiting(q', i) {
      WaitingKept(q, q', i);
    }
  }

  /** Every step of every producer and of the consumer keeps the invariant. */
  lemma StepInv(q: Queue, s: Step)
    requires Inv(q) && Enabled(q, s)
    ensures Inv(Do(q, s))
  {
    match s
    case Clear(p, m) => ClearInv(q, p, m);
    case Swap(p) => SwapInv(q, p);
    case Link(p) => LinkInv(q, p);
    case Load => LoadInv(q);
    case Take => TakeInv(q);
  }

  lemma {:induction false} RunInv(q: Queue, steps: seq<Step>)
    requires Inv(q) && Possible(q, steps)
    ensures Inv(After(q, steps))
    decreases |steps|
  {
    if steps != [] {
      StepInv(q, steps[0]);
      RunInv(Do(q, steps[0]), steps[1..]);
    }
  }

  // --- what it means for a run ---

  /** What has been pushed and has not been the head yet. */
  function Contents(q: Queue): seq<Node> {
    if |q.released| < |q.order| then q.order[|q.released| + 1..] else []
  }

  /** What a step swaps in, moves the head to, and releases. */
  function SwapOf(q: Queue, s: Step): seq<Node>
    requires Enabled(q, s)
  {
    if s.Swap? then [q.producers[s.p].m] else []
  }

  function PopOf(q: Queue, s: Step): seq<Node> {
    if s.Take? && q.consumer.Loaded? && q.consumer.next.Some? then [q.consumer.next.value] else []
  }

  function ReleaseOf(q: Queue, s: Step): seq<Node> {
    if s.Take? && q.consumer.Loaded? && q.consumer.next.Some? then [q.sentinel] else []
  }

  lemma StepRecords(q: Queue, s: Step)
    requires Enabled(q, s)
    ensures var r := Do(q, s);
            r.order == q.order + SwapOf(q, s) && r.heads == q.heads + PopOf(q, s) && r.released == q.released + ReleaseOf(q, s)
  {
  }

  /** To the outside a push happens at its swap and a pop when it moves on: the queue is a FIFO. */
  lemma StepRefines(q: Queue, s: Step)
    requires Inv(q) && Enabled(q, s)
    ensures Contents(q) + SwapOf(q, s) == PopOf(q, s) + Contents(Do(q, s))
    ensures PopOf(q, s) != [] ==> Do(q, s).head == Some(PopOf(q, s)[0])
  {
    if PopOf(q, s) != [] { AdvanceRefines(q); } else { OtherRefines(q, s); }
  }

  lemma OtherRefines(q: Queue, s: Step)
    requires |q.released| < |q.order| && Enabled(q, s) && PopOf(q, s) == []
    ensures Contents(q) + SwapOf(q, s) == Contents(Do(q, s))
  {
    if s.Swap? {
      assert Do(q, s).order[|q.released| + 1..] == q.order[|q.released| + 1..] + [q.producers[s.p].m];
    }
  }

  lemma AdvanceRefines(q: Queue)
    requires Inv(q) && q.consumer.Loaded? && q.consumer.next.Some?
    ensures Contents(q) == [q.consumer.next.value] + Contents(Do(q, Take))
  {
    AdvanceIs(q);
    var b := |q.released|;
    assert |Do(q, Take).released| == b + 1;
    assert q.order[b + 1..] == [q.order[b + 1]] + q.order[b + 2..];
  }

  /** The nodes of a run, in the order they are swapped in. */
  function Swaps(q: Queue, steps: seq<Step>): seq<Node>
    requires Possible(q, steps)
    decreases |steps|
  {
    if steps == [] then [] else SwapOf(q, steps[0]) + Swaps(Do(q, steps[0]), steps[1..])
  }

  /** The nodes a run moves its head to through the chain. */
  function Pops(q: Queue, steps: seq<Step>): seq<Node>
    requires Possible(q, steps)
    decreases |steps|
  {
    if steps == [] then [] else PopOf(q, steps[0]) + Pops(Do(q, steps[0]), steps[1..])
  }

  /** The nodes a run releases. */
  function Releases(q: Queue, steps: seq<Step>): seq<Node>
    requires Possible(q, steps)
    decreases |steps|
  {
    if steps == [] then [] else ReleaseOf(q, steps[0]) + Releases(Do(q, steps[0]), steps[1..])
  }

  lemma {:induction false} Recorded(q: Queue, steps: seq<Step>)
    requires Possible(q, steps)
    ensures After(q, steps).order == q.order + Swaps(q, steps)
    ensures After(q, steps).heads == q.heads + Pops(q, steps)
    ensures After(q, steps).released == q.released + Releases(q, steps)
    decreases |steps|
  {
    if steps != [] {
      StepRecords(q, steps[0]);
      Recorded(Do(q, steps[0]), steps[1..]);
    }
  }

  /** First in, first out, and nothing is skipped: whatever the interleaving, the nodes popped are a
      prefix of the nodes pushed, in the order of their swaps. The nodes released are the same ones
      one place behind, starting with the first node of the queue. */
  lemma Fifo(stub: Node, steps: seq<Step>)
    requires Possible(Initial(stub), steps)
    ensures var q := Initial(stub);
            && Pops(q, steps) <= Swaps(q, steps)
            && |Releases(q, steps)| == |Pops(q, steps)| && Releases(q, steps) <= [stub] + Pops(q, steps)
  {
    var q := Initial(stub);
    var r := After(q, steps);
    InitialInv(stub);
    RunInv(q, steps);
    Recorded(q, steps);
    PlacedMeans(r, stub, Swaps(q, steps), Pops(q, steps), Releases(q, steps));
  }

  lemma PlacedMeans(q: Queue, stub: Node, swaps: seq<Node>, pops: seq<Node>, releases: seq<Node>)
    requires |q.released| < |q.order| && Placed(q, |q.released|)
    requires q.order == [stub] + swaps && q.heads == [stub] + pops && q.released == releases
    ensures pops <= swaps && |releases| == |pops| && releases <= [stub] + pops
  {
    assert pops == q.heads[1..] && swaps == q.order[1..];
    assert forall i | 0 <= i < |pops| :: pops[i] == q.heads[i + 1] == q.order[i + 1] == swaps[i];
    assert releases == q.heads[..|releases|];
  }

  /** The node `k` links after `n`. */
  function Walk(q: Queue, n: Node, k: nat): Option<Node>
    decreases k
  {
    if k == 0 then Some(n)
    else
      var m := Next(q, n);
      if m.None? then None else Walk(q, m.value, k - 1)
  }

  /** No push is between its swap and its link. */
  predicate Settled(q: Queue) {
    forall p :: p in q.producers ==> q.producers[p].Cleared?
  }

  lemma {:induction false} WalkAlong(q: Queue, b: nat, i: nat, k: nat)
    requires Inv(q) && Settled(q) && b == |q.released| <= i && i + k < |q.order|
    ensures Walk(q, q.order[i], k) == Some(q.order[i + k])
    decreases k
  {
    if k > 0 {
      assert !Waiting(q, i + 1);
      WalkAlong(q, b, i + 1, k - 1);
    }
  }

  /** Nothing is lost: whenever no push is under way, the chain from the sentinel visits everything
      that has been pushed and not popped, in order, and ends at the tail. */
  lemma NothingLost(stub: Node, steps: seq<Step>)
    requires Possible(Initial(stub), steps) && Settled(After(Initial(stub), steps))
    ensures var q := After(Initial(stub), steps);
            && (forall k | 0 <= k < |Contents(q)| :: Walk(q, q.sentinel, k + 1) == Some(Contents(q)[k]))
            && Walk(q, q.sentinel, |Contents(q)|) == Some(q.tail) && Walk(q, q.sentinel, |Contents(q)| + 1) == None
  {
    var q := After(Initial(stub), steps);
    InitialInv(stub);
    RunInv(Initial(stub), steps);
    var b := |q.released|;
    forall k: nat | k <= |Contents(q)| ensures Walk(q, q.sentinel, k) == Some(q.order[b + k]) {
      WalkAlong(q, b, b, k);
    }
    WalkOn(q, q.sentinel, |Contents(q)|);
  }

  lemma {:induction false} WalkOn(q: Queue, n: Node, k: nat)
    requires Walk(q, n, k).Some?
    ensures Walk(q, n, k + 1) == Next(q, Walk(q, n, k).value)
    decreases k
  {
    if k > 0 { WalkOn(q, Next(q, n).value, k - 1); }
  }

  /** A pop finds nothing only if nothing is left or the next push is not over. */
  lemma EmptyMeans(q: Queue)
    requires Inv(q) && Next(q, q.sentinel) == None
    ensures Contents(q) == [] || exists p :: p in q.producers && q.producers[p] == Swapped(Contents(q)[0], q.sentinel, |q.released| + 1)
  {
    if Contents(q) != [] {
      assert Waiting(q, |q.released| + 1);
    }
  }

  /** No producer writes into a released node: the links it sets belong to live nodes. */
  lemma LinksAreLive(stub: Node, steps: seq<Step>, p: Pid)
    requires Possible(Initial(stub), steps) && Enabled(After(Initial(stub), steps), Link(p))
    ensures var q := After(Initial(stub), steps);
            && q.producers[p].prev in q.live && q.producers[p].m in q.live && Next(q, q.producers[p].prev) == None
            && (forall n :: n != q.producers[p].prev ==> Next(Do(q, Link(p)), n) == Next(q, n))
  {
    var q := After(Initial(stub), steps);
    InitialInv(stub);
    RunInv(Initial(stub), steps);
    assert Pushing(q, p, |q.released|);
  }

  /** A node is live when it is released and stays out of the queue until it is pushed again. */
  lemma ReleasedOnce(stub: Node, steps: seq<Step>)
    requires Possible(Initial(stub), steps) && Enabled(After(Initial(stub), steps), Take)
    ensures var q := After(Initial(stub), steps);
            q.consumer.next.Some? ==>
              q.sentinel in q.live && q.sentinel !in Do(q, Take).live && q.sentinel != q.consumer.next.value
              && q.sentinel !in Contents(q) && forall p | p in q.producers :: q.producers[p].m != q.sentinel && (q.producers[p].Swapped? ==> q.producers[p].prev != q.sentinel)
  {
    var q := After(Initial(stub), steps);
    InitialInv(stub);
    RunInv(Initial(stub), steps);
    if q.consumer.next.Some? {
      AdvanceIs(q);
      forall p | p in q.producers ensures q.producers[p].m != q.sentinel && (q.producers[p].Swapped? ==> q.producers[p].prev != q.sentinel) {
        assert Pushing(q, p, |q.released|);
      }
    }
  }

  // --- the marks of a debug build ---

  /** A node is made with the mark of a released one. Pushing takes the mark away, and moving past the
      sentinel sets it. `marks` are the nodes without it. */
  function Mark(q: Queue, marks: set<Node>, s: Step): set<Node>
    requires Enabled(q, s)
  {
    match s
    case Clear(_, m) => marks + {m}
    case Take => if q.consumer.next.Some? then marks - {q.sentinel} else marks
    case _ => marks
  }

  function Marks(q: Queue, marks: set<Node>, steps: seq<Step>): set<Node>
    requires Possible(q, steps)
    decreases |steps|
  {
    if steps == [] then marks else Marks(Do(q, steps[0]), Mark(q, marks, steps[0]), steps[1..])
  }

  /** Nobody pushes the first sentinel, so it keeps its mark until the queue has moved past it. */
  ghost predicate Marked(q: Queue, marks: set<Node>) {
    marks == if q.released == [] then q.live - {q.sentinel} else q.live
  }

  lemma {:induction false} MarksAre(q: Queue, marks: set<Node>, steps: seq<Step>)
    requires Possible(q, steps) && Inv(q) && Marked(q, marks)
    ensures Inv(After(q, steps)) && Marked(After(q, steps), Marks(q, marks, steps))
    decreases |steps|
  {
    if steps != [] {
      var s := steps[0];
      StepInv(q, s);
      assert q.sentinel in q.live by { assert q.order[|q.released|] in q.live; }
      MarksAre(Do(q, s), Mark(q, marks, s), steps[1..]);
    }
  }

  /** The destructor of a drained queue asserts that its sentinel is not marked as released. The
      assertion holds exactly if anything was ever pushed. */
  lemma DestructorAsserts(stub: Node, steps: seq<Step>)
    requires Possible(Initial(stub), steps) && Contents(After(Initial(stub), steps)) == []
    ensures var q := Initial(stub); After(q, steps).sentinel in Marks(q, {}, steps) <==> Swaps(q, steps) != []
  {
    var q := Initial(stub);
    InitialInv(stub);
    MarksAre(q, {}, steps);
    Recorded(q, steps);
    var r := After(q, steps);
    DrainedIs(r);
    assert r.order[|r.released|] in r.live;
  }

  function Popped(q: Queue): Queue
    requires q.consumer.Resting?
  {
    Do(Do(q, Load), Take)
  }

  /** An uninterrupted pop moves on by one node, or finds the queue empty. */
  lemma PoppedIs(q: Queue)
    requires Inv(q) && q.consumer.Resting?
    ensures var r := Popped(q);
            && r.order == q.order && r.producers == q.producers && r.consumer.Resting?
            && |r.released| == |q.released| + (if r.head.Some? then 1 else 0)
            && (r.head.None? && q.producers == map[] ==> Contents(r) == [])
  {
    if Next(q, q.sentinel).None? { EmptyMeans(q); }
  }

  function Peeked(q: Queue): Queue
    requires q.consumer.Resting?
  {
    if q.head.Some? then q else Popped(q)
  }

  lemma PeekedIs(q: Queue)
    requires Inv(q) && q.consumer.Resting?
    ensures var r := Peeked(q);
            && r.order == q.order && r.producers == q.producers && r.consumer.Resting? && |r.released| >= |q.released|
            && (q.head.None? && r.head.Some? ==> |r.released| > |q.released|)
            && (r.head.None? && q.producers == map[] ==> Contents(r) == [])
  {
    PoppedIs(q);
  }

  /** Popping the head and looking at the next one, when all pushes are over. */
  lemma RoundIs(q: Queue)
    requires Inv(q) && q.consumer.Resting? && q.producers == map[] && q.head.Some?
    ensures Inv(Popped(q))
    ensures var r := Peeked(Popped(q));
            && r.order == q.order && r.producers == map[] && r.consumer.Resting?
            && |q.released| <= |r.released| <= |r.order|
            && (r.head.Some? ==> |r.released| > |q.released|) && (r.head.None? ==> Contents(r) == [])
  {
    StepInv(q, Load);
    StepInv(Do(q, Load), Take);
    PoppedIs(q);
    PeekedIs(Popped(q));
    StepInv(Popped(q), Load);
    StepInv(Do(Popped(q), Load), Take);
  }

  lemma DrainedIs(q: Queue)
    requires Inv(q) && Contents(q) == []
    ensures q.heads == q.order && q.released + [q.sentinel] == q.order
  {
  }

  /** The queue object. Each method up to `Take` is one atomic step of one thread. */
  class PonyQ {
    var next: map<Node, Option<Node>>
    var tail: Node
    var sentinel: Node
    var head: Option<Node>
    var live: set<Node>
    ghost var producers: map<Pid, Producer>
    ghost var consumer: Consumer
    ghost var order: seq<Node>
    ghost var heads: seq<Node>
    ghost var released: seq<Node>

    ghost function Model(): Queue
      reads this
    {
      Queue(next, tail, sentinel, head, live, producers, consumer, order, heads, released)
    }

    ghost predicate Valid()
      reads this
    {
      Inv(Model())
    }

    constructor (stub: Node)
      ensures Valid() && Model() == Initial(stub)
    {
      next := map[stub := None];
      tail, sentinel, head, live := stub, stub, Some(stub), {stub};
      producers, consumer, order, heads, released := map[], Resting, [stub], [stub], [];
    }

    method Clear(ghost p: Pid, m: Node)
      requires Valid() && Enabled(Model(), Step.Clear(p, m))
      modifies this
      ensures Valid() && Model() == Do(old(Model()), Step.Clear(p, m))
    {
      StepInv(Model(), Step.Clear(p, m));
      live := live + {m};
      next := next[m := None];
      producers := producers[p := Cleared(m)];
    }

    method Swap(ghost p: Pid, m: Node) returns (prev: Node)
      requires Valid() && p in producers && producers[p] == Cleared(m)
      modifies this
      ensures Valid() && Model() == Do(old(Model()), Step.Swap(p)) && prev == old(tail)
    {
      StepInv(Model(), Step.Swap(p));
      prev := tail;
      tail := m;
      producers := producers[p := Swapped(m, prev, |order|)];
      order := order + [m];
    }

    method Link(ghost p: Pid, m: Node, prev: Node)
      requires Valid() && p in producers && producers[p].Swapped? && producers[p].m == m && producers[p].prev == prev
      modifies this
      ensures Valid() && Model() == Do(old(Model()), Step.Link(p))
    {
      StepInv(Model(), Step.Link(p));
      next := next[prev := Some(m)];
      producers := producers - {p};
    }

    method Load() returns (n: Option<Node>)
      requires Valid() && consumer.Resting?
      modifies this
      ensures Valid() && Model() == Do(old(Model()), Step.Load) && n == Next(old(Model()), sentinel)
    {
      StepInv(Model(), Step.Load);
      n := if sentinel in next then next[sentinel] else None;
      consumer := Loaded(n);
    }

    method Take(n: Option<Node>)
      requires Valid() && consumer == Loaded(n)
      modifies this
      ensures Valid() && Model() == Do(old(Model()), Step.Take)
    {
      StepInv(Model(), Step.Take);
      head := n;
      if n.Some? {
        var was := sentinel;
        sentinel := n.value;
        live := live - {was};
        heads, released := heads + [n.value], released + [was];
      }
      consumer := Resting;
    }

    /** A push that nobody interrupts. */
    method Push(ghost p: Pid, m: Node)
      requires Valid() && p !in producers && m !in live
      modifies this
      ensures Valid() && producers == old(producers) && Contents(Model()) == old(Contents(Model())) + [m]
      ensures order == old(order) + [m] && heads == old(heads) && released == old(released) && consumer == old(consumer)
    {
      Clear(p, m);
      var prev := Swap(p, m);
      Link(p, m, prev);
      assert producers == old(producers);
    }

    /** A pop that nobody interrupts. */
    method Pop()
      requires Valid() && consumer.Resting?
      modifies this
      ensures Valid() && Model() == Popped(old(Model()))
    {
      var n := Load();
      Take(n);
    }

    method Peek() returns (h: Option<Node>)
      requires Valid() && consumer.Resting?
      modifies this
      ensures Valid() && h == head
      ensures Model() == Peeked(old(Model()))
    {
      if head.None? { Pop(); }
      h := head;
    }

    /** Once all pushes are over, destruction makes every node that was ever pushed the head, in
        order, and releases each of them once. */
    method Destroy()
      requires Valid() && consumer.Resting? && producers == map[]
      modifies this
      ensures order == old(order) && heads == order && released == order && head == None
    {
      ghost var q := Model();
      PeekedIs(q);
      var h := Peek();
      while h.Some?
        invariant Valid() && consumer.Resting? && producers == map[] && order == old(order) && h == head
        invariant head == None ==> Contents(Model()) == []
        decreases |order| - |released|, h.Some?
      {
        q := Model();
        RoundIs(q);
        Pop();
        h := Peek();
      }
      DrainedIs(Model());
      live := live - {sentinel};
      released := released + [sentinel];
      head := None;
    }
  }
}
