/** What the consumer of the queue sees: the seed node first, and then what was pushed. */
module PonyHead {
  import opened Syntax
  import opened Pony

  /** What looking at the head shows. */
  function Shown(q: Queue): seq<Node> {
    if q.head.Some? then [q.head.value] else []
  }

  /** What a run newly shows as its head. */
  function HeadsSeen(q: Queue, steps: seq<Step>): seq<Node>
    requires Possible(q, steps)
    decreases |steps|
  {
    if steps == [] then []
    else
      var r := Do(q, steps[0]);
      (if r.head != q.head then Shown(r) else []) + HeadsSeen(r, steps[1..])
  }

  lemma {:induction false} SeenIs(q: Queue, steps: seq<Step>)
    requires Possible(q, steps) && Inv(q)
    ensures HeadsSeen(q, steps) == Pops(q, steps)
    decreases |steps|
  {
    if steps != [] {
      var s := steps[0];
      if PopOf(q, s) != [] { AdvanceIs(q); }
      StepInv(q, s);
      SeenIs(Do(q, s), steps[1..]);
    }
  }

  /** The queue starts with its seed node as its head, and whatever the interleaving, the nodes its
      consumer sees as the head are the seed and then the nodes pushed, in the order of their swaps and
      with none skipped. */
  lemma HeadsInOrder(stub: Node, steps: seq<Step>)
    requires Possible(Initial(stub), steps)
    ensures var q := Initial(stub);
            Shown(q) + HeadsSeen(q, steps) == [stub] + Pops(q, steps) <= [stub] + Swaps(q, steps)
  {
    InitialInv(stub);
    SeenIs(Initial(stub), steps);
    Fifo(stub, steps);
  }

  /** The last `Take` of a run found no link. */
  predicate CameBackEmpty(q: Queue, steps: seq<Step>)
    requires Possible(q, steps)
    decreases |steps|
  {
    steps != [] &&
    (CameBackEmpty(Do(q, steps[0]), steps[1..])
      || (steps[0].Take? && q.consumer.next.None? && forall s | s in steps[1..] :: !s.Take?))
  }

  lemma {:induction false} HeadGone(q: Queue, steps: seq<Step>)
    requires Possible(q, steps)
    ensures After(q, steps).head.None? <==> CameBackEmpty(q, steps) || (q.head.None? && forall s | s in steps :: !s.Take?)
    decreases |steps|
  {
    if steps != [] {
      HeadGone(Do(q, steps[0]), steps[1..]);
      assert forall s :: s in steps <==> s == steps[0] || s in steps[1..];
    }
  }

  /** The queue has no head exactly if the last attempt to move on found no link; before any such attempt
      the head is the seed. */
  lemma HeadIs(stub: Node, steps: seq<Step>)
    requires Possible(Initial(stub), steps)
    ensures var r := After(Initial(stub), steps);
            && (r.head.None? <==> CameBackEmpty(Initial(stub), steps))
            && ((forall s | s in steps :: !s.Take?) ==> r.head == Some(stub))
  {
    var q := Initial(stub);
    HeadGone(q, steps);
    InitialInv(stub);
    RunInv(q, steps);
    Recorded(q, steps);
    if forall s | s in steps :: !s.Take? { NoTakes(q, steps); }
  }

  lemma {:induction false} NoTakes(q: Queue, steps: seq<Step>)
    requires Possible(q, steps) && forall s | s in steps :: !s.Take?
    ensures After(q, steps).head == q.head && !CameBackEmpty(q, steps)
    decreases |steps|
  {
    if steps != [] {
      assert steps[0] in steps;
      NoTakes(Do(q, steps[0]), steps[1..]);
    }
  }

  /** What the consumer is still to see: the head, and what has been pushed behind it. */
  function Remaining(q: Queue): seq<Node> {
    Shown(q) + Contents(q)
  }

  lemma InitialShows(stub: Node)
    ensures Inv(Initial(stub)) && Remaining(Initial(stub)) == [stub]
  {
    InitialInv(stub);
  }

  /** When no push is under way, a pop takes the front off, unless it was gone before. */
  lemma PopsFront(q: Queue)
    requires Inv(q) && q.consumer.Resting? && q.producers == map[]
    ensures Remaining(Popped(q)) == if q.head.Some? then Remaining(q)[1..] else Remaining(q)
  {
    PoppedIs(q);
    StepInv(q, Load);
    var l := Do(q, Load);
    assert Contents(l) == Contents(q);
    if Next(q, q.sentinel).Some? {
      AdvanceRefines(l);
    } else {
      EmptyMeans(q);
    }
  }

  /** A peek shows the front and leaves it there. */
  lemma PeekShowsFront(q: Queue)
    requires Inv(q) && q.consumer.Resting? && q.producers == map[]
    ensures Remaining(Peeked(q)) == Remaining(q)
    ensures Peeked(q).head == if Remaining(q) == [] then None else Some(Remaining(q)[0])
  {
    PopsFront(q);
    PeekedIs(q);
  }

  /** A whole push, of a node that is not in use. */
  function Pushed(q: Queue, p: Pid, m: Node): Queue
    requires Enabled(q, Clear(p, m))
  {
    Do(Do(Do(q, Clear(p, m)), Swap(p)), Link(p))
  }

  lemma QuietStep(q: Queue, s: Step)
    requires Inv(q) && Enabled(q, s) && !s.Take?
    ensures Inv(Do(q, s)) && Remaining(Do(q, s)) == Remaining(q) + SwapOf(q, s)
  {
    StepInv(q, s);
    OtherRefines(q, s);
  }

  /** It leaves the other pushes and the consumer alone. */
  lemma PushIsOver(q: Queue, p: Pid, m: Node)
    requires Enabled(q, Clear(p, m))
    ensures Pushed(q, p, m).producers == q.producers && Pushed(q, p, m).consumer == q.consumer
  {
  }

  /** And puts the node at the back. */
  lemma PushesBack(q: Queue, p: Pid, m: Node)
    requires Inv(q) && Enabled(q, Clear(p, m))
    ensures var r := Pushed(q, p, m); Inv(r) && Remaining(r) == Remaining(q) + [m]
  {
    QuietStep(q, Clear(p, m));
    var a := Do(q, Clear(p, m));
    SwapsBack(a, p, m);
  }

  lemma SwapsBack(q: Queue, p: Pid, m: Node)
    requires Inv(q) && p in q.producers && q.producers[p] == Cleared(m)
    ensures var r := Do(Do(q, Swap(p)), Link(p)); Inv(r) && Remaining(r) == Remaining(q) + [m]
  {
    QuietStep(q, Swap(p));
    QuietStep(Do(q, Swap(p)), Link(p));
  }
}
