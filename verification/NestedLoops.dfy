/** A loop inside a loop: the compiler accepts it, and a phase that goes by the counter of the inner one
    takes its last count for all of them. */
module NestedLoops {
  import opened Labels
  import opened Syntax
  import opened Semantics
  import opened SplitPhase
  import opened PhaseRun
  import opened WellLabelled
  import opened Flows
  import opened Replay
  import opened Phases
  import opened Flatten
  import opened DesugarCorrect
  import opened NameLoops
  import opened Complete
  import opened Samples
  import opened LoopNecessity

  const F := Flag(1, 3)
  const G := Flag(1, 4)
  const A := Anorm(1, 8)
  const O := Loop(1, 1)
  const M := Loop(2, 2)

  const Less: Expr<()> := Bin((), Lt, Read0(J), Read0(K))
  const InnerLoop: Stmt<()> := While((), Less, Assign((), Ref((), K), Read0(False)), M)
  const Rest: Stmt<()> := Seq((), Assign((), Ref((), J), Read0(False)), PutStmt)
  const OuterLoop: Stmt<()> := While((), Read0(K), Seq((), InnerLoop, Rest), O)

  /** `k = true; j = true; while (k) { while (j < k) { k = false } j = false; weak.put() }` */
  const Nested: Stmt<()> := Let((), (), K, Pure(Read0(True)), Let((), (), J, Pure(Read0(True)), OuterLoop))

  const Step: Stmt<Label> := If(TOP, Strong(A), Put(K, False), Put(G, False))
  const InnerRound: Stmt<Label> := Let(TOP, TOP, A, Pure(Bin(TOP, Lt, Strong(J), Strong(K))), Step)
  const Inner: Stmt<Label> := Flagged(G, InnerRound, M)
  const RestLabelled: Stmt<Label> := Seq(TOP, Put(J, False), PutLabelled)
  const Turn: Stmt<Label> := Seq(TOP, Inner, RestLabelled)
  const OuterRound: Stmt<Label> := If(TOP, Strong(K), Turn, Put(F, False))
  const Outer: Stmt<Label> := Flagged(F, OuterRound, O)

  /** What the compiler makes of it. */
  const NestedLabelled: Stmt<Label> := Bind(K, True, Bind(J, True, Outer))

  // --- the program ---

  lemma InnerStep(w: World, j: int, k: int, fuel: nat) returns (w': World)
    requires Is(w, J, j) && Is(w, K, k) && Is(w, G, 1)
    ensures Exec(InnerRound, ARGS, w, fuel) == Done(w')
    ensures Hist(w', A) == Hist(w, A) + [Truth(j < k)] && Hist(w', J) == Hist(w, J) && w'.remote == w.remote
    ensures Hist(w', K) == (if j < k then Hist(w, K) + [0] else Hist(w, K)) && Is(w', G, Truth(j < k))
    ensures w'.loops == w.loops && Hist(w', F) == Hist(w, F)
  {
    var u := Write(w, A, Truth(j < k));
    assert Eval(InnerRound.rhs.e, Reads(ARGS, w)) == Some(Truth(j < k));
    assert Read(ARGS, u, A) == Some(Truth(j < k));
    var x := if j < k then K else G;
    w' := Write(u, x, 0);
    Puts(x, False, u, 0, fuel);
    assert Exec(Step, ARGS, u, fuel) == Exec(Put(x, False), ARGS, u, fuel);
  }

  /** One more round of the inner loop. */
  lemma InnerTurn(w: World, i: nat, j: int, k: int, fuel: nat) returns (w': World)
    requires Is(w, J, j) && Is(w, K, k) && Is(w, G, 1) && fuel > 0
    ensures Iterate(Inner.body, ARGS, w, i, fuel) == Iterate(Inner.body, ARGS, w', i + 1, fuel - 1)
    ensures Hist(w', A) == Hist(w, A) + [Truth(j < k)] && Hist(w', J) == Hist(w, J) && w'.remote == w.remote
    ensures Hist(w', K) == (if j < k then Hist(w, K) + [0] else Hist(w, K)) && Is(w', G, Truth(j < k))
    ensures Is(w', J, j) && Is(w', K, if j < k then 0 else k)
    ensures M in w'.loops && w'.loops[M] == i + 1 && Hist(w', F) == Hist(w, F)
  {
    w' := InnerStep(w.(loops := w.loops[M := i + 1]), j, k, fuel - 1);
    Around(Inner.body, ARGS, w, w', i, fuel);
  }

  lemma InnerEnds(w: World, i: nat, fuel: nat)
    requires Is(w, G, 0)
    ensures Iterate(Inner.body, ARGS, w, i, fuel) == Done(w)
  {
  }

  /** The inner loop has gone round `n` times. */
  ghost predicate Went(w: World, w': World, a: seq<int>, k: seq<int>, n: nat) {
    && Hist(w', A) == Hist(w, A) + a && Hist(w', K) == Hist(w, K) + k && Hist(w', J) == Hist(w, J) && Hist(w', F) == Hist(w, F)
    && w'.remote == w.remote && M in w'.loops && w'.loops[M] == n
  }

  lemma InnerIdle(w: World, fuel: nat) returns (w': World)
    requires Is(w, J, 1) && Is(w, K, 1) && fuel > 0
    ensures Exec(Inner, ARGS, w, fuel) == Done(w') && Went(w, w', [0], [], 1)
  {
    var w0 := Starts(G, InnerRound, M, w, fuel);
    w' := InnerTurn(w0, 0, 1, 1, fuel);
    InnerEnds(w', 1, fuel - 1);
    assert Hist(w, K) + [] == Hist(w, K);
  }

  lemma InnerTwice(w: World, fuel: nat) returns (w': World)
    requires Is(w, J, 0) && Is(w, K, 1) && Is(w, G, 1) && fuel > 1
    ensures Iterate(Inner.body, ARGS, w, 0, fuel) == Done(w')
    ensures Hist(w', A) == Hist(w, A) + [1] + [0] && Hist(w', K) == Hist(w, K) + [0] && Hist(w', J) == Hist(w, J) && Hist(w', F) == Hist(w, F)
    ensures w'.remote == w.remote && M in w'.loops && w'.loops[M] == 2
  {
    var w1 := InnerTurn(w, 0, 0, 1, fuel);
    w' := InnerTurn(w1, 1, 0, 0, fuel - 1);
    InnerEnds(w', 2, fuel - 2);
  }

  lemma InnerOnce(w: World, fuel: nat) returns (w': World)
    requires Is(w, J, 0) && Is(w, K, 1) && fuel > 1
    ensures Exec(Inner, ARGS, w, fuel) == Done(w') && Went(w, w', [1, 0], [0], 2)
  {
    var w0 := Starts(G, InnerRound, M, w, fuel);
    w' := InnerTwice(w0, fuel);
    assert Hist(w, A) + [1] + [0] == Hist(w, A) + [1, 0];
  }

  lemma TurnEnds(w: World, w1: World, fuel: nat) returns (w': World)
    requires Exec(Inner, ARGS, w, fuel) == Done(w1)
    ensures Exec(Turn, ARGS, w, fuel) == Done(w') && Is(w', J, 0)
    ensures Hist(w', A) == Hist(w1, A) && Hist(w', K) == Hist(w1, K) && Hist(w', F) == Hist(w1, F) && w'.loops == w1.loops
    ensures Received(w'.remote, BOTTOM) == Received(w1.remote, BOTTOM) + [PUT]
  {
    var w2 := Write(w1, J, 0);
    w' := w2.(remote := Send(ARGS, w2.remote, BOTTOM, PUT).0);
    Puts(J, False, w1, 0, fuel);
    PutSends(w2, fuel);
    After(Put(J, False), PutLabelled, ARGS, w1, w2, fuel);
    After(Inner, RestLabelled, ARGS, w, w1, fuel);
  }

  lemma OuterTurn(w: World, w': World, i: nat, fuel: nat)
    requires Is(w, K, 1) && Is(w, F, 1) && fuel > 0
    requires Exec(Turn, ARGS, w.(loops := w.loops[O := i + 1]), fuel - 1) == Done(w')
    ensures Iterate(Outer.body, ARGS, w, i, fuel) == Iterate(Outer.body, ARGS, w', i + 1, fuel - 1)
  {
    assert Exec(OuterRound, ARGS, w.(loops := w.loops[O := i + 1]), fuel - 1) == Done(w');
    Around(Outer.body, ARGS, w, w', i, fuel);
  }

  lemma Round1(w: World, fuel: nat) returns (w': World)
    requires Is(w, K, 1) && Is(w, J, 1) && Is(w, F, 1) && fuel > 1
    ensures Iterate(Outer.body, ARGS, w, 0, fuel) == Iterate(Outer.body, ARGS, w', 1, fuel - 1)
    ensures Is(w', K, 1) && Is(w', J, 0) && Is(w', F, 1) && Hist(w', K) == Hist(w, K) && Hist(w', A) == Hist(w, A) + [0]
    ensures Received(w'.remote, BOTTOM) == Received(w.remote, BOTTOM) + [PUT]
  {
    var v := w.(loops := w.loops[O := 1]);
    var u := InnerIdle(v, fuel - 1);
    w' := TurnEnds(v, u, fuel - 1);
    OuterTurn(w, w', 0, fuel);
  }

  lemma Round2(w: World, fuel: nat) returns (w': World)
    requires Is(w, K, 1) && Is(w, J, 0) && Is(w, F, 1) && fuel > 2
    ensures Iterate(Outer.body, ARGS, w, 1, fuel) == Iterate(Outer.body, ARGS, w', 2, fuel - 1)
    ensures Is(w', K, 0) && Is(w', F, 1) && Hist(w', K) == Hist(w, K) + [0] && Hist(w', A) == Hist(w, A) + [1, 0]
    ensures Received(w'.remote, BOTTOM) == Received(w.remote, BOTTOM) + [PUT] && M in w'.loops && w'.loops[M] == 2
  {
    var v := w.(loops := w.loops[O := 2]);
    var u := InnerOnce(v, fuel - 1);
    w' := TurnEnds(v, u, fuel - 1);
    OuterTurn(w, w', 1, fuel);
  }

  lemma Round3(w: World, fuel: nat) returns (w': World)
    requires Is(w, K, 0) && Is(w, F, 1) && fuel > 0
    ensures Iterate(Outer.body, ARGS, w, 2, fuel) == Done(w')
    ensures Hist(w', K) == Hist(w, K) && Hist(w', A) == Hist(w, A) && w'.remote == w.remote && w'.loops == w.loops[O := 3]
  {
    var v := w.(loops := w.loops[O := 3]);
    w' := Write(v, F, 0);
    Puts(F, False, v, 0, fuel - 1);
    assert Exec(OuterRound, ARGS, v, fuel - 1) == Done(w');
    Around(Outer.body, ARGS, w, w', 2, fuel);
    assert Iterate(Outer.body, ARGS, w', 3, fuel - 1) == Done(w');
  }

  lemma OuterRuns(w: World, fuel: nat) returns (w': World)
    requires Is(w, K, 1) && Is(w, J, 1) && Is(w, F, 1) && fuel >= 4
    ensures Iterate(Outer.body, ARGS, w, 0, fuel) == Done(w')
    ensures Hist(w', K) == Hist(w, K) + [0] && Hist(w', A) == Hist(w, A) + [0] + [1, 0]
    ensures O in w'.loops && w'.loops[O] == 3 && M in w'.loops && w'.loops[M] == 2
    ensures Received(w'.remote, BOTTOM) == Received(w.remote, BOTTOM) + [PUT] + [PUT]
  {
    var w1 := Round1(w, fuel);
    var w2 := Round2(w1, fuel - 1);
    w' := Round3(w2, fuel - 2);
  }

  lemma NestedSource(remote: map<Label, seq<Event>>, fuel: nat) returns (fin: World)
    requires fuel >= 4
    ensures Exec(NestedLabelled, ARGS, Start(remote), fuel) == Done(fin)
    ensures Hist(fin, K) == [1, 0] && Hist(fin, A) == [0, 1, 0]
    ensures O in fin.loops && fin.loops[O] == 3 && M in fin.loops && fin.loops[M] == 2
    ensures Received(fin.remote, BOTTOM) == Received(remote, BOTTOM) + [PUT, PUT]
  {
    var w := Bound2(K, J, Outer, remote, fuel);
    var w0 := Starts(F, OuterRound, O, w, fuel);
    fin := OuterRuns(w0, fuel);
    assert [] + [0] + [1, 0] == [0, 1, 0] && [1] + [0] == [1, 0];
    assert Received(remote, BOTTOM) + [PUT] + [PUT] == Received(remote, BOTTOM) + [PUT, PUT];
  }

  // --- its weak phase ---

  const InnerRoundWeak: PStmt := PSeq(PIncrement(A), PIf(Read0(A), PIncrement(K), PIncrement(G)))
  const InnerWeak: PStmt := PSeq(PIncrement(G), PForEach(InnerRoundWeak, M))
  const RestWeak: PStmt := PSeq(PIncrement(J), PPerform(PutStmt.call))
  const OuterRoundWeak: PStmt := PIf(Read0(K), PSeq(InnerWeak, RestWeak), PIncrement(F))
  const OuterWeak: PStmt := PSeq(PIncrement(F), PForEach(OuterRoundWeak, O))

  lemma NestedProject()
    ensures Project(BOTTOM, NestedLabelled) == PSeq(PIncrement(K), PSeq(PIncrement(J), OuterWeak))
  {
    PutStrips();
    assert Project(BOTTOM, Step) == PIf(Read0(A), PIncrement(K), PIncrement(G));
    assert Project(BOTTOM, InnerRound) == InnerRoundWeak && Project(BOTTOM, RestLabelled) == RestWeak;
    assert Project(BOTTOM, Inner.body) == PForEach(InnerRoundWeak, M);
    assert Project(BOTTOM, Inner) == InnerWeak && Project(BOTTOM, Turn) == PSeq(InnerWeak, RestWeak);
    assert Project(BOTTOM, OuterRound) == OuterRoundWeak;
    assert Project(BOTTOM, Outer.body) == PForEach(OuterRoundWeak, O) && Project(BOTTOM, Outer) == OuterWeak;
    assert Project(BOTTOM, Bind(J, True, Outer)) == PSeq(PIncrement(J), OuterWeak);
  }

  lemma Moves(x: Name, st: Store, fuel: nat) returns (st': Store)
    ensures Run(PIncrement(x), ARGS, st, fuel) == Done(st') && st'.loops == st.loops && st'.remote == st.remote
    ensures forall y :: At(st', y) == if y == x then Increment(At(st, y)) else At(st, y)
  {
    st' := Update(st, x, Increment(At(st, x)));
  }

  /** Both counted rounds of the inner loop: the second belongs to the next round of the outer one. */
  lemma InnerWeakRuns(st: Store, fuel: nat) returns (st': Store)
    requires At(st, A) == Holder([0, 1, 0], -1) && At(st, K) == Holder([1, 0], 0) && M in st.loops && st.loops[M] == 2
    ensures Run(InnerWeak, ARGS, st, fuel) == Done(st')
    ensures At(st', K) == Holder([1, 0], 1) && st'.loops == st.loops && st'.remote == st.remote
  {
    var st1 := Moves(G, st, fuel);
    var st2 := Moves(A, st1, fuel);
    var st3 := Moves(G, st2, fuel);
    Then(PIncrement(A), InnerRoundWeak.rest, ARGS, st1, st2, fuel);
    assert Get(ARGS, st2, A) == Some(0) && Run(InnerRoundWeak.rest, ARGS, st2, fuel) == Done(st3);
    var st4 := Moves(A, st3, fuel);
    st' := Moves(K, st4, fuel);
    Then(PIncrement(A), InnerRoundWeak.rest, ARGS, st3, st4, fuel);
    assert Get(ARGS, st4, A) == Some(1) && Run(InnerRoundWeak.rest, ARGS, st4, fuel) == Done(st');
    InnerCounts(st, st1, st3, st', fuel);
  }

  lemma InnerCounts(st: Store, st1: Store, st2: Store, st3: Store, fuel: nat)
    requires Run(PIncrement(G), ARGS, st, fuel) == Done(st1) && M in st1.loops && st1.loops[M] == 2
    requires Run(InnerRoundWeak, ARGS, st1, fuel) == Done(st2) && Run(InnerRoundWeak, ARGS, st2, fuel) == Done(st3)
    ensures Run(InnerWeak, ARGS, st, fuel) == Done(st3)
  {
    var loop := PForEach(InnerRoundWeak, M);
    Again(loop, ARGS, st1, st2, 2, fuel);
    Again(loop, ARGS, st2, st3, 1, fuel);
    Then(PIncrement(G), loop, ARGS, st, st1, fuel);
  }

  lemma FirstWeak(st: Store, fuel: nat) returns (st': Store)
    requires At(st, A) == Holder([0, 1, 0], -1) && At(st, K) == Holder([1, 0], 0) && M in st.loops && st.loops[M] == 2
    ensures Run(OuterRoundWeak, ARGS, st, fuel) == Done(st') && At(st', K) == Holder([1, 0], 1)
    ensures Received(st'.remote, BOTTOM) == Received(st.remote, BOTTOM) + [PUT]
  {
    var st1 := InnerWeakRuns(st, fuel);
    var st2 := Moves(J, st1, fuel);
    st' := st2.(remote := Send(ARGS, st2.remote, BOTTOM, PUT).0);
    PutSendsInPhase(st2, fuel);
    Then(PIncrement(J), PPerform(PutStmt.call), ARGS, st1, st2, fuel);
    Then(InnerWeak, RestWeak, ARGS, st, st1, fuel);
    assert Get(ARGS, st, K) == Some(1);
  }

  lemma IdleWeak(st: Store, fuel: nat) returns (st': Store)
    requires At(st, K) == Holder([1, 0], 1)
    ensures Run(OuterRoundWeak, ARGS, st, fuel) == Done(st') && At(st', K) == At(st, K) && st'.remote == st.remote
  {
    assert Get(ARGS, st, K) == Some(0);
    st' := Moves(F, st, fuel);
  }

  lemma OuterWeakRuns(st: Store, fuel: nat) returns (st': Store)
    requires At(st, A) == Holder([0, 1, 0], -1) && At(st, K) == Holder([1, 0], 0)
    requires M in st.loops && st.loops[M] == 2 && O in st.loops && st.loops[O] == 3
    ensures Run(OuterWeak, ARGS, st, fuel) == Done(st') && Received(st'.remote, BOTTOM) == Received(st.remote, BOTTOM) + [PUT]
  {
    var loop := PForEach(OuterRoundWeak, O);
    var st1 := Moves(F, st, fuel);
    var st2 := FirstWeak(st1, fuel);
    var st3 := IdleWeak(st2, fuel);
    st' := IdleWeak(st3, fuel);
    Again(loop, ARGS, st1, st2, 3, fuel);
    Again(loop, ARGS, st2, st3, 2, fuel);
    Again(loop, ARGS, st3, st', 1, fuel);
    Then(PIncrement(F), loop, ARGS, st, st1, fuel);
  }

  lemma NestedWeak(st: Store, fuel: nat) returns (st': Store)
    requires At(st, A) == Holder([0, 1, 0], -1) && At(st, K) == Holder([1, 0], -1)
    requires M in st.loops && st.loops[M] == 2 && O in st.loops && st.loops[O] == 3
    ensures Run(Project(BOTTOM, NestedLabelled), ARGS, st, fuel) == Done(st')
    ensures Received(st'.remote, BOTTOM) == Received(st.remote, BOTTOM) + [PUT]
  {
    NestedProject();
    var st1 := Moves(K, st, fuel);
    var st2 := Moves(J, st1, fuel);
    st' := OuterWeakRuns(st2, fuel);
    Then(PIncrement(J), OuterWeak, ARGS, st1, st2, fuel);
    Then(PIncrement(K), PSeq(PIncrement(J), OuterWeak), ARGS, st, st1, fuel);
  }

  // --- that it is compiled so ---

  lemma InnerFlows(scope: Places)
    requires scope == map[K := HERE, J := HERE, F := HERE]
    ensures StmtFlows(ARGS, scope, TOP, Inner)
  {
    var s := scope[G := HERE];
    var t := s[A := HERE];
    assert StmtFlows(ARGS, t, TOP, Put(K, False)) && StmtFlows(ARGS, t, TOP, Put(G, False));
    assert StmtFlows(ARGS, t, TOP, Step);
    assert ExprFlows(ARGS, s, Strong(J)) && ExprFlows(ARGS, s, Strong(K)) && ExprFlows(ARGS, s, InnerRound.rhs.e);
    assert StmtFlows(ARGS, s, TOP, InnerRound);
    FlaggedFlows(scope, G, InnerRound, M);
  }

  lemma NestedFlows()
    ensures StmtFlows(ARGS, map[], TOP, NestedLabelled)
  {
    var scope: Places := map[][K := HERE][J := HERE];
    var s := scope[F := HERE];
    assert s == map[K := HERE, J := HERE, F := HERE];
    assert IsInput(ARGS, WEAK) && WEAK !in s;
    InnerFlows(s);
    ListFlows(s, Put(J, False), PutLabelled);
    ListFlows(s, Inner, RestLabelled);
    LoopFlows(scope, F, K, Turn, O);
    BindFlows(map[][K := HERE], J, True, Outer);
    BindFlows(map[], K, True, Bind(J, True, Outer));
  }

  const StepPlain: Stmt<()> := If((), Read0(A), Assign((), Ref((), K), Read0(False)), Assign((), Ref((), G), Read0(False)))
  const InnerPlain: Stmt<()> := Let((), (), G, Pure(Read0(True)), While((), Read0(G), Let((), (), A, Pure(Less), StepPlain), M))
  const TurnPlain: Stmt<()> := Seq((), InnerPlain, Rest)

  lemma InnerLooks()
    ensures Looks(Inner, InnerPlain, {M})
  {
    PutLooks(K, False);
    PutLooks(G, False);
    BranchLooks(A, Put(K, False), Put(G, False), StepPlain.thn, StepPlain.els, {}, {});
    assert Unnamed(Less) == 1;
    assert Looks(InnerRound, Let((), (), A, Pure(Less), StepPlain), {});
    FlaggedLooks(G, InnerRound, Let((), (), A, Pure(Less), StepPlain), {}, M);
  }

  lemma TurnLooks()
    ensures Looks(Turn, TurnPlain, {M})
  {
    InnerLooks();
    SendLooks();
    PutLooks(J, False);
    ListLooks(Put(J, False), PutLabelled, Rest.first, PutStmt, {}, {});
    ListLooks(Inner, RestLabelled, InnerPlain, Rest, {M}, {});
  }

  const OuterPlain: Stmt<()> :=
    Let((), (), F, Pure(Read0(True)), While((), Read0(F), If((), Read0(K), TurnPlain, Assign((), Ref((), F), Read0(False))), O))

  lemma NestedLooks()
    ensures Looks(NestedLabelled, Let((), (), K, Pure(Read0(True)), Let((), (), J, Pure(Read0(True)), OuterPlain)), {O, M})
  {
    TurnLooks();
    PutLooks(F, False);
    var stop := Assign((), Ref((), F), Read0(False));
    BranchLooks(K, Turn, Put(F, False), TurnPlain, stop, {M}, {});
    FlaggedLooks(F, OuterRound, If((), Read0(K), TurnPlain, stop), {M}, O);
    BindLooks(J, True, Outer, OuterPlain, {O} + {M});
    BindLooks(K, True, Bind(J, True, Outer), Let((), (), J, Pure(Read0(True)), OuterPlain), {O} + {M});
  }

  // the condition of the inner loop is named, everything else stays as desugaring leaves it

  const StepDesugared: Stmt<()> := If((), Less, Assign((), Ref((), K), Read0(False)), Assign((), Ref((), G), Read0(False)))
  const InnerDesugared: Stmt<()> := Let((), (), G, Pure(Read0(True)), While((), Read0(G), StepDesugared, M))

  lemma InnerFlattens(seqnum: int, depth: int)
    requires depth == 6 && seqnum == 1
    ensures FlattenExprs(seqnum, depth, InnerDesugared) == InnerPlain
  {
    InnerLooks();
    FlatStays(seqnum, depth + 3, Let((), (), A, Pure(Less), StepPlain));
    assert !FlatHeader(StepDesugared) && Partial(Anorm(seqnum, depth + 2), StepDesugared) == Let((), (), A, Pure(Less), StepPlain);
    assert FlattenExprs(seqnum, depth + 2, StepDesugared) == FlattenExprs(seqnum, depth + 3, Let((), (), A, Pure(Less), StepPlain));
    assert FlattenExprs(seqnum, depth + 1, InnerDesugared.body) == InnerPlain.body;
  }

  const RoundDesugared: Stmt<()> := If((), Read0(K), Seq((), InnerDesugared, Rest), Assign((), Ref((), F), Read0(False)))
  const OuterDesugared: Stmt<()> := Let((), (), F, Pure(Read0(True)), While((), Read0(F), RoundDesugared, O))

  lemma OuterDesugars(seqnum: int, depth: int)
    requires depth == 3 && seqnum == 1
    ensures DesugarWhile(seqnum, depth, OuterLoop) == OuterDesugared
  {
    NoLoopsStays(seqnum, depth + 2, InnerLoop.body);
    assert DesugarWhile(seqnum, depth + 1, InnerLoop) == InnerDesugared;
    NoLoopsStays(seqnum + 1, depth + 1, Rest);
    assert DesugarWhile(seqnum, depth + 1, OuterLoop.body) == Seq((), InnerDesugared, Rest);
  }

  lemma RoundFlattens(seqnum: int, depth: int)
    requires depth == 5 && seqnum == 1
    ensures FlattenExprs(seqnum, depth, RoundDesugared) == OuterPlain.body.body
  {
    InnerFlattens(seqnum, depth + 1);
    SendLooks();
    FlatStays(seqnum + 1, depth + 1, Rest);
    assert FlattenExprs(seqnum, depth + 1, RoundDesugared.thn) == TurnPlain;
    FlatStays(seqnum + 1, depth + 1, RoundDesugared.els);
  }

  lemma OuterFlattens(seqnum: int, depth: int)
    requires depth == 3 && seqnum == 1
    ensures FlattenExprs(seqnum, depth, OuterDesugared) == OuterPlain
  {
    RoundFlattens(seqnum, depth + 2);
    assert FlattenExprs(seqnum, depth + 1, OuterDesugared.body) == OuterPlain.body;
  }

  function InFront(s: Stmt<()>): Stmt<()> {
    Let((), (), K, Pure(Read0(True)), Let((), (), J, Pure(Read0(True)), s))
  }

  lemma NestedFlattens()
    ensures FlattenExpressions(Nested) == InFront(OuterPlain)
  {
    OuterDesugars(1, 3);
    OuterFlattens(1, 3);
    assert DesugarWhile(1, 2, Nested.body) == InFront(OuterDesugared).body;
    assert FlattenExprs(1, 2, InFront(OuterDesugared).body) == InFront(OuterPlain).body;
  }

  lemma InnerNamed()
    ensures NameIn(2, 2, Inner) == Inner && NameList(3, 2, RestLabelled) == RestLabelled
  {
    assert Loops(Step) == {} && Loops(InnerRound) == {};
    LoopNamed(2, 2, G, InnerRound, M);
    assert Loops(RestLabelled) == {};
    NoLoopsNamed(3, 2, RestLabelled);
  }

  lemma ListNamed(seqnum: int, depth: int, a: Stmt<Label>, b: Stmt<Label>)
    requires NameIn(seqnum, depth, a) == a && NameList(seqnum + 1, depth, b) == b
    ensures NameIn(seqnum - 1, depth, Seq(TOP, a, b)) == Seq(TOP, a, b)
  {
    assert NameList(seqnum, depth, Seq(TOP, a, b)) == Seq(TOP, a, b);
  }

  lemma RoundNamed()
    ensures NameIn(1, 2, OuterRound) == OuterRound
  {
    InnerNamed();
    ListNamed(2, 2, Inner, RestLabelled);
  }

  lemma NestedNamed()
    ensures Named(NestedLabelled) == NestedLabelled
  {
    RoundNamed();
    assert NameIn(1, 1, Outer.body) == Outer.body;
    assert NameIn(1, 1, Bind(J, True, Outer)) == Bind(J, True, Outer);
  }

  lemma NestedIsParsed()
    ensures Parsed(Nested)
  {
    CallsAreParsed();
    assert Names(Less) == {J, K};
    assert Parsed(InnerLoop) && Parsed(Rest) && Parsed(OuterLoop.body) && Parsed(OuterLoop) && Parsed(Nested.body);
  }

  lemma NestedIsCompiled()
    ensures CompilesTo(ARGS, Nested, NestedLabelled) && AllStrong(NestedLabelled)
  {
    NestedLooks();
    NestedNamed();
    NestedFlows();
    NestedFlattens();
    NestedIsParsed();
    StrongIsCompiled(Nested, NestedLabelled);
  }

  lemma NestedNests()
    ensures !LoopsOnce(TopSig, BOTTOM, NestedLabelled) && !Tidy(Nested)
  {
    TurnLooks();
    assert M in Loops(Turn) && M in Loops(OuterRound) && !LoopsOnce(TopSig, BOTTOM, Outer.body) && !LoopsOnce(TopSig, BOTTOM, Outer);
    assert !LoopsOnce(TopSig, BOTTOM, Bind(J, True, Outer));
    assert M in Loops(InnerLoop) && M in Loops(OuterLoop.body) && !Tidy(OuterLoop) && !Tidy(Nested.body);
  }

  lemma NestedPhases(remote: map<Label, seq<Event>>, fin: World, fuel: nat)
    requires StmtFlows(ARGS, map[], TOP, NestedLabelled) && AllStrong(NestedLabelled)
    requires Exec(NestedLabelled, ARGS, Start(remote), fuel) == Done(fin)
    requires Hist(fin, K) == [1, 0] && Hist(fin, A) == [0, 1, 0]
    requires O in fin.loops && fin.loops[O] == 3 && M in fin.loops && fin.loops[M] == 2
    ensures var r := RunPhases(PHASES, NestedLabelled, ARGS, Launch(remote), fuel);
            r.Done? && Received(r.s.remote, BOTTOM) == Received(remote, BOTTOM) + [PUT]
  {
    var st := StrongPhase(NestedLabelled, remote, fin, fuel);
    BetweenPhases(st, K);
    BetweenPhases(st, A);
    assert At(st, K).log == Hist(fin, K) && At(st, A).log == Hist(fin, A);
    assert KeepsLoop(st.loops, fin.loops, O) && KeepsLoop(st.loops, fin.loops, M);
    var b := BeginPhase(st);
    assert b.loops == st.loops && b.remote == st.remote;
    var st' := NestedWeak(b, fuel);
    TwoPhases(NestedLabelled, ARGS, Launch(remote), fuel);
  }

  /** Everything but `LoopsOnce` holds, and the loops have different names. The weak phase goes round the
      inner loop twice in the first round already, and makes one call instead of two. */
  lemma UnnestedLoopsAreNeeded(remote: map<Label, seq<Event>>, fuel: nat)
    requires fuel >= 4
    ensures CompilesTo(ARGS, Nested, NestedLabelled) && M != O
    ensures Described(TopSig, ARGS, NestedLabelled) && CallsPermitted(TOP, NestedLabelled) && LateOnce(TopSig, NestedLabelled)
    ensures !LoopsOnce(TopSig, BOTTOM, NestedLabelled) && !Tidy(Nested)
    ensures var w, r := Exec(NestedLabelled, ARGS, Start(remote), fuel), RunPhases(PHASES, NestedLabelled, ARGS, Launch(remote), fuel);
            && w.Done? && Received(w.s.remote, BOTTOM) == Received(remote, BOTTOM) + [PUT, PUT]
            && r.Done? && Received(r.s.remote, BOTTOM) == Received(remote, BOTTOM) + [PUT]
  {
    NestedIsCompiled();
    NestedFlows();
    StrongIs(NestedLabelled);
    NestedNests();
    var fin := NestedSource(remote, fuel);
    NestedPhases(remote, fin, fuel);
  }
}
