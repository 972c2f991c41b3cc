/** Programs that show counters must not be reused: the compiler accepts them, and a phase that goes by
    the counters does something else than the program. */
module LoopNecessity {
  import opened Labels
  import opened Syntax
  import opened Semantics
  import opened SplitPhase
  import opened PhaseRun
  import opened WellLabelled
  import opened Flows
  import opened Replay
  import opened Phases
  import opened Flatten
  import opened DesugarCorrect
  import opened NameLoops
  import opened EndToEnd
  import opened Complete
  import opened Samples

  /** Everything is strong, but the calls. */
  const TopSig := Sig(x => TOP, x => TOP, x => false, n => TOP)

  /** A variable, as the strong phase sees it. */
  function Strong(x: Name): Expr<Label> {
    ReadAt(TOP, x)
  }

  function Put(x: Name, y: Name): Stmt<Label> {
    Assign(TOP, Ref(TOP, x), Strong(y))
  }

  function Bind(x: Name, y: Name, body: Stmt<Label>): Stmt<Label> {
    Let(TOP, TOP, x, Pure(Strong(y)), body)
  }

  /** A loop as desugaring leaves it: `f = true; while (f) round`. */
  function Flagged(f: Name, round: Stmt<Label>, n: LoopName): Stmt<Label> {
    Bind(f, True, While(TOP, Strong(f), round, n))
  }

  /** `while (cond) body`, where nothing has to be named in front of the condition. */
  function LoopOf(f: Name, cond: Expr<Label>, body: Stmt<Label>, n: LoopName): Stmt<Label> {
    Flagged(f, If(TOP, cond, body, Put(f, False)), n)
  }

  // --- what is strong throughout ---

  predicate AllStrong(q: Stmt<Label>) {
    match q
    case Let(l, bl, x, rhs, body) => l == TOP && bl == TOP && !IsInput(ARGS, x) && rhs.Pure? && AllStrong(body)
    case Assign(_, r, _) => !IsInput(ARGS, r.x)
    case Perform(_, c) => c.handleLabel == BOTTOM
    case If(l, _, a, b) => l == TOP && AllStrong(a) && AllStrong(b)
    case While(l, _, body, _) => l == TOP && AllStrong(body)
    case Seq(_, a, b) => AllStrong(a) && AllStrong(b)
    case _ => true
  }

  lemma {:induction false} StrongIs(q: Stmt<Label>)
    requires AllStrong(q)
    ensures Described(TopSig, ARGS, q) && CallsPermitted(TOP, q) && LateOnce(TopSig, q) && LoopsOnce(TopSig, TOP, q) && AllTop(q)
  {
    match q
    case Let(_, _, _, _, body) => StrongIs(body);
    case If(_, _, a, b) =>
      StrongIs(a);
      StrongIs(b);
    case While(_, _, body, _) => StrongIs(body);
    case Seq(_, a, b) =>
      StrongIs(a);
      StrongIs(b);
    case _ =>
  }

  /** The strong phase of such a program does what the program does, but for the calls. */
  lemma StrongPhase(q: Stmt<Label>, remote: map<Label, seq<Event>>, fin: World, fuel: nat) returns (st: Store)
    requires StmtFlows(ARGS, map[], TOP, q) && AllStrong(q) && Exec(q, ARGS, Start(remote), fuel) == Done(fin)
    ensures Run(Project(TOP, q), ARGS, BeginPhase(Launch(remote)), fuel) == Done(st)
    ensures forall x :: At(st, x).log == Hist(fin, x)
    ensures forall n :: KeepsLoop(st.loops, fin.loops, n)
    ensures Received(st.remote, BOTTOM) == Received(remote, BOTTOM)
  {
    StrongIs(q);
    FlowsIsOk(TopSig, ARGS, {}, map[], TOP, q);
    Confined(TopSig, ARGS, {}, TOP, q, Start(remote), fuel);
    var base := Launch(remote);
    forall x ensures At(base, x).log == LogAbove(TopSig, TOP, Hist(fin, x), x) {}
    st := OnePhase(TopSig, ARGS, TOP, TOP, q, remote, fin, base, fuel);
    var c := Phase(TopSig, ARGS, TOP, fin, base);
    forall x ensures At(st, x).log == Hist(fin, x) {
      assert VarFollows(c, fin, st, x);
    }
    forall n ensures KeepsLoop(st.loops, fin.loops, n) {
      assert TopSig.loop(n) == c.l;
    }
    assert Received(st.remote, BOTTOM) == Received(base.remote, BOTTOM);
  }

  lemma StrongIsCompiled(p: Stmt<()>, q: Stmt<Label>)
    requires Parsed(p) && FlattenExpressions(p) == StripStmt(q) && Named(q) == q && StmtFlows(ARGS, map[], TOP, q) && AllStrong(q)
    ensures CompilesTo(ARGS, p, q)
  {
    ArgsAreUsers(ARGS);
    StrongIs(q);
    TopPicks(1, 1, q);
    forall r | Plain(r) == Plain(q) && StmtFlows(ARGS, map[], TOP, r) ensures Weaker(r, q) {
      TopIsStrongest(r, q);
    }
    StrongestIsCompiled(ARGS, t => TOP, p, q);
  }

  /** The last value written to `x`. */
  ghost predicate Is(w: World, x: Name, v: int) {
    !IsInput(ARGS, x) && Hist(w, x) != [] && Hist(w, x)[|Hist(w, x)| - 1] == v
  }

  /** `x = y` */
  lemma Puts(x: Name, y: Name, w: World, v: int, fuel: nat)
    requires Read(ARGS, w, y) == Some(v) && !IsInput(ARGS, x)
    ensures Exec(Put(x, y), ARGS, w, fuel) == Done(Write(w, x, v)) && Is(Write(w, x, v), x, v)
  {
  }

  lemma Starts(f: Name, round: Stmt<Label>, n: LoopName, w: World, fuel: nat) returns (w0: World)
    requires !IsInput(ARGS, f)
    ensures Exec(Flagged(f, round, n), ARGS, w, fuel) == Iterate(Flagged(f, round, n).body, ARGS, w0, 0, fuel)
    ensures Is(w0, f, 1) && w0.remote == w.remote && forall x | x != f :: Hist(w0, x) == Hist(w, x)
  {
    var v := Write(w, f, 1);
    w0 := v.(loops := v.loops[n := 0]);
    assert Exec(Flagged(f, round, n).body, ARGS, v, fuel) == Iterate(Flagged(f, round, n).body, ARGS, w0, 0, fuel);
  }

  // --- parts of compiled programs ---

  const HERE := Place(TOP, TOP)

  lemma BindFlows(scope: Places, x: Name, y: Name, body: Stmt<Label>)
    requires RefFlows(ARGS, scope, Ref(TOP, y)) && StmtFlows(ARGS, scope[x := HERE], TOP, body)
    ensures StmtFlows(ARGS, scope, TOP, Bind(x, y, body))
  {
  }

  lemma FlaggedFlows(scope: Places, f: Name, round: Stmt<Label>, n: LoopName)
    requires True !in scope && StmtFlows(ARGS, scope[f := HERE], TOP, round)
    ensures StmtFlows(ARGS, scope, TOP, Flagged(f, round, n))
  {
    BindFlows(scope, f, True, Flagged(f, round, n).body);
  }

  lemma LoopFlows(scope: Places, f: Name, x: Name, body: Stmt<Label>, n: LoopName)
    requires True !in scope && False !in scope && f != False && RefFlows(ARGS, scope[f := HERE], Ref(TOP, x))
    requires StmtFlows(ARGS, scope[f := HERE], TOP, body)
    ensures StmtFlows(ARGS, scope, TOP, LoopOf(f, Strong(x), body, n))
  {
    assert StmtFlows(ARGS, scope[f := HERE], TOP, Put(f, False));
    FlaggedFlows(scope, f, If(TOP, Strong(x), body, Put(f, False)), n);
  }

  lemma ListFlows(scope: Places, a: Stmt<Label>, b: Stmt<Label>)
    requires StmtFlows(ARGS, scope, TOP, a) && StmtFlows(ARGS, scope, TOP, b)
    ensures StmtFlows(ARGS, scope, TOP, Seq(TOP, a, b))
  {
  }

  /** What a compiled program is without its labels, and that it is all strong and flat. */
  ghost predicate Looks(q: Stmt<Label>, s: Stmt<()>, loops: set<LoopName>) {
    StripStmt(q) == s && InAnf(s) && AllStrong(q) && Loops(q) == loops
  }

  lemma PutLooks(x: Name, y: Name)
    requires !IsInput(ARGS, x)
    ensures Looks(Put(x, y), Assign((), Ref((), x), Read0(y)), {})
  {
  }

  lemma ListLooks(a: Stmt<Label>, b: Stmt<Label>, s: Stmt<()>, t: Stmt<()>, m: set<LoopName>, n: set<LoopName>)
    requires Looks(a, s, m) && Looks(b, t, n)
    ensures Looks(Seq(TOP, a, b), Seq((), s, t), m + n)
  {
  }

  lemma BranchLooks(x: Name, a: Stmt<Label>, b: Stmt<Label>, s: Stmt<()>, t: Stmt<()>, m: set<LoopName>, n: set<LoopName>)
    requires Looks(a, s, m) && Looks(b, t, n)
    ensures Looks(If(TOP, Strong(x), a, b), If((), Read0(x), s, t), m + n)
  {
  }

  lemma BindLooks(x: Name, y: Name, a: Stmt<Label>, s: Stmt<()>, m: set<LoopName>)
    requires !IsInput(ARGS, x) && Looks(a, s, m)
    ensures Looks(Bind(x, y, a), Let((), (), x, Pure(Read0(y)), s), m)
  {
  }

  lemma WhileLooks(x: Name, a: Stmt<Label>, s: Stmt<()>, m: set<LoopName>, n: LoopName)
    requires Looks(a, s, m)
    ensures Looks(While(TOP, Strong(x), a, n), While((), Read0(x), s, n), {n} + m)
  {
  }

  lemma FlaggedLooks(f: Name, round: Stmt<Label>, s: Stmt<()>, m: set<LoopName>, n: LoopName)
    requires !IsInput(ARGS, f) && Looks(round, s, m)
    ensures Looks(Flagged(f, round, n), Let((), (), f, Pure(Read0(True)), While((), Read0(f), s, n)), {n} + m)
  {
    WhileLooks(f, round, s, m, n);
    BindLooks(f, True, While(TOP, Strong(f), round, n), While((), Read0(f), s, n), {n} + m);
  }

  /** A loop on a variable, desugared. */
  lemma LoopLooks(seqnum: int, depth: int, x: Name, body: Stmt<Label>, s: Stmt<()>, n: LoopName)
    requires Looks(body, s, {})
    ensures Looks(LoopOf(Flag(seqnum, depth), Strong(x), body, n), DesugarWhile(seqnum, depth, While((), Read0(x), s, n)), {n})
  {
    var f := Flag(seqnum, depth);
    NoLoopsStays(seqnum, depth + 1, s) by { StripLoops(body); }
    PutLooks(f, False);
    BranchLooks(x, body, Put(f, False), s, Assign((), Ref((), f), Read0(False)), {}, {});
    FlaggedLooks(f, If(TOP, Strong(x), body, Put(f, False)), If((), Read0(x), s, Assign((), Ref((), f), Read0(False))), {}, n);
  }

  lemma SkipLooks()
    ensures Looks(Skip(TOP), Skip(()), {})
  {
  }

  lemma SendLooks()
    ensures Looks(PutLabelled, PutStmt, {})
  {
    PutStrips();
  }

  /** A loop whose round has no loops is named by its place. */
  lemma LoopNamed(seqnum: int, depth: int, f: Name, round: Stmt<Label>, n: LoopName)
    requires Loops(round) == {} && n == Loop(seqnum, depth)
    ensures NameIn(seqnum, depth, Flagged(f, round, n)) == Flagged(f, round, n)
  {
    NoLoopsNamed(seqnum, depth + 1, round);
    assert NameIn(seqnum, depth, Flagged(f, round, n).body) == Flagged(f, round, n).body;
  }

  // --- two loops, one counter ---

  const F1 := Flag(1, 4)
  const F2 := Flag(2, 3)
  const N := Loop(3, 1)

  /** `k = true; j = true; if (true) { while (k) { k = j; j = false; weak.put() } } while (false) {}` */
  const Loops2: Stmt<()> :=
    Let((), (), K, Pure(Read0(True)),
        Let((), (), J, Pure(Read0(True)),
            Seq((), If((), Read0(True),
                       Seq((), While((), Read0(K),
                                     Seq((), Assign((), Ref((), K), Read0(J)), Seq((), Assign((), Ref((), J), Read0(False)), PutStmt)), N),
                               Skip(())),
                       Skip(())),
                    Seq((), While((), Read0(False), Skip(()), N), Skip(())))))

  const Turn: Stmt<Label> := Seq(TOP, Put(K, J), Seq(TOP, Put(J, False), PutLabelled))
  const Loop1: Stmt<Label> := LoopOf(F1, Strong(K), Turn, N)
  const Loop2: Stmt<Label> := LoopOf(F2, Strong(False), Skip(TOP), N)
  const Round1: Stmt<Label> := Loop1.body.body
  const Round2: Stmt<Label> := Loop2.body.body
  const Branch: Stmt<Label> := If(TOP, Strong(True), Seq(TOP, Loop1, Skip(TOP)), Skip(TOP))
  const Both: Stmt<Label> := Seq(TOP, Branch, Seq(TOP, Loop2, Skip(TOP)))

  /** What the compiler makes of it; both loops get the same name. */
  const Loops2Labelled: Stmt<Label> := Bind(K, True, Bind(J, True, Both))

  lemma TurnRuns(w: World, j: int, fuel: nat) returns (w': World)
    requires Is(w, J, j) && Is(w, F1, 1)
    ensures Exec(Turn, ARGS, w, fuel) == Done(w')
    ensures Hist(w', K) == Hist(w, K) + [j] && Is(w', K, j) && Is(w', J, 0) && Is(w', F1, 1)
    ensures Received(w'.remote, BOTTOM) == Received(w.remote, BOTTOM) + [PUT]
  {
    var w1 := Write(w, K, j);
    var w2 := Write(w1, J, 0);
    w' := w2.(remote := Send(ARGS, w2.remote, BOTTOM, PUT).0);
    Puts(K, J, w, j, fuel);
    Puts(J, False, w1, 0, fuel);
    PutSends(w2, fuel);
    After(Put(J, False), PutLabelled, ARGS, w1, w2, fuel);
    After(Put(K, J), Turn.rest, ARGS, w, w1, fuel);
  }

  /** One more round of the first loop. */
  lemma Loop1Turn(w: World, i: nat, j: int, fuel: nat) returns (w': World)
    requires Is(w, K, 1) && Is(w, J, j) && Is(w, F1, 1) && fuel > 0
    ensures Iterate(Loop1.body, ARGS, w, i, fuel) == Iterate(Loop1.body, ARGS, w', i + 1, fuel - 1)
    ensures Hist(w', K) == Hist(w, K) + [j] && Is(w', K, j) && Is(w', J, 0) && Is(w', F1, 1)
    ensures Received(w'.remote, BOTTOM) == Received(w.remote, BOTTOM) + [PUT]
  {
    var v := w.(loops := w.loops[N := i + 1]);
    w' := TurnRuns(v, j, fuel - 1);
    assert Exec(Round1, ARGS, v, fuel - 1) == Done(w');
    Around(Loop1.body, ARGS, w, w', i, fuel);
  }

  lemma Loop1Ends(w: World, i: nat, fuel: nat) returns (w': World)
    requires Is(w, K, 0) && Is(w, F1, 1) && fuel > 0
    ensures Iterate(Loop1.body, ARGS, w, i, fuel) == Done(w') && Hist(w', K) == Hist(w, K) && w'.remote == w.remote
  {
    var v := w.(loops := w.loops[N := i + 1]);
    w' := Write(v, F1, 0);
    Puts(F1, False, v, 0, fuel - 1);
    assert Exec(Round1, ARGS, v, fuel - 1) == Done(w');
    Around(Loop1.body, ARGS, w, w', i, fuel);
    assert Iterate(Loop1.body, ARGS, w', i + 1, fuel - 1) == Done(w');
  }

  lemma Loop1Rounds(w: World, fuel: nat) returns (w': World)
    requires fuel >= 3
    requires Is(w, K, 1) && Is(w, J, 1) && Is(w, F1, 1)
    ensures Iterate(Loop1.body, ARGS, w, 0, fuel) == Done(w')
    ensures Hist(w', K) == Hist(w, K) + [1] + [0] && Received(w'.remote, BOTTOM) == Received(w.remote, BOTTOM) + [PUT] + [PUT]
  {
    var w1 := Loop1Turn(w, 0, 1, fuel);
    var w2 := Loop1Turn(w1, 1, 0, fuel - 1);
    w' := Loop1Ends(w2, 2, fuel - 2);
  }

  lemma Loop1Runs(w: World, fuel: nat) returns (w': World)
    requires fuel >= 3
    requires Is(w, K, 1) && Is(w, J, 1)
    ensures Exec(Loop1, ARGS, w, fuel) == Done(w')
    ensures Hist(w', K) == Hist(w, K) + [1, 0] && Received(w'.remote, BOTTOM) == Received(w.remote, BOTTOM) + [PUT, PUT]
  {
    var w0 := Starts(F1, Round1, N, w, fuel);
    w' := Loop1Rounds(w0, fuel);
    assert Hist(w, K) + [1] + [0] == Hist(w, K) + [1, 0];
    assert Received(w.remote, BOTTOM) + [PUT] + [PUT] == Received(w.remote, BOTTOM) + [PUT, PUT];
  }

  lemma Loop2Runs(w: World, fuel: nat) returns (w': World)
    requires fuel >= 3
    ensures Exec(Loop2, ARGS, w, fuel) == Done(w')
    ensures Hist(w', K) == Hist(w, K) && w'.remote == w.remote && N in w'.loops && w'.loops[N] == 1
  {
    var w1 := Starts(F2, Round2, N, w, fuel);
    var w2 := w1.(loops := w1.loops[N := 1]);
    w' := Write(w2, F2, 0);
    Puts(F2, False, w2, 0, fuel - 1);
    assert Exec(Round2, ARGS, w2, fuel - 1) == Done(w');
    Around(Loop2.body, ARGS, w1, w', 0, fuel);
    assert Iterate(Loop2.body, ARGS, w', 1, fuel - 1) == Done(w');
  }

  lemma BothRun(w: World, fuel: nat) returns (w': World)
    requires fuel >= 3
    requires Is(w, K, 1) && Is(w, J, 1)
    ensures Exec(Both, ARGS, w, fuel) == Done(w') && Hist(w', K) == Hist(w, K) + [1, 0] && N in w'.loops && w'.loops[N] == 1
    ensures Received(w'.remote, BOTTOM) == Received(w.remote, BOTTOM) + [PUT, PUT]
  {
    var w1 := Loop1Runs(w, fuel);
    After(Loop1, Skip(TOP), ARGS, w, w1, fuel);
    assert Exec(Branch, ARGS, w, fuel) == Done(w1);
    w' := Loop2Runs(w1, fuel);
    After(Loop2, Skip(TOP), ARGS, w1, w', fuel);
    After(Branch, Both.rest, ARGS, w, w1, fuel);
  }

  /** Both programs start with two bindings. */
  lemma Bound2(x: Name, y: Name, body: Stmt<Label>, remote: map<Label, seq<Event>>, fuel: nat) returns (w: World)
    requires x.User? && y.User? && x != y && !IsInput(ARGS, x) && !IsInput(ARGS, y)
    ensures Exec(Bind(x, True, Bind(y, True, body)), ARGS, Start(remote), fuel) == Exec(body, ARGS, w, fuel)
    ensures Hist(w, x) == [1] && Hist(w, y) == [1] && w.remote == remote && forall z | z != x && z != y :: Hist(w, z) == []
  {
    var w0 := Write(Start(remote), x, 1);
    w := Write(w0, y, 1);
    assert Exec(Bind(y, True, body), ARGS, w0, fuel) == Exec(body, ARGS, w, fuel);
  }

  lemma Loops2Source(remote: map<Label, seq<Event>>, fuel: nat) returns (fin: World)
    requires fuel >= 3
    ensures Exec(Loops2Labelled, ARGS, Start(remote), fuel) == Done(fin)
    ensures Hist(fin, K) == [1, 1, 0] && N in fin.loops && fin.loops[N] == 1
    ensures Received(fin.remote, BOTTOM) == Received(remote, BOTTOM) + [PUT, PUT]
  {
    var w := Bound2(K, J, Both, remote, fuel);
    fin := BothRun(w, fuel);
  }

  // its weak phase

  const TurnWeak: PStmt := PSeq(PIncrement(K), PSeq(PIncrement(J), PPerform(PutStmt.call)))
  const Round1Weak: PStmt := PIf(Read0(K), TurnWeak, PIncrement(F1))
  const Round2Weak: PStmt := PIf(Read0(False), PSkip, PIncrement(F2))
  const Loop1Weak: PStmt := PSeq(PIncrement(F1), PForEach(Round1Weak, N))
  const Loop2Weak: PStmt := PSeq(PIncrement(F2), PForEach(Round2Weak, N))
  const BothWeak: PStmt := PSeq(PIf(Read0(True), PSeq(Loop1Weak, PSkip), PSkip), PSeq(Loop2Weak, PSkip))

  lemma LoopsProject()
    ensures Project(BOTTOM, Loop1) == Loop1Weak && Project(BOTTOM, Loop2) == Loop2Weak
  {
    PutStrips();
    assert Project(BOTTOM, Turn.rest) == PSeq(PIncrement(J), PPerform(PutStmt.call));
    assert Project(BOTTOM, Turn) == TurnWeak;
    assert Project(BOTTOM, Round1) == Round1Weak && Project(BOTTOM, Round2) == Round2Weak;
    assert Project(BOTTOM, Loop1.body) == PForEach(Round1Weak, N) && Project(BOTTOM, Loop2.body) == PForEach(Round2Weak, N);
  }

  lemma Loops2Project()
    ensures Project(BOTTOM, Loops2Labelled) == PSeq(PIncrement(K), PSeq(PIncrement(J), BothWeak))
  {
    LoopsProject();
    assert Project(BOTTOM, Branch.thn) == PSeq(Loop1Weak, PSkip);
    assert Project(BOTTOM, Branch) == BothWeak.first;
    assert Project(BOTTOM, Both.rest) == BothWeak.rest;
    assert Project(BOTTOM, Both) == BothWeak;
    assert Project(BOTTOM, Bind(J, True, Both)) == PSeq(PIncrement(J), BothWeak);
  }

  lemma Loop1WeakRuns(st: Store, fuel: nat) returns (st': Store)
    requires Get(ARGS, st, K) == Some(1) && N in st.loops && st.loops[N] == 1
    ensures Run(Loop1Weak, ARGS, st, fuel) == Done(st')
    ensures st'.loops == st.loops && Received(st'.remote, BOTTOM) == Received(st.remote, BOTTOM) + [PUT]
  {
    var st1 := Update(st, F1, Increment(At(st, F1)));
    assert Get(ARGS, st1, K) == Some(1);
    var st2 := Update(st1, K, Increment(At(st1, K)));
    var st3 := Update(st2, J, Increment(At(st2, J)));
    st' := st3.(remote := Send(ARGS, st3.remote, BOTTOM, PUT).0);
    PutSendsInPhase(st3, fuel);
    Then(PIncrement(J), PPerform(PutStmt.call), ARGS, st2, st3, fuel);
    Then(PIncrement(K), TurnWeak.rest, ARGS, st1, st2, fuel);
    assert Run(Round1Weak, ARGS, st1, fuel) == Done(st');
    Again(PForEach(Round1Weak, N), ARGS, st1, st', 1, fuel);
    Then(PIncrement(F1), PForEach(Round1Weak, N), ARGS, st, st1, fuel);
  }

  lemma Loop2WeakRuns(st: Store, fuel: nat) returns (st': Store)
    requires N in st.loops && st.loops[N] == 1
    ensures Run(Loop2Weak, ARGS, st, fuel) == Done(st') && st'.remote == st.remote
  {
    var st1 := Update(st, F2, Increment(At(st, F2)));
    st' := Update(st1, F2, Increment(At(st1, F2)));
    assert Run(Round2Weak, ARGS, st1, fuel) == Run(PIncrement(F2), ARGS, st1, fuel) == Done(st');
    Again(PForEach(Round2Weak, N), ARGS, st1, st', 1, fuel);
    Then(PIncrement(F2), PForEach(Round2Weak, N), ARGS, st, st1, fuel);
  }

  lemma BothWeakRuns(st: Store, fuel: nat) returns (st': Store)
    requires Get(ARGS, st, K) == Some(1) && N in st.loops && st.loops[N] == 1
    ensures Run(BothWeak, ARGS, st, fuel) == Done(st') && Received(st'.remote, BOTTOM) == Received(st.remote, BOTTOM) + [PUT]
  {
    var st1 := Loop1WeakRuns(st, fuel);
    Then(Loop1Weak, PSkip, ARGS, st, st1, fuel);
    assert Run(BothWeak.first, ARGS, st, fuel) == Done(st1);
    st' := Loop2WeakRuns(st1, fuel);
    Then(Loop2Weak, PSkip, ARGS, st1, st', fuel);
    Then(BothWeak.first, BothWeak.rest, ARGS, st, st1, fuel);
  }

  lemma Loops2Weak(st: Store, fuel: nat) returns (st': Store)
    requires At(st, K) == Holder([1, 1, 0], -1) && N in st.loops && st.loops[N] == 1
    ensures Run(Project(BOTTOM, Loops2Labelled), ARGS, st, fuel) == Done(st')
    ensures Received(st'.remote, BOTTOM) == Received(st.remote, BOTTOM) + [PUT]
  {
    Loops2Project();
    var st1 := Update(st, K, Increment(At(st, K)));
    var st2 := Update(st1, J, Increment(At(st1, J)));
    assert At(st2, K) == Holder([1, 1, 0], 0);
    st' := BothWeakRuns(st2, fuel);
    Then(PIncrement(J), BothWeak, ARGS, st1, st2, fuel);
    Then(PIncrement(K), PSeq(PIncrement(J), BothWeak), ARGS, st, st1, fuel);
  }

  lemma BetweenPhases(st: Store, x: Name)
    ensures At(BeginPhase(st), x) == Holder(At(st, x).log, -1)
  {
  }

  // that it is compiled so

  lemma Loops2Flow()
    ensures StmtFlows(ARGS, map[], TOP, Loops2Labelled)
  {
    var scope: Places := map[][K := HERE][J := HERE];
    var s := scope[F1 := HERE];
    assert IsInput(ARGS, WEAK) && WEAK !in s && True !in s && False !in s;
    assert StmtFlows(ARGS, s, TOP, Put(K, J)) && StmtFlows(ARGS, s, TOP, Put(J, False)) && StmtFlows(ARGS, s, TOP, PutLabelled);
    ListFlows(s, Put(J, False), PutLabelled);
    ListFlows(s, Put(K, J), Turn.rest);
    LoopFlows(scope, F1, K, Turn, N);
    LoopFlows(scope, F2, False, Skip(TOP), N);
    ListFlows(scope, Loop1, Skip(TOP));
    ListFlows(scope, Loop2, Skip(TOP));
    assert StmtFlows(ARGS, scope, TOP, Branch);
    ListFlows(scope, Branch, Both.rest);
    BindFlows(map[][K := HERE], J, True, Both);
    BindFlows(map[], K, True, Bind(J, True, Both));
  }

  lemma TurnLooks()
    ensures Looks(Turn, Loops2.body.body.first.thn.first.body, {})
  {
    SendLooks();
    PutLooks(K, J);
    PutLooks(J, False);
    ListLooks(Put(J, False), PutLabelled, Loops2.body.body.first.thn.first.body.rest.first, PutStmt, {}, {});
    ListLooks(Put(K, J), Turn.rest, Loops2.body.body.first.thn.first.body.first, Loops2.body.body.first.thn.first.body.rest, {}, {});
  }

  const Loops2Body: Stmt<()> := Loops2.body.body
  const Branch2: Stmt<()> := Loops2Body.first

  lemma Loop1Looks()
    ensures Looks(Branch.thn, Seq((), DesugarWhile(1, 4, Branch2.thn.first), Skip(())), {N})
  {
    TurnLooks();
    SkipLooks();
    LoopLooks(1, 4, K, Turn, Branch2.thn.first.body, N);
    ListLooks(Loop1, Skip(TOP), DesugarWhile(1, 4, Branch2.thn.first), Skip(()), {N}, {});
  }

  lemma BranchLooksSo()
    ensures Looks(Branch, DesugarWhile(1, 3, Branch2), {N})
  {
    Loop1Looks();
    SkipLooks();
    BranchLooks(True, Branch.thn, Skip(TOP), Seq((), DesugarWhile(1, 4, Branch2.thn.first), Skip(())), Skip(()), {N}, {});
  }

  lemma BothLook()
    ensures Looks(Both, DesugarWhile(1, 3, Loops2Body), {N})
  {
    BranchLooksSo();
    SkipLooks();
    var loop := DesugarWhile(2, 3, Loops2Body.rest.first);
    LoopLooks(2, 3, False, Skip(TOP), Skip(()), N);
    ListLooks(Loop2, Skip(TOP), loop, Skip(()), {N}, {});
    ListLooks(Branch, Both.rest, DesugarWhile(1, 3, Branch2), Seq((), loop, Skip(())), {N}, {N});
  }

  lemma Loops2Look()
    ensures Looks(Loops2Labelled, DesugarWhile(1, 1, Loops2), {N})
  {
    BothLook();
    var b := DesugarWhile(1, 3, Loops2Body);
    BindLooks(J, True, Both, b, {N});
    BindLooks(K, True, Bind(J, True, Both), Let((), (), J, Pure(Read0(True)), b), {N});
  }

  lemma BranchNamed()
    ensures NameIn(2, 1, Branch) == Branch
  {
    TurnLooks();
    LoopNamed(3, 1, F1, Round1, N);
    assert NameList(3, 1, Branch.thn) == Branch.thn;
  }

  lemma BothNamed()
    ensures NameList(2, 1, Both) == Both
  {
    BranchNamed();
    LoopNamed(3, 1, F2, Round2, N);
    assert NameList(3, 1, Both.rest) == Both.rest;
  }

  lemma Loops2Named()
    ensures Named(Loops2Labelled) == Loops2Labelled
  {
    BothNamed();
    assert NameIn(1, 1, Both) == Both;
  }

  lemma BranchIsParsed()
    ensures Parsed(Branch2)
  {
    CallsAreParsed();
    var turn := Branch2.thn.first.body;
    assert Parsed(turn.rest.first) && Parsed(turn.rest) && Parsed(turn.first) && Parsed(turn);
    assert Parsed(Branch2.thn.first) && Parsed(Branch2.thn);
  }

  lemma Loops2AreParsed()
    ensures Parsed(Loops2)
  {
    BranchIsParsed();
    assert Parsed(Loops2Body.rest.first) && Parsed(Loops2Body.rest) && Parsed(Loops2Body) && Parsed(Loops2.body);
  }

  lemma Loops2AreCompiled()
    ensures CompilesTo(ARGS, Loops2, Loops2Labelled) && AllStrong(Loops2Labelled)
  {
    Loops2Look();
    Loops2Named();
    Loops2Flow();
    Loops2AreParsed();
    FlatStays(1, 1, DesugarWhile(1, 1, Loops2));
    StrongIsCompiled(Loops2, Loops2Labelled);
  }

  lemma BranchShares()
    ensures N in Loops(Branch) && N in Loops(Branch2) && !Bare(Branch2)
  {
    assert N in Loops(Loop1.body) && N in Loops(Branch.thn);
    assert N in Loops(Branch2.thn.first) && N in Loops(Branch2.thn) && !Bare(Branch2.thn);
  }

  lemma Loops2Share()
    ensures !LoopsOnce(TopSig, BOTTOM, Loops2Labelled) && !Tidy(Loops2)
  {
    BranchShares();
    assert N in Loops(Loop2.body) && N in Loops(Both.rest) && !LoopsOnce(TopSig, BOTTOM, Both);
    assert N in Loops(Loops2Body.rest.first) && N in Loops(Loops2Body.rest) && !Tidy(Loops2Body);
    assert !LoopsOnce(TopSig, BOTTOM, Bind(J, True, Both)) && !Tidy(Loops2.body);
  }

  lemma Loops2Phases(remote: map<Label, seq<Event>>, fin: World, fuel: nat)
    requires StmtFlows(ARGS, map[], TOP, Loops2Labelled) && AllStrong(Loops2Labelled)
    requires Exec(Loops2Labelled, ARGS, Start(remote), fuel) == Done(fin)
    requires Hist(fin, K) == [1, 1, 0] && N in fin.loops && fin.loops[N] == 1
    ensures var r := RunPhases(PHASES, Loops2Labelled, ARGS, Launch(remote), fuel);
            r.Done? && Received(r.s.remote, BOTTOM) == Received(remote, BOTTOM) + [PUT]
  {
    var st := StrongPhase(Loops2Labelled, remote, fin, fuel);
    BetweenPhases(st, K);
    assert At(st, K).log == Hist(fin, K) && KeepsLoop(st.loops, fin.loops, N);
    var b := BeginPhase(st);
    assert b.loops == st.loops && b.remote == st.remote;
    var st' := Loops2Weak(b, fuel);
    TwoPhases(Loops2Labelled, ARGS, Launch(remote), fuel);
  }

  /** Everything but `LoopsOnce` holds. The compiler names both loops of this program alike; the second
      overwrites the count of the first, and the weak phase makes one call instead of two. */
  lemma DistinctNamesAreNeeded(remote: map<Label, seq<Event>>, fuel: nat)
    requires fuel >= 3
    ensures CompilesTo(ARGS, Loops2, Loops2Labelled)
    ensures Described(TopSig, ARGS, Loops2Labelled) && CallsPermitted(TOP, Loops2Labelled) && LateOnce(TopSig, Loops2Labelled)
    ensures !LoopsOnce(TopSig, BOTTOM, Loops2Labelled) && !Tidy(Loops2)
    ensures var w, r := Exec(Loops2Labelled, ARGS, Start(remote), fuel), RunPhases(PHASES, Loops2Labelled, ARGS, Launch(remote), fuel);
            && w.Done? && Received(w.s.remote, BOTTOM) == Received(remote, BOTTOM) + [PUT, PUT]
            && r.Done? && Received(r.s.remote, BOTTOM) == Received(remote, BOTTOM) + [PUT]
  {
    Loops2AreCompiled();
    Loops2Flow();
    StrongIs(Loops2Labelled);
    Loops2Share();
    var fin := Loops2Source(remote, fuel);
    Loops2Phases(remote, fin, fuel);
  }
}
