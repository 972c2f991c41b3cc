/** One generated name for two operations of different labels: nothing the program itself says is wrong,
    and its phases do something else. */
module SharedNames {
  import opened Labels
  import opened Syntax
  import opened Semantics
  import opened SplitPhase
  import opened PhaseRun
  import opened Symbolic
  import opened Flows
  import opened Phases
  import opened Flatten
  import opened FlattenCorrect
  import opened DesugarCorrect
  import opened EndToEnd
  import opened Complete
  import opened Samples
  import opened OwnNames
  import opened Frame
  import opened Recollapse
  import opened Shipping
  import opened Distributed
  import opened PieceSamples
  import NameLoops
  import Prune
  import W = WellLabelled

  const N1 := Anorm(2, 3)
  const N2 := Anorm(2, 5)

  function Op2(op: Op, a: Expr<()>, b: Expr<()>): Expr<()> {
    Bin((), op, a, b)
  }

  const Twice: Expr<()> := Op2(Add, Read0(Y), Read0(Y))
  const Thrice: Expr<()> := Op2(Add, Twice, Read0(Y))
  const One: Expr<()> := Op2(Mul, Read0(True), Read0(True))

  function SetY(e: Expr<()>): Stmt<()> {
    Assign((), Ref((), Y), e)
  }

  function When(s: Stmt<()>): Stmt<()> {
    If((), Read0(True), s, Skip(()))
  }

  const If1: Stmt<()> := If((), Read0(False), Skip(()), SetY(Thrice))
  const If2: Stmt<()> := When(When(When(SetY(One))))
  const Back: Stmt<()> := Return((), Read0(Y))

  /** `y = weak.get(); if (false) {} else { y = y + y + y } if (true) { if (true) { if (true) { y = true * true } } } return y` */
  const Sums: Stmt<()> := Let((), (), Y, GetRhs, Seq((), If1, Seq((), If2, Back)))

  const Weak1: Stmt<Label> := Assign(BOTTOM, Ref(BOTTOM, Y), ReadAt(BOTTOM, N2))
  const Let2: Stmt<Label> := Let(BOTTOM, BOTTOM, N2, Pure(Bin(BOTTOM, Add, ReadAt(BOTTOM, N1), ReadAt(BOTTOM, Y))), Weak1)
  const Let1: Stmt<Label> := Let(BOTTOM, BOTTOM, N1, Pure(Bin(BOTTOM, Add, ReadAt(BOTTOM, Y), ReadAt(BOTTOM, Y))), Let2)
  const Strong2: Stmt<Label> := Assign(BOTTOM, Ref(BOTTOM, Y), ReadAt(TOP, N2))
  const Let3: Stmt<Label> := Let(TOP, TOP, N2, Pure(Bin(TOP, Mul, ReadAt(TOP, True), ReadAt(TOP, True))), Strong2)

  function WhenAt(s: Stmt<Label>): Stmt<Label> {
    If(TOP, ReadAt(TOP, True), s, Skip(TOP))
  }

  const IfAt1: Stmt<Label> := If(TOP, ReadAt(TOP, False), Skip(TOP), Let1)
  const IfAt2: Stmt<Label> := WhenAt(WhenAt(WhenAt(Let3)))
  const BackAt: Stmt<Label> := Return(BOTTOM, ReadAt(BOTTOM, Y))
  const List: Stmt<Label> := Seq(TOP, IfAt1, Seq(TOP, IfAt2, BackAt))

  /** What the compiler makes of it: the second sum and the product get one name, and the one is weak, the
      other strong. */
  const SumsLabelled: Stmt<Label> := Let(BOTTOM, BOTTOM, Y, GetLabelled, List)

  // --- that it is compiled so ---

  lemma Let1Flows(scope: Places)
    requires scope == map[Y := Place(BOTTOM, BOTTOM)]
    ensures StmtFlows(ARGS, scope, TOP, Let1)
  {
    var s := scope[N1 := Place(BOTTOM, BOTTOM)];
    var t := s[N2 := Place(BOTTOM, BOTTOM)];
    assert StmtFlows(ARGS, t, TOP, Weak1);
    assert ExprFlows(ARGS, s, Let2.rhs.e.left) && ExprFlows(ARGS, s, Let2.rhs.e.right) && ExprFlows(ARGS, s, Let2.rhs.e);
    assert StmtFlows(ARGS, s, TOP, Let2);
    assert ExprFlows(ARGS, scope, Let1.rhs.e.left) && ExprFlows(ARGS, scope, Let1.rhs.e);
  }

  lemma WhenFlows(scope: Places, s: Stmt<Label>)
    requires True !in scope && StmtFlows(ARGS, scope, TOP, s)
    ensures StmtFlows(ARGS, scope, TOP, WhenAt(s))
  {
  }

  lemma Let3Flows(scope: Places)
    requires scope == map[Y := Place(BOTTOM, BOTTOM)]
    ensures StmtFlows(ARGS, scope, TOP, IfAt2)
  {
    assert StmtFlows(ARGS, scope[N2 := Place(TOP, TOP)], TOP, Strong2);
    assert ExprFlows(ARGS, scope, Let3.rhs.e.left) && ExprFlows(ARGS, scope, Let3.rhs.e);
    assert StmtFlows(ARGS, scope, TOP, Let3);
    WhenFlows(scope, Let3);
    WhenFlows(scope, WhenAt(Let3));
    WhenFlows(scope, WhenAt(WhenAt(Let3)));
  }

  lemma SumsFlow()
    ensures StmtFlows(ARGS, map[], TOP, SumsLabelled)
  {
    var scope: Places := map[][Y := Place(BOTTOM, BOTTOM)];
    assert W.IsInput(ARGS, WEAK) && W.RefsLabel(GetLabelled.call.args) == TOP;
    Let1Flows(scope);
    Let3Flows(scope);
    assert StmtFlows(ARGS, scope, TOP, IfAt1) && StmtFlows(ARGS, scope, TOP, BackAt) && StmtFlows(ARGS, scope, TOP, List.rest);
  }

  /** Sums of weak variables are weak. */
  lemma Let2IsWeak(scope: Places, r: Stmt<Label>)
    requires Y in scope && scope[Y].level == BOTTOM && Plain(r) == Plain(Let2) && StmtFlows(ARGS, scope, TOP, r)
    ensures Weaker(r, Let2)
  {
    assert StripExpr(r.rhs.e) == Op2(Add, Read0(N1), Read0(Y));
    assert StripExpr(r.rhs.e.right) == Read0(Y) && ExprFlows(ARGS, scope, r.rhs.e.right);
    assert r.rhs.e.right.ref.l == BOTTOM && r.rhs.e.l == BOTTOM && r.bl == BOTTOM;
    assert Plain(r.body) == Plain(Weak1);
  }

  lemma Let1IsWeak(scope: Places, r: Stmt<Label>)
    requires Y in scope && scope[Y].level == BOTTOM && Plain(r) == Plain(Let1) && StmtFlows(ARGS, scope, TOP, r)
    ensures Weaker(r, Let1)
  {
    assert StripExpr(r.rhs.e) == Twice;
    assert StripExpr(r.rhs.e.right) == Read0(Y) && ExprFlows(ARGS, scope, r.rhs.e.right);
    assert r.rhs.e.right.ref.l == BOTTOM && r.rhs.e.l == BOTTOM && r.bl == BOTTOM;
    assert Plain(r.body) == Plain(Let2);
    Let2IsWeak(scope[N1 := Place(r.bl, r.l)], r.body);
  }

  lemma IfAt2IsTop()
    ensures AllTop(IfAt2)
  {
    assert AllTop(Let3) && AllTop(WhenAt(Let3)) && AllTop(WhenAt(WhenAt(Let3)));
  }

  lemma ListIsWeak(scope: Places, r: Stmt<Label>)
    requires Y in scope && scope[Y].level == BOTTOM && False !in scope && Plain(r) == Plain(List) && StmtFlows(ARGS, scope, TOP, r)
    ensures Weaker(r, List)
  {
    assert Plain(r.first) == Plain(IfAt1) && Plain(r.rest) == Plain(List.rest);
    assert StmtFlows(ARGS, scope, TOP, r.first) && StripExpr(r.first.cond) == Read0(False) && r.first.l == TOP;
    assert Plain(r.first.els) == Plain(Let1);
    Let1IsWeak(scope, r.first.els);
    assert Weaker(r.first, IfAt1);
    assert Plain(r.rest.first) == Plain(IfAt2);
    IfAt2IsTop();
    TopIsStrongest(r.rest.first, IfAt2);
    assert Weaker(r.rest, List.rest);
  }

  lemma SumsAreWeak(r: Stmt<Label>)
    requires Plain(r) == Plain(SumsLabelled) && StmtFlows(ARGS, map[], TOP, r)
    ensures Weaker(r, SumsLabelled)
  {
    GetStrips();
    GetIsWeak(ARGS, map[], r);
    assert Plain(r.body) == Plain(List);
    ListIsWeak(map[][Y := Place(r.bl, r.l)], r.body);
  }

  lemma SumsPick(tau: Assignment)
    requires tau(TempId(1, 1)) == BOTTOM && tau(TempId(4, 3)) == BOTTOM && tau(TempId(5, 4)) == BOTTOM && tau(TempId(6, 5)) == TOP
    ensures Picks(tau, 1, 1, SumsLabelled)
  {
    assert Picks(tau, 5, 4, Let2) && Picks(tau, 4, 3, Let1) && Picks(tau, 2, 2, IfAt1);
    assert Picks(tau, 6, 5, Let3) && Picks(tau, 5, 4, WhenAt(Let3)) && Picks(tau, 4, 3, WhenAt(WhenAt(Let3))) && Picks(tau, 3, 2, IfAt2);
    assert Picks(tau, 3, 2, List.rest) && Picks(tau, 2, 2, List);
  }

  // naming the operations

  const Plain1: Stmt<()> := StripStmt(Let1)
  const Plain3: Stmt<()> := StripStmt(Let3)

  lemma Let1Strips()
    ensures Plain1 == Let((), (), N1, Pure(Twice), Let((), (), N2, Pure(Op2(Add, Read0(N1), Read0(Y))), SetY(Read0(N2))))
    ensures Plain3 == Let((), (), N2, Pure(One), SetY(Read0(N2)))
  {
    assert StripExpr(Let1.rhs.e) == Twice && StripExpr(Let2.rhs.e) == Op2(Add, Read0(N1), Read0(Y)) && StripExpr(Let3.rhs.e) == One;
    assert StripStmt(Let2) == Let((), (), N2, Pure(Op2(Add, Read0(N1), Read0(Y))), SetY(Read0(N2)));
  }

  lemma ElseFlattens(seqnum: int, depth: int)
    requires seqnum == 2 && depth == 3
    ensures FlattenExprs(seqnum, depth, SetY(Thrice)) == Plain1
  {
    Let1Strips();
    assert Unnamed(Twice) == 1 && Unnamed(Thrice) == 2;
    var rest := SetY(Op2(Add, Read0(N1), Read0(Y)));
    assert RemoveLayer(N1, Thrice) == (Twice, rest.e);
    assert Partial(Anorm(seqnum, depth), SetY(Thrice)) == Let((), (), N1, Pure(Twice), rest);
    assert Unnamed(rest.e) == 1;
    var last := Let((), (), N2, Pure(rest.e), SetY(Read0(N2)));
    assert Partial(Anorm(seqnum, depth + 2), rest) == last;
    assert InAnf(last);
    FlatStays(seqnum, depth + 3, last);
    assert FlattenExprs(seqnum, depth + 2, rest) == last;
    assert FlattenExprs(seqnum, depth + 1, Let((), (), N1, Pure(Twice), rest)) == Plain1;
  }

  lemma ThenFlattens(seqnum: int, depth: int)
    requires seqnum == 2 && depth == 5
    ensures FlattenExprs(seqnum, depth, SetY(One)) == Plain3
  {
    Let1Strips();
    assert Unnamed(One) == 1;
    assert Partial(Anorm(seqnum, depth), SetY(One)) == Plain3;
    assert InAnf(Plain3);
    FlatStays(seqnum, depth + 1, Plain3);
  }

  lemma WhenFlattens(seqnum: int, depth: int, s: Stmt<()>, t: Stmt<()>)
    requires depth < DEPTH_LIMIT && FlattenExprs(seqnum, depth + 1, s) == t
    ensures FlattenExprs(seqnum, depth, When(s)) == When(t)
  {
  }

  lemma If2Flattens(seqnum: int, depth: int)
    requires seqnum == 2 && depth == 2
    ensures FlattenExprs(seqnum, depth, If2) == When(When(When(Plain3)))
  {
    ThenFlattens(seqnum, depth + 3);
    WhenFlattens(seqnum, depth + 2, SetY(One), Plain3);
    WhenFlattens(seqnum, depth + 1, When(SetY(One)), When(Plain3));
    WhenFlattens(seqnum, depth, When(When(SetY(One))), When(When(Plain3)));
  }

  lemma IfsStrip()
    ensures StripStmt(IfAt1) == If((), Read0(False), Skip(()), Plain1) && StripStmt(IfAt2) == When(When(When(Plain3))) && StripStmt(BackAt) == Back
  {
    assert StripStmt(WhenAt(Let3)) == When(Plain3) && StripStmt(WhenAt(WhenAt(Let3))) == When(When(Plain3));
  }

  lemma ElseOnly(seqnum: int, depth: int, e: Stmt<()>, t: Stmt<()>)
    requires depth < DEPTH_LIMIT && FlattenExprs(seqnum + 1, depth + 1, e) == t
    ensures FlattenExprs(seqnum, depth, If((), Read0(False), Skip(()), e)) == If((), Read0(False), Skip(()), t)
  {
  }

  lemma If1Flattens(seqnum: int, depth: int)
    requires seqnum == 1 && depth == 2
    ensures FlattenExprs(seqnum, depth, If1) == If((), Read0(False), Skip(()), Plain1)
  {
    ElseFlattens(seqnum + 1, depth + 1);
    ElseOnly(seqnum, depth, SetY(Thrice), Plain1);
  }

  lemma ListsFlatten(seqnum: int, depth: int, a: Stmt<()>, b: Stmt<()>)
    requires depth < DEPTH_LIMIT
    ensures FlattenExprs(seqnum, depth, Seq((), a, b)) == Seq((), FlattenExprs(seqnum, depth, a), FlattenExprs(seqnum + 1, depth, b))
  {
  }

  const ListPlain: Stmt<()> := Seq((), If((), Read0(False), Skip(()), Plain1), Seq((), When(When(When(Plain3))), Back))

  lemma ListFlattens(seqnum: int, depth: int)
    requires seqnum == 1 && depth == 2
    ensures FlattenExprs(seqnum, depth, Sums.body) == ListPlain
  {
    If1Flattens(seqnum, depth);
    If2Flattens(seqnum + 1, depth);
    FlatStays(seqnum + 2, depth, Back);
    ListsFlatten(seqnum + 1, depth, If2, Back);
    ListsFlatten(seqnum, depth, If1, Sums.body.rest);
  }

  lemma ListStrips()
    ensures StripStmt(List) == ListPlain
  {
    IfsStrip();
    assert StripStmt(List.rest) == ListPlain.rest;
  }

  lemma SumsFlatten(seqnum: int, depth: int)
    requires seqnum == 1 && depth == 1
    ensures FlattenExprs(seqnum, depth, DesugarWhile(seqnum, depth, Sums)) == StripStmt(SumsLabelled)
  {
    GetStrips();
    SumsHaveNoLoops();
    NoLoopsStays(seqnum, depth, Sums);
    ListFlattens(seqnum, depth + 1);
    ListStrips();
  }

  lemma SumsHaveNoLoops()
    ensures W.Loops(Sums) == {} && W.Loops(SumsLabelled) == {}
  {
    assert W.Loops(When(SetY(One))) == {} && W.Loops(When(When(SetY(One)))) == {} && W.Loops(If2) == {} && W.Loops(If1) == {} && W.Loops(Sums.body.rest) == {};
    assert W.Loops(Let2) == {} && W.Loops(Let1) == {} && W.Loops(IfAt1) == {};
    assert W.Loops(Let3) == {} && W.Loops(WhenAt(Let3)) == {} && W.Loops(WhenAt(WhenAt(Let3))) == {} && W.Loops(IfAt2) == {};
    assert W.Loops(List.rest) == {} && W.Loops(List) == {};
  }

  lemma SumsNamed(seqnum: int, depth: int)
    ensures NameLoops.NameIn(seqnum, depth, SumsLabelled) == SumsLabelled
  {
    SumsHaveNoLoops();
    NoLoopsNamed(seqnum, depth, SumsLabelled);
  }

  lemma SumsFlattenTo(p: Stmt<()>)
    requires p == Sums
    ensures FlattenExpressions(p) == StripStmt(SumsLabelled)
  {
    SumsFlatten(1, 1);
  }

  lemma SumsAreParsed()
    ensures Parsed(Sums) && UserInputs(ARGS)
  {
    ArgsAreUsers(ARGS);
    CallsAreParsed();
    assert Names(Twice) == {Y} && Names(Thrice) == {Y} && Names(One) == {True};
    assert Parsed(SetY(Thrice)) && Parsed(If1) && Parsed(SetY(One)) && Parsed(When(SetY(One))) && Parsed(When(When(SetY(One)))) && Parsed(If2);
    assert Parsed(Back) && Parsed(Sums.body.rest) && Parsed(Sums.body);
  }

  lemma SumsAre(q: Stmt<Label>) returns (tau: Assignment)
    requires q == SumsLabelled
    ensures StmtFlows(ARGS, map[], TOP, q) && Picks(tau, 1, 1, q) && NameLoops.Named(q) == q
    ensures forall r | Plain(r) == Plain(q) && StmtFlows(ARGS, map[], TOP, r) :: Weaker(r, q)
  {
    SumsFlow();
    tau := t => if t == TempId(6, 5) then TOP else BOTTOM;
    SumsPick(tau);
    SumsNamed(1, 1);
    forall r | Plain(r) == Plain(q) && StmtFlows(ARGS, map[], TOP, r) ensures Weaker(r, q) {
      SumsAreWeak(r);
    }
  }

  lemma SumsAreCompiled(p: Stmt<()>, q: Stmt<Label>)
    requires p == Sums && q == SumsLabelled
    ensures CompilesTo(ARGS, p, q)
  {
    SumsFlattenTo(p);
    SumsAreParsed();
    var tau := SumsAre(q);
    IsCompiled(ARGS, tau, p, FlattenExpressions(p), q);
  }

  lemma WeakLevel(sig: W.Sig)
    requires Described(sig, ARGS, IfAt1)
    ensures sig.level(N2) == BOTTOM
  {
    assert Described(sig, ARGS, Let1) && Described(sig, ARGS, Let2);
  }

  lemma StrongLevel(sig: W.Sig)
    requires Described(sig, ARGS, IfAt2)
    ensures sig.level(N2) == TOP
  {
    assert Described(sig, ARGS, WhenAt(WhenAt(Let3))) && Described(sig, ARGS, WhenAt(Let3)) && Described(sig, ARGS, Let3);
  }

  lemma NothingDescribes()
    ensures forall sig: W.Sig :: !Described(sig, ARGS, SumsLabelled)
  {
    forall sig: W.Sig ensures !Described(sig, ARGS, SumsLabelled) {
      if Described(sig, ARGS, IfAt1) && Described(sig, ARGS, IfAt2) {
        WeakLevel(sig);
        StrongLevel(sig);
        assert false;
      }
      assert Described(sig, ARGS, List) ==> Described(sig, ARGS, IfAt1) && Described(sig, ARGS, Seq(TOP, IfAt2, BackAt));
    }
  }

  lemma CallsAreFine()
    ensures CallsPermitted(TOP, SumsLabelled)
  {
    assert CallsPermitted(TOP, Let2) && CallsPermitted(TOP, Let1) && CallsPermitted(TOP, IfAt1) && CallsPermitted(TOP, Let3);
    assert CallsPermitted(TOP, WhenAt(Let3)) && CallsPermitted(TOP, WhenAt(WhenAt(Let3))) && CallsPermitted(TOP, IfAt2);
    assert CallsPermitted(TOP, List.rest) && CallsPermitted(TOP, List);
  }

  // --- the program ---

  lemma Let1Runs(w: World, fuel: nat) returns (w': World)
    requires Hist(w, Y) == [1]
    ensures Exec(Let1, ARGS, w, fuel) == Done(w')
  {
    var w1 := Write(w, N1, 2);
    var w2 := Write(w1, N2, 3);
    w' := Write(w2, Y, 3);
    assert Eval(Let1.rhs.e, Reads(ARGS, w)) == Some(2);
    assert Read(ARGS, w1, N1) == Some(2) && Read(ARGS, w1, Y) == Some(1);
    assert Eval(Let2.rhs.e, Reads(ARGS, w1)) == Some(3);
    assert Exec(Let2, ARGS, w1, fuel) == Exec(Weak1, ARGS, w2, fuel) == Done(w');
  }

  lemma Let3Runs(w: World, fuel: nat) returns (w': World)
    ensures Exec(IfAt2, ARGS, w, fuel) == Done(w') && Hist(w', Y) == Hist(w, Y) + [1]
  {
    var w1 := Write(w, N2, 1);
    w' := Write(w1, Y, 1);
    assert Eval(Let3.rhs.e, Reads(ARGS, w)) == Some(1);
    assert Exec(Let3, ARGS, w, fuel) == Exec(Strong2, ARGS, w1, fuel) == Done(w');
    assert Exec(WhenAt(Let3), ARGS, w, fuel) == Done(w');
    assert Exec(WhenAt(WhenAt(Let3)), ARGS, w, fuel) == Done(w');
  }

  lemma ListRuns(w: World, fuel: nat)
    requires Hist(w, Y) == [1]
    ensures var r := Exec(List, ARGS, w, fuel); r.Done? && r.s.ret == Some(1)
  {
    var w1 := Let1Runs(w, fuel);
    assert Exec(IfAt1, ARGS, w, fuel) == Done(w1);
    var w2 := Let3Runs(w1, fuel);
    After(IfAt2, BackAt, ARGS, w1, w2, fuel);
    After(IfAt1, List.rest, ARGS, w, w1, fuel);
  }

  lemma SumsSource(remote: map<Label, seq<Event>>, fuel: nat)
    ensures var w := Exec(SumsLabelled, ARGS, Start(remote), fuel); w.Done? && w.s.ret == Some(1)
  {
    var w := Start(remote);
    GetSends(ARGS, w);
    ListRuns(Write(w.(remote := Send(ARGS, remote, BOTTOM, GET).0), Y, 1), fuel);
  }

  // --- its phases ---

  function PWhen(p: PStmt): PStmt {
    PIf(Read0(True), p, PSkip)
  }

  const MovesOnly: PStmt := PSeq(PIncrement(N1), PSeq(PIncrement(N2), PSkip))
  const If1Strong: PStmt := PIf(Read0(False), PSkip, MovesOnly)
  const Bind2: PStmt := PLet(TOP, N2, Pure(One), PSkip)
  const If2Strong: PStmt := PWhen(PWhen(PWhen(Bind2)))
  const StrongPhase: PStmt := PSeq(PIncrement(Y), PSeq(If1Strong, PSeq(If2Strong, PSkip)))

  const PutN2: PStmt := PAssign(Y, Read0(N2))
  const Inner: PStmt := PLet(BOTTOM, N2, Pure(Op2(Add, Read0(N1), Read0(Y))), PutN2)
  const If1Weak: PStmt := PIf(Read0(False), PSkip, PLet(BOTTOM, N1, Pure(Twice), Inner))
  const Replay: PStmt := PSeq(PIncrement(N2), PutN2)
  const If2Weak: PStmt := PWhen(PWhen(PWhen(Replay)))
  const ListWeak: PStmt := PSeq(If1Weak, PSeq(If2Weak, PReturn(Read0(Y))))
  const WeakPhase: PStmt := PLet(BOTTOM, Y, GetRhs, ListWeak)

  lemma SumsProjectStrong()
    ensures Project(TOP, SumsLabelled) == StrongPhase
  {
    Let1Strips();
    assert Project(TOP, Let2) == MovesOnly.rest && Project(TOP, Let1) == MovesOnly && Project(TOP, IfAt1) == If1Strong;
    assert StripExpr(Let3.rhs.e) == One && Project(TOP, Let3) == Bind2 && Project(TOP, WhenAt(Let3)) == PWhen(Bind2);
    assert Project(TOP, WhenAt(WhenAt(Let3))) == PWhen(PWhen(Bind2)) && Project(TOP, IfAt2) == If2Strong;
    assert Project(TOP, List.rest) == PSeq(If2Strong, PSkip) && Project(TOP, List) == StrongPhase.rest;
  }

  lemma SumsProjectWeak()
    ensures Project(BOTTOM, SumsLabelled) == WeakPhase
  {
    GetStrips();
    assert StripExpr(Let1.rhs.e) == Twice && StripExpr(Let2.rhs.e) == Op2(Add, Read0(N1), Read0(Y));
    assert Project(BOTTOM, Let2) == Inner && Project(BOTTOM, Let1) == If1Weak.els && Project(BOTTOM, IfAt1) == If1Weak;
    assert Project(BOTTOM, Let3) == Replay && Project(BOTTOM, WhenAt(Let3)) == PWhen(Replay);
    assert Project(BOTTOM, WhenAt(WhenAt(Let3))) == PWhen(PWhen(Replay)) && Project(BOTTOM, IfAt2) == If2Weak;
    assert Project(BOTTOM, List.rest) == ListWeak.rest && Project(BOTTOM, List) == ListWeak;
  }

  /** The strong phase moves the cursor for the weak sum and then binds the product. */
  lemma StrongFaults(st: Store, fuel: nat)
    requires At(st, N2) == Holder([], -1)
    ensures Run(StrongPhase, ARGS, st, fuel).Fault?
  {
    var st1 := Update(st, Y, Increment(At(st, Y)));
    var st2 := Update(st1, N1, Increment(At(st1, N1)));
    var st3 := Update(st2, N2, Increment(At(st2, N2)));
    Then(PIncrement(N2), PSkip, ARGS, st2, st3, fuel);
    Then(PIncrement(N1), MovesOnly.rest, ARGS, st1, st2, fuel);
    assert Run(If1Strong, ARGS, st1, fuel) == Run(MovesOnly, ARGS, st1, fuel) == Done(st3);
    If2Faults(st3, fuel);
    assert Run(PSeq(If2Strong, PSkip), ARGS, st3, fuel).Fault?;
    Then(If1Strong, PSeq(If2Strong, PSkip), ARGS, st1, st3, fuel);
    Then(PIncrement(Y), StrongPhase.rest, ARGS, st, st1, fuel);
  }

  lemma If2Faults(st: Store, fuel: nat)
    requires At(st, N2) == Holder([], 0)
    ensures Run(If2Strong, ARGS, st, fuel).Fault?
  {
    assert Eval(One, Gets(ARGS, st)) == Some(1) && !InRange(Push(At(st, N2), 1));
    assert Run(Bind2, ARGS, st, fuel).Fault? && Run(PWhen(Bind2), ARGS, st, fuel).Fault? && Run(PWhen(PWhen(Bind2)), ARGS, st, fuel).Fault?;
  }

  // --- pruned and recollapsed ---

  const StrongPruned: PStmt := PSeq(If2Strong, PSkip)

  lemma StrongNeeds()
    ensures Prune.Required(StrongPhase, {}) == {}
    ensures Drop({}, StrongPhase) == PSeq(PSkip, PSeq(PIf(Read0(False), PSkip, PSeq(PSkip, PSeq(PSkip, PSkip))), StrongPruned))
  {
    assert Prune.Required(MovesOnly, {}) == {} && Prune.Required(If1Strong, {}) == {};
    assert Prune.Required(Bind2, {}) == {} && Prune.Required(PWhen(Bind2), {}) == {} && Prune.Required(PWhen(PWhen(Bind2)), {}) == {};
    assert Prune.Required(If2Strong, {}) == {} && Prune.Required(StrongPruned, {}) == {} && Prune.Required(StrongPhase.rest, {}) == {};
    assert Drop({}, MovesOnly) == PSeq(PSkip, PSeq(PSkip, PSkip));
    assert Drop({}, Bind2) == Bind2 && Drop({}, PWhen(Bind2)) == PWhen(Bind2) && Drop({}, PWhen(PWhen(Bind2))) == PWhen(PWhen(Bind2));
    assert Drop({}, If2Strong) == If2Strong && Drop({}, StrongPruned) == StrongPruned && Drop({}, If1Strong) == PIf(Read0(False), PSkip, PSeq(PSkip, PSeq(PSkip, PSkip)));
    assert Drop({}, StrongPhase.rest) == PSeq(PIf(Read0(False), PSkip, PSeq(PSkip, PSeq(PSkip, PSkip))), StrongPruned);
  }

  const Nothing: PStmt := PSeq(PSkip, PSeq(PSkip, PSkip))
  const If1Empty: PStmt := PIf(Read0(False), PSkip, Nothing)

  /** A conditional that holds something stays. */
  lemma WhenClears(p: PStmt, q: PStmt)
    requires Prune.Clear(p).ast == q && !Prune.IsEmpty(q)
    ensures Prune.Clear(PWhen(p)).ast == PWhen(q) && Prune.Clear(PWhen(p)).gone == Prune.Clear(p).gone && !Prune.IsEmpty(PWhen(q))
  {
    assert Prune.Clear(PSkip) == Prune.Cleared(PSkip, {}, {});
  }

  lemma WhensClear(p: PStmt, q: PStmt)
    requires Prune.Clear(p).ast == q && !Prune.IsEmpty(q)
    ensures var c := Prune.Clear(PWhen(PWhen(PWhen(p)))); c.ast == PWhen(PWhen(PWhen(q))) && c.gone == Prune.Clear(p).gone
  {
    WhenClears(p, q);
    WhenClears(PWhen(p), PWhen(q));
    WhenClears(PWhen(PWhen(p)), PWhen(PWhen(q)));
  }

  lemma If1Clears()
    ensures Prune.Clear(If1Empty) == Prune.Cleared(PSkip, {False}, {})
  {
    ClearsTo(PSkip, PSkip, [], []);
    assert Prune.Clear(PSeq(PSkip, PSkip)) == Prune.Cleared(PSkip, {}, {});
    ClearsTo(PSkip, PSeq(PSkip, PSkip), [], []);
    assert Prune.Clear(Nothing) == Prune.Cleared(PSkip, {}, {});
  }

  lemma StrongClears()
    ensures Prune.Clear(PSeq(PSkip, PSeq(If1Empty, StrongPruned))).ast == StrongPruned
  {
    var a := StrongPruned;
    assert Prune.Clear(Bind2).ast == Bind2;
    WhensClear(Bind2, Bind2);
    ClearsTo(If2Strong, PSkip, [If2Strong], []);
    assert [If2Strong] + [] == [If2Strong];
    ItemsBack([If2Strong]);
    If1Clears();
    ClearsTo(If1Empty, a, [], [If2Strong]);
    assert [] + [If2Strong] == [If2Strong];
    ClearsTo(PSkip, PSeq(If1Empty, a), [], [If2Strong]);
    PieceSamples.One(If2Strong);
  }

  lemma StrongDrops(left: set<Name>)
    ensures Drop(left, StrongPruned) == StrongPruned
  {
    KeepsLet(left, TOP, N2, Pure(One), PSkip);
    KeepsWhens(left, Bind2);
    KeepsSeq(left, If2Strong, PSkip);
  }

  lemma StrongPrunes(p: PStmt, d: PStmt)
    requires p == StrongPhase && d == PSeq(PSkip, PSeq(If1Empty, StrongPruned))
    ensures Prune.Prune(p).ast == StrongPruned
  {
    StrongNeeds();
    StrongClears();
    var left := {} - (Prune.Clear(d).gone - Prune.Clear(d).still);
    StrongDrops(left);
    PrunesTo(p, {}, d, Prune.Clear(d), left, StrongPruned);
  }

  const NEEDS: set<Name> := {WEAK, N2}
  const Kept2: PStmt := PWhen(PWhen(PWhen(PSeq(PIncrement(N2), PSeq(PutN2, PSkip)))))
  const WeakPruned: PStmt := PLet(BOTTOM, Y, GetRhs, PSeq(If1Weak, PSeq(Kept2, PSeq(PReturn(Read0(Y)), PSkip))))

  lemma WeakNeeds()
    ensures Prune.Required(WeakPhase, {}) == NEEDS
  {
    assert RefNames(GetRhs.call.args) == {} && RhsNames(GetRhs) == {WEAK};
    var y: set<Name> := {} + {Y};
    assert Names(Twice) == {Y} && Names(Op2(Add, Read0(N1), Read0(Y))) == {N1, Y} && Names(Read0(N2)) == {N2};
    assert Prune.Required(PutN2, y + {N1} + {N2}) == {} && Prune.Required(Inner, y + {N1}) == {} && Prune.Required(If1Weak, y) == {};
    assert Prune.Required(PutN2, y) == {N2} && Prune.Required(Replay, y) == {N2} && Prune.Required(PWhen(Replay), y) == {N2};
    assert Prune.Required(PWhen(PWhen(Replay)), y) == {N2} && Prune.Required(If2Weak, y) == {N2};
    assert Prune.Required(ListWeak.rest, y) == {N2} && Prune.Required(ListWeak, y) == {N2};
  }

  lemma WeakKeeps(left: set<Name>)
    requires N2 in left
    ensures Drop(left, WeakPhase) == WeakPhase && Drop(left, WeakPruned) == WeakPruned
  {
    assert Drop(left, PutN2) == PutN2 && Drop(left, Inner) == Inner;
    assert Drop(left, If1Weak.els) == If1Weak.els;
    assert Drop(left, If1Weak) == If1Weak;
    var last := PSeq(PReturn(Read0(Y)), PSkip);
    KeepsMove(left, N2);
    KeepsSeq(left, PIncrement(N2), PutN2);
    KeepsWhens(left, Replay);
    KeepsSeq(left, If2Weak, PReturn(Read0(Y)));
    KeepsSeq(left, If1Weak, ListWeak.rest);
    KeepsLet(left, BOTTOM, Y, GetRhs, ListWeak);
    var put := PSeq(PutN2, PSkip);
    KeepsSeq(left, PutN2, PSkip);
    KeepsSeq(left, PIncrement(N2), put);
    KeepsWhens(left, PSeq(PIncrement(N2), put));
    KeepsSeq(left, PReturn(Read0(Y)), PSkip);
    KeepsSeq(left, Kept2, last);
    KeepsSeq(left, If1Weak, PSeq(Kept2, last));
    KeepsLet(left, BOTTOM, Y, GetRhs, WeakPruned.body);
  }

  lemma KeepsWhens(left: set<Name>, p: PStmt)
    requires Drop(left, p) == p
    ensures Drop(left, PWhen(PWhen(PWhen(p)))) == PWhen(PWhen(PWhen(p)))
  {
    KeepsIf(left, Read0(True), p, PSkip);
    KeepsIf(left, Read0(True), PWhen(p), PSkip);
    KeepsIf(left, Read0(True), PWhen(PWhen(p)), PSkip);
  }

  lemma If1Stays()
    ensures Prune.Clear(If1Weak).ast == If1Weak && Prune.Clear(If1Weak).gone == {}
  {
    assert Prune.Clear(PutN2).ast == PutN2 && Prune.Clear(PutN2).gone == {};
    assert Prune.Clear(Inner).ast == Inner && Prune.Clear(Inner).gone == {};
    assert Prune.Clear(If1Weak.els).ast == If1Weak.els && Prune.Clear(If1Weak.els).gone == {};
  }

  lemma If2Clears()
    ensures Prune.Clear(If2Weak).ast == Kept2 && Prune.Clear(If2Weak).gone == {}
  {
    var i := PIncrement(N2);
    ClearsTo(i, PutN2, [i], [PutN2]);
    assert [i] + [PutN2] == [i, PutN2];
    Two(i, PutN2);
    ItemsBack([i, PutN2]);
    WhensClear(Replay, PSeq(i, PSeq(PutN2, PSkip)));
  }

  lemma ListClears(a: PStmt, b: PStmt, c: PStmt, b': PStmt)
    requires Prune.Clear(a).ast == a && Prune.Clear(b).ast == b' && Prune.Clear(c).ast == c
    requires Prune.Clear(a).gone == Prune.Clear(b).gone == Prune.Clear(c).gone == {}
    requires Prune.Items(a) == [a] && Prune.Items(b') == [b'] && Prune.Items(c) == [c]
    requires !a.PSeq? && !a.PSkip? && !b'.PSeq? && !b'.PSkip? && !c.PSeq? && !c.PSkip?
    ensures Prune.Clear(PSeq(a, PSeq(b, c))).ast == PSeq(a, PSeq(b', PSeq(c, PSkip))) && Prune.Clear(PSeq(a, PSeq(b, c))).gone == {}
  {
    ClearsTo(b, c, [b'], [c]);
    assert [b'] + [c] == [b', c];
    ItemsBack([b', c]);
    ClearsTo(a, PSeq(b, c), [a], [b', c]);
    assert [a] + [b', c] == [a, b', c];
    Three(a, b', c);
  }

  lemma WeakClears()
    ensures Prune.Clear(WeakPhase).ast == WeakPruned && Prune.Clear(WeakPhase).gone == {}
  {
    If1Stays();
    If2Clears();
    ListClears(If1Weak, If2Weak, PReturn(Read0(Y)), Kept2);
  }

  lemma WeakPrunes(p: PStmt, needs: set<Name>)
    requires p == WeakPhase && needs == NEEDS
    ensures Prune.Prune(p) == Prune.Phase(WeakPruned, needs)
  {
    WeakNeeds();
    WeakClears();
    WeakKeeps(needs);
    assert needs - ({} - Prune.Clear(p).still) == needs;
    PrunesTo(p, needs, p, Prune.Clear(p), needs, WeakPruned);
  }

  /** The first sum is put back; the second cannot be, because the phase also replays a product under its
      name. */
  const Recollapsed: PStmt := PLet(BOTTOM, N2, Pure(Thrice), PutN2)
  const If1Back: PStmt := PIf(Read0(False), PSkip, Recollapsed)
  const WeakPiece: PStmt := PLet(BOTTOM, Y, GetRhs, PSeq(If1Back, WeakPruned.body.rest))

  lemma KeptBinds()
    ensures Binds(WeakPruned.body.rest) == {}
  {
    var k := PSeq(PIncrement(N2), PSeq(PutN2, PSkip));
    assert Binds(k.rest) == {} && Binds(k) == {} && Binds(PWhen(k)) == {} && Binds(PWhen(PWhen(k))) == {} && Binds(Kept2) == {};
    assert Binds(WeakPruned.body.rest.rest) == {};
  }

  lemma WeakRecollapses(cs: set<Name>, p: PStmt)
    requires cs == {N1} && p == WeakPruned
    ensures PutBack(cs, map[], p) == WeakPiece
  {
    var m: Subst := map[][N1 := Twice];
    assert Put(map[], Twice) == Twice by { PutNothing(Twice); }
    assert Put(m, Op2(Add, Read0(N1), Read0(Y))) == Thrice && Put(m, Read0(N2)) == Read0(N2);
    assert PutBack(cs, m, PutN2) == PutN2 && PutBack(cs, m, Inner) == Recollapsed;
    assert PutBack(cs, map[], If1Weak.els) == Recollapsed && PutBack(cs, map[], If1Weak) == If1Back;
    KeptBinds();
    PutBackNothing(cs, WeakPruned.body.rest);
    assert PutBack(cs, map[], WeakPruned.body) == PSeq(If1Back, WeakPruned.body.rest);
  }

  // the two pieces

  ghost predicate SumPieces(ps: seq<Piece>) {
    |ps| == 2 && !ps[0].away && !ps[1].away && ps[0].ast == StrongPruned && ps[1].ast == WeakPiece
  }

  lemma SumsBind()
    ensures Binds(WeakPhase) == {Y, N1, N2} && Binds(StrongPhase) == {N2}
  {
    assert Binds(Inner) == {N2} && Binds(If1Weak.els) == {N1, N2} && Binds(If1Weak) == {N1, N2};
    assert Binds(Replay) == {} && Binds(PWhen(Replay)) == {} && Binds(PWhen(PWhen(Replay))) == {} && Binds(If2Weak) == {};
    assert Binds(ListWeak.rest) == {} && Binds(ListWeak) == {N1, N2};
    assert Binds(MovesOnly) == {} && Binds(If1Strong) == {} && Binds(Bind2) == {N2} && Binds(PWhen(Bind2)) == {N2};
    assert Binds(PWhen(PWhen(Bind2))) == {N2} && Binds(If2Strong) == {N2} && Binds(StrongPruned) == {N2} && Binds(StrongPhase.rest) == {N2};
  }

  lemma WeakFrom(s: Stmt<Label>, weak: PStmt) returns (p: Piece)
    requires Project(BOTTOM, s) == weak && Prune.Prune(weak) == Prune.Phase(WeakPruned, NEEDS) && Binds(weak) == {Y, N1, N2}
    ensures p == PieceOf(BOTTOM, s, {}, false) && p.ast == WeakPiece && p.needs == NEEDS && !p.away
  {
    var cs := Owned(weak, NEEDS + {});
    assert cs == {N1};
    WeakRecollapses(cs, WeakPruned);
    p := PieceOf(BOTTOM, s, {}, false);
  }

  lemma StrongFrom(s: Stmt<Label>, strong: PStmt) returns (p: Piece)
    requires Project(TOP, s) == strong && Prune.Prune(strong).ast == StrongPruned && Binds(strong) == {N2}
    ensures p == PieceOf(TOP, s, NEEDS, false) && p.ast == StrongPruned && !p.away
  {
    var cs := Owned(strong, Prune.Prune(strong).needs + NEEDS);
    assert cs == {};
    PutBackNothing(cs, StrongPruned);
    p := PieceOf(TOP, s, NEEDS, false);
  }

  lemma PiecesFrom(s: Stmt<Label>, strong: PStmt, weak: PStmt)
    requires Project(TOP, s) == strong && Project(BOTTOM, s) == weak
    requires Prune.Prune(strong).ast == StrongPruned && Prune.Prune(weak) == Prune.Phase(WeakPruned, NEEDS)
    requires Binds(strong) == {N2} && Binds(weak) == {Y, N1, N2}
    ensures SumPieces(PiecesOf(PHASES, s, l => false))
  {
    var a := StrongFrom(s, strong);
    var b := WeakFrom(s, weak);
    PiecesAreTwo(s, l => false);
  }

  lemma SumPiecesAre(s: Stmt<Label>, strong: PStmt, weak: PStmt)
    requires s == SumsLabelled && strong == StrongPhase && weak == WeakPhase
    ensures SumPieces(PiecesOf(PHASES, s, l => false))
  {
    SumsProjectStrong();
    SumsProjectWeak();
    StrongPrunes(strong, PSeq(PSkip, PSeq(If1Empty, StrongPruned)));
    WeakPrunes(weak, NEEDS);
    SumsBind();
    PiecesFrom(s, strong, weak);
  }

  lemma StrongPieceRuns(st: Store, fuel: nat) returns (st': Store)
    requires At(st, N2) == Holder([], -1) && st.ret.None?
    ensures RunStops(StrongPruned, ARGS, st, fuel) == Done(st') && At(st', N2).log == [1] && At(st', Y) == At(st, Y) && st'.ret.None?
  {
    assert Eval(One, Gets(ARGS, st)) == Some(1) && Push(At(st, N2), 1) == Holder([1], 0);
    st' := Update(st, N2, Holder([1], 0));
    assert RunStops(PSkip, ARGS, st', fuel) == Done(st');
    assert RunStops(Bind2, ARGS, st, fuel) == Done(st');
    assert RunStops(PWhen(Bind2), ARGS, st, fuel) == Done(st') && RunStops(PWhen(PWhen(Bind2)), ARGS, st, fuel) == Done(st');
    assert RunStops(If2Strong, ARGS, st, fuel) == Done(st');
  }

  /** `y` gets the product where the program gives it the sum. */
  lemma RecollapsedRuns(st: Store, fuel: nat) returns (st': Store)
    requires At(st, Y) == Holder([1], 0) && At(st, N2) == Holder([1], -1) && st.ret.None?
    ensures RunStops(If1Back, ARGS, st, fuel) == Done(st') && At(st', N2) == Holder([1, 3], 0) && At(st', Y) == Holder([1, 1], 1) && st'.ret.None?
  {
    assert Get(ARGS, st, Y) == Some(1) && Eval(Twice, Gets(ARGS, st)) == Some(2) && Eval(Thrice, Gets(ARGS, st)) == Some(3);
    assert Push(At(st, N2), 3) == Holder([1, 3], 0);
    var st1 := Update(st, N2, Holder([1, 3], 0));
    assert Get(ARGS, st1, N2) == Some(1);
    st' := Update(st1, Y, Push(At(st1, Y), 1));
    assert RunStops(PutN2, ARGS, st1, fuel) == Done(st');
    assert RunStops(Recollapsed, ARGS, st, fuel) == Done(st');
  }

  /** And the sum where the program gives it the product. */
  lemma ReplayRuns(st: Store, fuel: nat) returns (st': Store)
    requires At(st, N2) == Holder([1, 3], 0) && At(st, Y) == Holder([1, 1], 1) && st.ret.None?
    ensures RunStops(Kept2, ARGS, st, fuel) == Done(st') && Get(ARGS, st', Y) == Some(3) && st'.ret.None?
  {
    var st1 := Update(st, N2, Increment(At(st, N2)));
    assert Get(ARGS, st1, N2) == Some(3);
    st' := Update(st1, Y, Push(At(st1, Y), 3));
    var last := PSeq(PutN2, PSkip);
    assert RunStops(last, ARGS, st1, fuel) == Done(st');
    var k := PSeq(PIncrement(N2), last);
    assert RunStops(k, ARGS, st, fuel) == Done(st');
    assert RunStops(PWhen(k), ARGS, st, fuel) == Done(st') && RunStops(PWhen(PWhen(k)), ARGS, st, fuel) == Done(st');
  }

  lemma BackRuns(st: Store, fuel: nat)
    requires Get(ARGS, st, Y) == Some(3)
    ensures RunStops(PSeq(PReturn(Read0(Y)), PSkip), ARGS, st, fuel) == Done(st.(ret := Some(3)))
  {
    assert RunStops(PReturn(Read0(Y)), ARGS, st, fuel) == Done(st.(ret := Some(3)));
  }

  lemma WeakListRuns(st: Store, fuel: nat)
    requires At(st, Y) == Holder([1], 0) && At(st, N2) == Holder([1], -1) && st.ret.None?
    ensures var r := RunStops(WeakPiece.body, ARGS, st, fuel); r.Done? && r.s.ret == Some(3)
  {
    var st1 := RecollapsedRuns(st, fuel);
    var st2 := ReplayRuns(st1, fuel);
    var back := PSeq(PReturn(Read0(Y)), PSkip);
    BackRuns(st2, fuel);
    assert RunStops(PSeq(Kept2, back), ARGS, st1, fuel) == RunStops(back, ARGS, st2, fuel);
  }

  lemma WeakPieceRuns(st: Store, fuel: nat)
    requires At(st, Y) == Holder([], -1) && At(st, N2) == Holder([1], -1) && st.ret.None?
    ensures var r := RunStops(WeakPiece, ARGS, st, fuel); r.Done? && r.s.ret == Some(3)
  {
    GetSendsInPhase(ARGS, st);
    var st0 := st.(remote := Send(ARGS, st.remote, BOTTOM, GET).0);
    assert Push(At(st0, Y), 1) == Holder([1], 0);
    WeakListRuns(Update(st0, Y, Holder([1], 0)), fuel);
  }

  lemma PiecesReturn(ps: seq<Piece>, remote: map<Label, seq<Event>>, fuel: nat)
    requires SumPieces(ps)
    ensures var r := RunShippedStops(ps, ARGS, Launch(remote), fuel); r.Done? && r.s.ret == Some(3)
  {
    var st1 := StrongPieceRuns(BeginPhase(Launch(remote)), fuel);
    BeginAt(st1, N2);
    BeginAt(st1, Y);
    WeakPieceRuns(BeginPhase(st1), fuel);
    TwoPieces(ps, ARGS, Launch(remote), st1, fuel);
  }

  lemma PhasesFault(remote: map<Label, seq<Event>>, fuel: nat)
    ensures RunPhases(PHASES, SumsLabelled, ARGS, Launch(remote), fuel).Fault?
  {
    SumsProjectStrong();
    StrongFaults(BeginPhase(Launch(remote)), fuel);
    assert PHASES[0] == TOP;
  }

  lemma NamesShared()
    ensures !Once(Operation, SumsLabelled) && !Stepwise(SumsLabelled)
  {
    assert N2 in W.Bound(Let2) && N2 in W.Bound(Let1) && N2 in W.Bound(IfAt1);
    assert N2 in W.Bound(Let3) && N2 in W.Bound(WhenAt(Let3)) && N2 in W.Bound(WhenAt(WhenAt(Let3))) && N2 in W.Bound(IfAt2) && N2 in W.Bound(List.rest);
    assert !Once(Operation, List);
    assert !Keeps(IfAt1) && !Stepwise(List);
  }

  /** The program uses no name twice; it is accepted, and it returns the product. But the second sum and
      the product get one name and different labels, so no signature describes it. Its strong phase
      fails; pruned it goes through, and the weak one, pruned and recollapsed, reads the product where it
      should read the sum, and returns the sum. */
  lemma OwnNamesAreNeeded(remote: map<Label, seq<Event>>, fuel: nat)
    ensures CompilesTo(ARGS, Sums, SumsLabelled) && CallsPermitted(TOP, SumsLabelled)
    ensures !Once(Operation, SumsLabelled) && !Stepwise(SumsLabelled) && forall sig: W.Sig :: !Described(sig, ARGS, SumsLabelled)
    ensures var w := Exec(SumsLabelled, ARGS, Start(remote), fuel); w.Done? && w.s.ret == Some(1)
    ensures RunPhases(PHASES, SumsLabelled, ARGS, Launch(remote), fuel).Fault?
    ensures var r := RunShippedStops(PiecesOf(PHASES, SumsLabelled, l => false), ARGS, Launch(remote), fuel);
            r.Done? && r.s.ret == Some(3)
  {
    SumsAreCompiled(Sums, SumsLabelled);
    NothingDescribes();
    CallsAreFine();
    NamesShared();
    SumsSource(remote, fuel);
    PhasesFault(remote, fuel);
    SumPiecesAre(SumsLabelled, StrongPhase, WeakPhase);
    PiecesReturn(PiecesOf(PHASES, SumsLabelled, l => false), remote, fuel);
  }
}
