/** Programs in which two bindings get one id, or two generated names are one, because they stand at
    corresponding places of neighbouring blocks. */
module SharedPlaces {
  import opened Labels
  import opened Syntax
  import opened Semantics
  import opened SplitPhase
  import opened Symbolic
  import opened Typecheck
  import opened Compile
  import opened Flows
  import opened Flatten
  import opened FlattenCorrect
  import opened DesugarCorrect
  import opened EndToEnd
  import opened Complete
  import opened Samples
  import opened OwnNames
  import W = WellLabelled

  // --- one id ---

  const PutK: Stmt<()> := Perform((), Invoke(TOP, "put", Ref((), STRONG), [Ref((), K)]))
  const Block1: Stmt<()> := Let((), (), X, Pure(Const(5)), Seq((), PutStmt, Let((), (), Z, GetRhs, Skip(()))))
  const Block2: Stmt<()> := Let((), (), Y, Pure(Const(5)), Let((), (), K, Pure(Const(5)), PutK))

  /** `{ x = 5; weak.put(); z = weak.get() } { y = 5; k = 5; strong.put(k) }` */
  const Refused: Stmt<()> := Seq((), Block1, Block2)

  const SendK: Stmt<Label> := Perform(TOP, Invoke(TOP, "put", Ref(TOP, STRONG), [Ref(TOP, K)]))
  const GetZ: Stmt<Label> := Let(BOTTOM, BOTTOM, Z, GetLabelled, Skip(TOP))
  const Labelled1: Stmt<Label> := Let(TOP, TOP, X, Pure(Const(5)), Seq(TOP, PutLabelled, GetZ))
  const BindK: Stmt<Label> := Let(TOP, TOP, K, Pure(Const(5)), SendK)
  const Labelled2: Stmt<Label> := Let(TOP, TOP, Y, Pure(Const(5)), BindK)

  /** Labels that meet the flows: only `z` is weak. */
  const RefusedLabelled: Stmt<Label> := Seq(TOP, Labelled1, Labelled2)

  lemma SendKFlows(scope: Places)
    requires K in scope && scope[K].level == TOP && STRONG !in scope
    ensures StmtFlows(ARGS, scope, TOP, SendK)
  {
    assert W.IsInput(ARGS, STRONG);
    var rs := SendK.call.args;
    assert rs[0].x == K && rs[0].l == TOP && rs[1..] == [] && RefsFlow(ARGS, scope, rs) && W.RefsLabel(rs) == TOP;
  }

  lemma RefusedFlows()
    ensures StmtFlows(ARGS, map[], TOP, RefusedLabelled)
  {
    var s: Places := map[][X := Place(TOP, TOP)];
    var t: Places := map[][Y := Place(TOP, TOP)];
    assert W.IsInput(ARGS, WEAK) && WEAK !in s && W.RefsLabel(GetLabelled.call.args) == TOP && W.RefsLabel(PutLabelled.call.args) == TOP;
    assert StmtFlows(ARGS, s, TOP, PutLabelled) && StmtFlows(ARGS, s, TOP, GetZ) && StmtFlows(ARGS, s, TOP, Labelled1.body);
    SendKFlows(t[K := Place(TOP, TOP)]);
    assert StmtFlows(ARGS, t, TOP, BindK);
    assert StmtFlows(ARGS, map[], TOP, Labelled1) && StmtFlows(ARGS, map[], TOP, Labelled2);
  }

  lemma RefusedStrips()
    ensures StripStmt(RefusedLabelled) == Refused && FlattenExpressions(Refused) == Refused
  {
    GetStrips();
    PutStrips();
    var rs := SendK.call.args;
    assert rs[1..] == [] && StripRefs(rs) == [Ref((), K)] + StripRefs(rs[1..]) == PutK.call.args;
    assert StripStmt(SendK) == PutK && StripStmt(GetZ) == Block1.body.rest && StripStmt(Labelled1.body) == Block1.body;
    assert StripStmt(BindK) == Block2.body && StripStmt(Labelled1) == Block1 && StripStmt(Labelled2) == Block2;
    RefusedStays();
  }

  lemma RefusedStays()
    ensures FlattenExpressions(Refused) == Refused
  {
    assert InAnf(PutStmt) && InAnf(Block1.body.rest) && InAnf(Block1.body) && InAnf(Block1);
    assert InAnf(PutK) && InAnf(Block2.body) && InAnf(Block2);
    assert W.Loops(PutStmt) == {} && W.Loops(PutK) == {};
    assert W.Loops(Block1.body.rest) == {} && W.Loops(Block1.body) == {} && W.Loops(Block2.body) == {} && W.Loops(Block1) == {} && W.Loops(Block2) == {};
    NoLoopsStays(1, 1, Refused);
    FlatStays(1, 1, Refused);
  }

  /** In every labelled form `z` is weak and `k` strong. */
  lemma LabelsDiffer(r: Stmt<Label>)
    requires Labelled(ARGS, Refused, r)
    ensures r.Seq? && r.first.Let? && r.first.body.Seq? && r.first.body.rest.Let? && r.first.body.rest.bl == BOTTOM
    ensures r.rest.Let? && r.rest.body.Let? && r.rest.body.bl == TOP
  {
    assert StripStmt(r.first) == Block1 && StripStmt(r.rest) == Block2;
    var a, b := r.first, r.rest;
    assert StripStmt(a.body) == Block1.body && StripStmt(b.body) == Block2.body;
    assert StripStmt(a.body.rest) == Block1.body.rest;
    assert a.x == X && StripRhs(a.body.rest.rhs) == GetRhs;
    var s := map[][X := Place(a.bl, a.l)];
    assert StmtFlows(ARGS, map[], TOP, a) && StmtFlows(ARGS, s, TOP, a.body) && StmtFlows(ARGS, s, TOP, a.body.rest);
    GetIsWeak(ARGS, s, a.body.rest);
    assert b.x == Y;
    var t := map[][Y := Place(b.bl, b.l)];
    assert StmtFlows(ARGS, map[], TOP, b) && StmtFlows(ARGS, t, TOP, b.body);
    KIsStrong(t, b.body);
  }

  lemma KIsStrong(scope: Places, r: Stmt<Label>)
    requires StripStmt(r) == Block2.body && StmtFlows(ARGS, scope, TOP, r)
    ensures r.bl == TOP
  {
    var inside := scope[K := Place(r.bl, r.l)];
    var c := r.body.call;
    assert StripStmt(r.body) == PutK && StripCall(c) == PutK.call && c.handleLabel == TOP;
    assert |StripRefs(c.args)| == 1 && StripRefs(c.args)[0].x == K;
    assert c.args != [] && StripRefs(c.args)[0] == StripRef(c.args[0]);
    assert RefsFlow(ARGS, inside, c.args) && c.args[0].x == K && c.args[0].l == r.bl;
  }

  /** Both get the id `(3, 2)`, so no labelling the compiler considers tells them apart. */
  lemma PicksAlike(sigma: Assignment, r: Stmt<Label>)
    requires Picks(sigma, 1, 1, r) && StripStmt(r) == Refused
    ensures r.Seq? && r.first.Let? && r.first.body.Seq? && r.first.body.rest.Let? && r.rest.Let? && r.rest.body.Let?
    ensures r.first.body.rest.bl == r.rest.body.bl
  {
    assert StripStmt(r.first) == Block1 && StripStmt(r.rest) == Block2;
    assert StripStmt(r.first.body) == Block1.body && StripStmt(r.rest.body) == Block2.body;
    assert StripStmt(r.first.body.rest) == Block1.body.rest;
    assert Picks(sigma, 1, 1, r.first) && Picks(sigma, 2, 1, r.rest);
    assert Picks(sigma, 2, 2, r.first.body) && Picks(sigma, 3, 2, r.rest.body);
    assert Picks(sigma, 3, 2, r.first.body.rest);
  }

  /** Two bindings with one id: the program can be labelled so that it meets its flows, and the compiler
      refuses it. */
  lemma OwnIdsAreNeeded(labels: seq<Label>)
    ensures !OwnIds(1, 1, FlattenExpressions(Refused)) && !Stepwise(FlattenExpressions(Refused))
    ensures Parsed(Refused) && UserInputs(ARGS) && Labelled(ARGS, FlattenExpressions(Refused), RefusedLabelled)
    ensures Check(1, 1, RootScope(ARGS), Con(TOP), FlattenExpressions(Refused)).Some? && !Accepted(ARGS, labels, Refused)
  {
    RefusedChecks();
    RefusedIsParsed();
    RefusedFlows();
    RefusedStrips();
    if Accepted(ARGS, labels, Refused) {
      var sigma := AcceptedIsLabelled(ARGS, labels, Refused);
      var r := FrontEnd(ARGS, labels, Refused).value;
      LabelsDiffer(r);
      PicksAlike(sigma, r);
      assert false;
    }
    IdsShared();
  }

  /** It is scoped as it should be. */
  lemma RefusedChecks()
    ensures Check(1, 1, RootScope(ARGS), Con(TOP), Refused).Some?
  {
    var root := RootScope(ARGS);
    assert WEAK in ARGS.inputs && STRONG in ARGS.inputs && WEAK in root && STRONG in root;
    var s, t := root[X := Temp(TempId(1, 1))], root[Y := Temp(TempId(2, 1))];
    assert CheckCall(s, PutStmt.call).Some? && CheckCall(s, GetRhs.call).Some?;
    assert Check(2, 2, s, Con(TOP), Block1.body.first).Some? && Check(3, 2, s, Con(TOP), Block1.body.rest).Some?;
    assert Check(2, 2, s, Con(TOP), Block1.body).Some?;
    var u := t[K := Temp(TempId(3, 2))];
    var rs := PutK.call.args;
    assert rs[0].x == K && rs[1..] == [] && CheckRefs(u, rs[1..]) == Some([]) && CheckRefs(u, rs).Some?;
    assert Check(4, 3, u, Con(TOP), PutK).Some? && Check(3, 2, t, Con(TOP), Block2.body).Some?;
    assert Check(1, 1, root, Con(TOP), Block1).Some? && Check(2, 1, root, Con(TOP), Block2).Some?;
  }

  lemma RefusedIsParsed()
    ensures Parsed(Refused) && UserInputs(ARGS)
  {
    ArgsAreUsers(ARGS);
    CallsAreParsed();
    var rs := PutK.call.args;
    assert rs[1..] == [] && RefNames(rs) == {K} + RefNames(rs[1..]) == {K};
    assert Parsed(PutK) && Parsed(Block2.body) && Parsed(Block2) && Parsed(Block1.body.rest) && Parsed(Block1.body) && Parsed(Block1);
  }

  lemma IdsShared()
    ensures !OwnIds(1, 1, Refused) && !Stepwise(Refused)
  {
    assert TempId(3, 2) in Ids(3, 2, Block1.body.rest) && TempId(3, 2) in Ids(2, 2, Block1.body) && TempId(3, 2) in Ids(1, 1, Block1);
    assert TempId(3, 2) in Ids(3, 2, Block2.body) && TempId(3, 2) in Ids(2, 1, Block2);
    if Stepwise(Refused) { StepwiseOwns(1, 1, Refused); }
  }
}
