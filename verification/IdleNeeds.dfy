/** Variables that a phase is sent without need: what pruning forgets. */
module IdleNeeds {
  import opened Labels
  import opened Syntax
  import opened SplitPhase
  import opened Flows
  import opened Phases
  import opened Flatten
  import opened FlattenCorrect
  import opened DesugarCorrect
  import opened EndToEnd
  import opened Complete
  import opened Samples
  import opened Frame
  import opened PieceSamples
  import opened PruneClean
  import Prune
  import W = WellLabelled

  const Inside: Stmt<()> := If((), Read0(Y), Skip(()), Skip(()))
  const Outside: Stmt<()> := If((), Read0(X), Inside, Skip(()))

  /** `x = true; y = true; if (x) { if (y) {} else {} } else {} return false` */
  const Idle: Stmt<()> := Let((), (), X, Pure(Read0(True)), Let((), (), Y, Pure(Read0(True)), Seq((), Outside, Return((), Read0(False)))))

  const InsideAt: Stmt<Label> := If(TOP, ReadAt(TOP, Y), Skip(TOP), Skip(TOP))
  const OutsideAt: Stmt<Label> := If(TOP, ReadAt(TOP, X), InsideAt, Skip(TOP))
  const ReturnAt: Stmt<Label> := Return(BOTTOM, ReadAt(TOP, False))
  const BindY: Stmt<Label> := Let(TOP, TOP, Y, Pure(ReadAt(TOP, True)), Seq(TOP, OutsideAt, ReturnAt))
  const IdleLabelled: Stmt<Label> := Let(TOP, TOP, X, Pure(ReadAt(TOP, True)), BindY)

  lemma IdleStrips()
    ensures StripStmt(IdleLabelled) == Idle && InAnf(Idle)
  {
    assert StripStmt(InsideAt) == Inside && StripStmt(OutsideAt) == Outside && StripStmt(BindY.body) == Idle.body.body && StripStmt(BindY) == Idle.body;
    assert InAnf(Inside) && InAnf(Outside) && InAnf(Idle.body.body) && InAnf(Idle.body);
  }

  lemma IdleLooks()
    ensures W.Loops(IdleLabelled) == {} && AllTop(IdleLabelled) && BOTTOM in Collected(IdleLabelled)
  {
    assert W.Loops(InsideAt) == {} && W.Loops(OutsideAt) == {} && W.Loops(BindY.body) == {} && W.Loops(BindY) == {};
    assert AllTop(InsideAt) && AllTop(OutsideAt) && AllTop(BindY.body) && AllTop(BindY);
    assert BOTTOM in Collected(BindY.body) && BOTTOM in Collected(BindY);
  }

  lemma IdleIsParsed()
    ensures Parsed(Idle) && UserInputs(ARGS)
  {
    ArgsAreUsers(ARGS);
    assert Parsed(Inside) && Parsed(Outside) && Parsed(Idle.body.body.rest) && Parsed(Idle.body.body) && Parsed(Idle.body);
  }

  lemma IdleIsCompiled()
    ensures CompilesTo(ARGS, Idle, IdleLabelled) && BOTTOM in Collected(IdleLabelled)
  {
    IdleStrips();
    IdleIsParsed();
    IdleLooks();
    IdleFlows();
    TopPicks(1, 1, IdleLabelled);
    forall r | Plain(r) == Plain(IdleLabelled) && StmtFlows(ARGS, map[], TOP, r) ensures Weaker(r, IdleLabelled) {
      TopIsStrongest(r, IdleLabelled);
    }
    StraightIsCompiled(ARGS, t => TOP, Idle, IdleLabelled);
  }

  lemma IdleFlows()
    ensures StmtFlows(ARGS, map[], TOP, IdleLabelled)
  {
    var scope: Places := map[][X := Place(TOP, TOP)];
    var inside := scope[Y := Place(TOP, TOP)];
    assert StmtFlows(ARGS, inside, TOP, InsideAt) && StmtFlows(ARGS, inside, TOP, OutsideAt) && StmtFlows(ARGS, inside, TOP, ReturnAt);
    assert StmtFlows(ARGS, inside, TOP, BindY.body) && StmtFlows(ARGS, scope, TOP, BindY);
  }

  const InsideWeak: PStmt := PIf(Read0(Y), PSkip, PSkip)
  const OutsideWeak: PStmt := PIf(Read0(X), InsideWeak, PSkip)
  const BodyWeak: PStmt := PSeq(OutsideWeak, PReturn(Read0(False)))
  const IdleWeak: PStmt := PSeq(PIncrement(X), PSeq(PIncrement(Y), BodyWeak))

  lemma IdleProjects()
    ensures Project(BOTTOM, IdleLabelled) == IdleWeak
  {
    assert Project(BOTTOM, InsideAt) == InsideWeak && Project(BOTTOM, OutsideAt) == OutsideWeak;
    assert Project(BOTTOM, BindY.body) == BodyWeak && Project(BOTTOM, BindY) == PSeq(PIncrement(Y), BodyWeak);
  }

  lemma IdleNeeds()
    ensures Prune.Required(IdleWeak, {}) == {X, Y} && Drop({X, Y}, IdleWeak) == IdleWeak
  {
    assert Prune.Required(InsideWeak, {}) == {Y} && Prune.Required(OutsideWeak, {}) == {X, Y} && Prune.Required(BodyWeak, {}) == {X, Y};
    assert Prune.Required(PSeq(PIncrement(Y), BodyWeak), {}) == {X, Y};
    var both := {X, Y};
    KeepsIf(both, Read0(Y), PSkip, PSkip);
    KeepsIf(both, Read0(X), InsideWeak, PSkip);
    KeepsSeq(both, OutsideWeak, PReturn(Read0(False)));
    KeepsMove(both, Y);
    KeepsSeq(both, PIncrement(Y), BodyWeak);
    KeepsMove(both, X);
    KeepsSeq(both, PIncrement(X), PSeq(PIncrement(Y), BodyWeak));
  }

  lemma IdleClears()
    ensures Prune.Clear(IdleWeak) == Prune.Cleared(PSeq(PIncrement(X), Left), {X}, {False})
  {
    var x, y, r := PIncrement(X), PIncrement(Y), PReturn(Read0(False));
    assert Prune.Clear(InsideWeak) == Prune.Cleared(PSkip, {Y}, {}) && Prune.Clear(OutsideWeak) == Prune.Cleared(PSkip, {X}, {});
    ClearsTo(OutsideWeak, r, [], [r]);
    assert [] + [r] == [r];
    ItemsBack([r]);
    ClearsTo(y, BodyWeak, [y], [r]);
    assert [y] + [r] == [y, r];
    ItemsBack([y, r]);
    ClearsTo(x, PSeq(y, BodyWeak), [x], [y, r]);
    assert [x] + [y, r] == [x, y, r];
    Three(x, y, r);
  }

  const Last: PStmt := PSeq(PReturn(Read0(False)), PSkip)
  const Left: PStmt := PSeq(PIncrement(Y), Last)

  lemma IdleDrops()
    ensures Drop({Y}, PSeq(PIncrement(X), Left)) == PSeq(PSkip, Left) && {X, Y} - ({X} - {False}) == {Y}
  {
    KeepsSeq({Y}, PReturn(Read0(False)), PSkip);
    KeepsMove({Y}, Y);
    KeepsSeq({Y}, PIncrement(Y), Last);
  }

  lemma IdlePrunes(p: PStmt, c: Prune.Cleared, needs: set<Name>, left: set<Name>)
    requires p == IdleWeak && c == Prune.Cleared(PSeq(PIncrement(X), Left), {X}, {False}) && needs == {X, Y} && left == {Y}
    ensures Prune.Prune(p) == Prune.Phase(PSeq(PSkip, Left), left)
  {
    IdleNeeds();
    IdleClears();
    IdleDrops();
    PrunesTo(p, needs, p, c, left, PSeq(PSkip, Left));
  }

  lemma LeftUses()
    ensures Y !in Uses(PSeq(PSkip, Left))
  {
    assert Uses(Last) == {False} && Uses(Left) == {False};
  }

  /** `y` is looked at in an empty conditional inside another one. Pruning takes both out of the last
      phase, but the removal of the inner one is forgotten when the outer one goes: the phase is still
      sent `y` and moves its cursor, and nothing in it looks at `y`. */
  lemma NestedConditionStaysRequired()
    ensures CompilesTo(ARGS, Idle, IdleLabelled) && BOTTOM in Collected(IdleLabelled) && Project(BOTTOM, IdleLabelled) == IdleWeak
    ensures Prune.Prune(IdleWeak) == Prune.Phase(PSeq(PSkip, Left), {Y}) && Y !in Uses(PSeq(PSkip, Left))
  {
    IdleIsCompiled();
    IdleProjects();
    IdlePrunes(IdleWeak, Prune.Cleared(PSeq(PIncrement(X), Left), {X}, {False}), {X, Y}, {Y});
    LeftUses();
  }

  // --- an empty conditional that stays ---

  const Touch: Stmt<()> := If((), Read0(X), Assign((), Ref((), Y), Read0(False)), Skip(()))

  /** `x = true; y = true; if (y) {} else {} if (x) { y = false } else {} return false` */
  const Spends: Stmt<()> :=
    Let((), (), X, Pure(Read0(True)), Let((), (), Y, Pure(Read0(True)), Seq((), Inside, Seq((), Touch, Return((), Read0(False))))))

  const TouchAt: Stmt<Label> := If(TOP, ReadAt(TOP, X), Assign(TOP, Ref(TOP, Y), ReadAt(TOP, False)), Skip(TOP))
  const RestAt: Stmt<Label> := Seq(TOP, TouchAt, ReturnAt)
  const BodyAt: Stmt<Label> := Let(TOP, TOP, Y, Pure(ReadAt(TOP, True)), Seq(TOP, InsideAt, RestAt))
  const SpendsLabelled: Stmt<Label> := Let(TOP, TOP, X, Pure(ReadAt(TOP, True)), BodyAt)

  lemma SpendsStrips()
    ensures StripStmt(SpendsLabelled) == Spends && InAnf(Spends)
  {
    var list := Spends.body.body;
    assert StripStmt(InsideAt) == Inside && StripStmt(TouchAt) == Touch && StripStmt(RestAt) == list.rest;
    assert StripStmt(BodyAt.body) == list && StripStmt(BodyAt) == Spends.body;
    assert InAnf(Inside) && InAnf(Touch.thn) && InAnf(Touch) && InAnf(list.rest) && InAnf(list) && InAnf(Spends.body);
  }

  lemma SpendsIsParsed()
    ensures Parsed(Spends) && UserInputs(ARGS)
  {
    ArgsAreUsers(ARGS);
    var list := Spends.body.body;
    assert Parsed(Inside) && Parsed(Touch.thn) && Parsed(Touch) && Parsed(list.rest.rest) && Parsed(list.rest) && Parsed(list) && Parsed(Spends.body);
  }

  lemma SpendsLooks()
    ensures W.Loops(SpendsLabelled) == {} && AllTop(SpendsLabelled) && BOTTOM in Collected(SpendsLabelled)
  {
    assert W.Loops(InsideAt) == {} && W.Loops(TouchAt) == {} && W.Loops(RestAt) == {} && W.Loops(BodyAt.body) == {} && W.Loops(BodyAt) == {};
    assert AllTop(InsideAt) && AllTop(TouchAt) && AllTop(RestAt) && AllTop(BodyAt.body) && AllTop(BodyAt);
    assert BOTTOM in Collected(RestAt) && BOTTOM in Collected(BodyAt.body) && BOTTOM in Collected(BodyAt);
  }

  lemma SpendsFlows()
    ensures StmtFlows(ARGS, map[], TOP, SpendsLabelled)
  {
    var scope: Places := map[][X := Place(TOP, TOP)];
    var inside := scope[Y := Place(TOP, TOP)];
    assert StmtFlows(ARGS, inside, TOP, InsideAt) && StmtFlows(ARGS, inside, TOP, TouchAt.thn) && StmtFlows(ARGS, inside, TOP, TouchAt);
    assert StmtFlows(ARGS, inside, TOP, ReturnAt) && StmtFlows(ARGS, inside, TOP, RestAt);
    assert StmtFlows(ARGS, inside, TOP, BodyAt.body) && StmtFlows(ARGS, scope, TOP, BodyAt);
  }

  lemma SpendsIsCompiled()
    ensures CompilesTo(ARGS, Spends, SpendsLabelled) && BOTTOM in Collected(SpendsLabelled)
  {
    SpendsStrips();
    SpendsIsParsed();
    SpendsLooks();
    SpendsFlows();
    TopPicks(1, 1, SpendsLabelled);
    forall r | Plain(r) == Plain(SpendsLabelled) && StmtFlows(ARGS, map[], TOP, r) ensures Weaker(r, SpendsLabelled) {
      TopIsStrongest(r, SpendsLabelled);
    }
    StraightIsCompiled(ARGS, t => TOP, Spends, SpendsLabelled);
  }

  const TouchWeak: PStmt := PIf(Read0(X), PIncrement(Y), PSkip)
  const RestWeak: PStmt := PSeq(TouchWeak, PReturn(Read0(False)))
  const ListWeak: PStmt := PSeq(InsideWeak, RestWeak)
  const SpendsWeak: PStmt := PSeq(PIncrement(X), PSeq(PIncrement(Y), ListWeak))

  lemma SpendsProjects()
    ensures Project(BOTTOM, SpendsLabelled) == SpendsWeak
  {
    assert Project(BOTTOM, InsideAt) == InsideWeak && Project(BOTTOM, TouchAt) == TouchWeak && Project(BOTTOM, RestAt) == RestWeak;
    assert Project(BOTTOM, BodyAt.body) == ListWeak && Project(BOTTOM, BodyAt) == PSeq(PIncrement(Y), ListWeak);
  }

  lemma SpendsNeeds(both: set<Name>)
    requires both == {X, Y}
    ensures Prune.Required(SpendsWeak, {}) == both && Drop(both, SpendsWeak) == SpendsWeak
  {
    assert Prune.Required(InsideWeak, {}) == {Y} && Prune.Required(TouchWeak, {}) == {X} && Prune.Required(RestWeak, {}) == {X};
    assert Prune.Required(ListWeak, {}) == {X, Y} && Prune.Required(PSeq(PIncrement(Y), ListWeak), {}) == {X, Y};
    KeepsIf(both, Read0(Y), PSkip, PSkip);
    KeepsMove(both, Y);
    KeepsMove(both, X);
    KeepsIf(both, Read0(X), PIncrement(Y), PSkip);
    KeepsSeq(both, TouchWeak, PReturn(Read0(False)));
    KeepsSeq(both, InsideWeak, RestWeak);
    KeepsSeq(both, PIncrement(Y), ListWeak);
    KeepsSeq(both, PIncrement(X), PSeq(PIncrement(Y), ListWeak));
  }

  /** What is left when the first conditional has been removed, and when the moves of `y` have been. */
  const Once: PStmt := PSeq(PIncrement(X), PSeq(PIncrement(Y), PSeq(TouchWeak, Last)))
  const Twice: PStmt := PSeq(PIncrement(X), PSeq(PSkip, PSeq(PIf(Read0(X), PSkip, PSkip), Last)))

  lemma TouchClears()
    ensures Prune.Clear(TouchWeak) == Prune.Cleared(TouchWeak, {}, {X})
  {
    assert Prune.Items(PIncrement(Y)) == [PIncrement(Y)];
  }

  lemma RestClears(t: PStmt, r: PStmt)
    requires t == TouchWeak && r == PReturn(Read0(False))
    ensures var c := Prune.Clear(RestWeak); Prune.Items(c.ast) == [t, r] && c.gone == {} && c.still == {X, False}
  {
    TouchClears();
    assert Prune.Items(t) + Prune.Items(r) == [t, r];
    ClearsItems(t, r, [t, r]);
  }

  lemma SpendsClears(t: PStmt, r: PStmt)
    requires t == TouchWeak && r == PReturn(Read0(False))
    ensures Prune.Clear(SpendsWeak) == Prune.Cleared(Once, {Y}, {X, False})
  {
    RestClears(t, r);
    EmptyInFront(Read0(Y), RestWeak, [t, r]);
    MovesInFront(X, Y, ListWeak, t, r);
  }

  lemma SpendsDrops(left: set<Name>)
    requires left == {X}
    ensures Drop(left, Once) == Twice && {X, Y} - ({Y} - {X, False}) == left
  {
    KeepsSeq(left, PReturn(Read0(False)), PSkip);
    assert Drop(left, TouchWeak) == PIf(Read0(X), PSkip, PSkip);
    assert Drop(left, PSeq(TouchWeak, Last)) == PSeq(PIf(Read0(X), PSkip, PSkip), Last);
    KeepsMove(left, X);
  }

  lemma SpendsPrunes(p: PStmt, c: Prune.Cleared, needs: set<Name>, left: set<Name>)
    requires p == SpendsWeak && c == Prune.Cleared(Once, {Y}, {X, False}) && needs == {X, Y} && left == {X}
    ensures Prune.Prune(p) == Prune.Phase(Twice, left)
  {
    SpendsNeeds(needs);
    SpendsClears(TouchWeak, PReturn(Read0(False)));
    SpendsDrops(left);
    PrunesTo(p, needs, p, c, left, Twice);
  }

  /** The moves of `y`, which only a removed conditional looked at, are dropped after the conditionals have
      been cleared away. One that holds nothing else is left with two empty branches, and the phase is
      still sent `x` to decide between them. */
  lemma EmptyConditionalStays()
    ensures CompilesTo(ARGS, Spends, SpendsLabelled) && BOTTOM in Collected(SpendsLabelled) && Project(BOTTOM, SpendsLabelled) == SpendsWeak
    ensures Prune.Prune(SpendsWeak) == Prune.Phase(Twice, {X}) && !NoneEmpty(Twice)
  {
    SpendsIsCompiled();
    SpendsProjects();
    SpendsPrunes(SpendsWeak, Prune.Cleared(Once, {Y}, {X, False}), {X, Y}, {X});
    TwiceHasOne();
  }

  lemma TwiceHasOne()
    ensures !NoneEmpty(Twice)
  {
    var c := PIf(Read0(X), PSkip, PSkip);
    assert !NoneEmpty(c) && !NoneEmpty(PSeq(c, Last)) && !NoneEmpty(PSeq(PSkip, PSeq(c, Last)));
  }
}
