/** Programs that show each condition of the splitting theorem is needed: the compiler accepts them,
    and their phases do something else than they do. */
module Necessity {
  import opened Labels
  import opened Syntax
  import opened Semantics
  import opened SplitPhase
  import opened PhaseRun
  import opened WellLabelled
  import opened Flows
  import opened Replay
  import opened Phases
  import opened Flatten
  import opened FlattenCorrect
  import opened DesugarCorrect
  import opened EndToEnd
  import opened Complete
  import opened Samples

  // --- binding twice what weaker phases write ---

  /** `y = weak.get(); { x = 5; x = y; weak.put(x) } { x = 5; x = y }` */
  const Rebinds: Stmt<()> :=
    Let((), (), Y, GetRhs,
        Seq((), Let((), (), X, Pure(Const(5)), Seq((), Assign((), Ref((), X), Read0(Y)), PutX)),
                Let((), (), X, Pure(Const(5)), Assign((), Ref((), X), Read0(Y)))))

  const SetX: Stmt<Label> := Assign(BOTTOM, Ref(BOTTOM, X), ReadAt(BOTTOM, Y))
  const Block1: Stmt<Label> := Let(TOP, BOTTOM, X, Pure(Const(5)), Seq(TOP, SetX, SendX(BOTTOM)))
  const Block2: Stmt<Label> := Let(TOP, BOTTOM, X, Pure(Const(5)), SetX)

  /** What the compiler makes of it: `x` is weak, but bound by strong statements. */
  const RebindsLabelled: Stmt<Label> := Let(BOTTOM, BOTTOM, Y, GetLabelled, Seq(TOP, Block1, Block2))

  const LateSig := Sig(x => BOTTOM, (x: Name) => if x == X then TOP else BOTTOM, (x: Name) => x == X, n => TOP)

  lemma RebindsFlow()
    ensures StmtFlows(ARGS, map[], TOP, RebindsLabelled)
  {
    var scope: Places := map[Y := Place(BOTTOM, BOTTOM)];
    var inside := scope[X := Place(BOTTOM, TOP)];
    assert IsInput(ARGS, WEAK) && WEAK != X && WEAK != Y;
    assert StmtFlows(ARGS, inside, TOP, SetX);
    SendXFlows(inside, BOTTOM);
    assert StmtFlows(ARGS, scope, TOP, Block1) && StmtFlows(ARGS, scope, TOP, Block2);
    assert map[][Y := Place(BOTTOM, BOTTOM)] == scope;
  }

  lemma RebindsAreWeak(r: Stmt<Label>)
    requires Plain(r) == Plain(RebindsLabelled) && StmtFlows(ARGS, map[], TOP, r)
    ensures Weaker(r, RebindsLabelled)
  {
    GetStrips();
    GetIsWeak(ARGS, map[], r);
    var scope := map[][Y := Place(r.bl, r.l)];
    assert Plain(r.body) == Plain(RebindsLabelled.body);
    assert Plain(r.body.first) == Plain(Block1) && Plain(r.body.rest) == Plain(Block2);
    assert Plain(r.body.first.body) == Plain(Block1.body) && Plain(r.body.rest.body) == Plain(Block2.body);
    assert Plain(r.body.first.body.first) == Plain(SetX);
    SetIsWeak(ARGS, scope, r.body.first, r.body.first.body.first);
    SetIsWeak(ARGS, scope, r.body.rest, r.body.rest.body);
    assert Weaker(r.body.first, Block1) && Weaker(r.body.rest, Block2) && Weaker(r.body, RebindsLabelled.body);
  }

  lemma RebindsStrip()
    ensures StripStmt(RebindsLabelled) == Rebinds && InAnf(Rebinds) && Loops(RebindsLabelled) == {} && Bound(Block1) == Bound(Block2) == {X}
  {
    GetStrips();
    SendXStrips(BOTTOM);
    var a, b := Rebinds.body.first, Rebinds.body.rest;
    assert StripStmt(SetX) == a.body.first == b.body;
    assert StripStmt(SendX(BOTTOM)) == a.body.rest == PutX;
    assert StripStmt(Block1.body) == a.body && StripStmt(Block2.body) == b.body;
    assert StripStmt(Block1) == a && StripStmt(Block2) == b && StripStmt(RebindsLabelled.body) == Rebinds.body;
    assert InAnf(b.body) && InAnf(PutX) && FlatHeader(a.body);
    assert InAnf(a.body);
    assert InAnf(a) && InAnf(b) && InAnf(Rebinds.body);
    assert Loops(Block1.body) == {} && Loops(Block1) == {} && Loops(Block2) == {} && Loops(RebindsLabelled.body) == {};
    assert Bound(Block1.body) == {};
  }

  lemma RebindsAreParsed()
    ensures Parsed(Rebinds) && UserInputs(ARGS)
  {
    ArgsAreUsers(ARGS);
    CallsAreParsed();
    var a, b := Rebinds.body.first, Rebinds.body.rest;
    assert Parsed(b.body) && Parsed(a.body.first) && Parsed(a.body) && Parsed(a) && Parsed(b) && Parsed(Rebinds.body);
  }

  lemma RebindsAreCompiled()
    ensures CompilesTo(ARGS, Rebinds, RebindsLabelled)
  {
    RebindsStrip();
    RebindsAreParsed();
    RebindsFlow();
    assert Picks(t => BOTTOM, 3, 3, SetX) && Picks(t => BOTTOM, 4, 3, SendX(BOTTOM)) && Picks(t => BOTTOM, 4, 3, SetX);
    assert Picks(t => BOTTOM, 3, 3, Block1.body) && Picks(t => BOTTOM, 4, 3, Block2.body);
    assert Picks(t => BOTTOM, 2, 2, Block1) && Picks(t => BOTTOM, 3, 2, Block2);
    assert Picks(t => BOTTOM, 2, 2, RebindsLabelled.body);
    forall r | Plain(r) == Plain(RebindsLabelled) && StmtFlows(ARGS, map[], TOP, r) ensures Weaker(r, RebindsLabelled) {
      RebindsAreWeak(r);
    }
    StraightIsCompiled(ARGS, t => BOTTOM, Rebinds, RebindsLabelled);
  }

  lemma RebindsSource(remote: map<Label, seq<Event>>, fuel: nat)
    ensures var w := Exec(RebindsLabelled, ARGS, Start(remote), fuel);
            w.Done? && Received(w.s.remote, BOTTOM) == Received(remote, BOTTOM) + [GET, PutEvent(1)]
  {
    var w0 := Start(remote);
    GetSends(ARGS, w0);
    var w1 := Write(w0.(remote := Send(ARGS, remote, BOTTOM, GET).0), Y, 1);
    BlocksRun(w1, fuel);
    assert Received(remote, BOTTOM) + [GET] + [PutEvent(1)] == Received(remote, BOTTOM) + [GET, PutEvent(1)];
    assert Exec(RebindsLabelled, ARGS, w0, fuel) == Exec(RebindsLabelled.body, ARGS, w1, fuel);
  }

  lemma BlocksRun(w: World, fuel: nat)
    requires Hist(w, Y) == [1]
    ensures var r := Exec(RebindsLabelled.body, ARGS, w, fuel); r.Done? && Received(r.s.remote, BOTTOM) == Received(w.remote, BOTTOM) + [PutEvent(1)]
  {
    var w1 := Write(w, X, 5);
    var w2 := Write(w1, X, 1);
    assert Read(ARGS, w1, Y) == Some(1) && Read(ARGS, w2, X) == Some(1);
    SendXRuns(BOTTOM, w2, 1, fuel);
    var w3 := w2.(remote := Send(ARGS, w2.remote, BOTTOM, PutEvent(1)).0);
    After(SetX, SendX(BOTTOM), ARGS, w1, w2, fuel);
    assert Exec(Block1, ARGS, w, fuel) == Done(w3);
    var w4 := Write(w3, X, 5);
    assert Read(ARGS, w4, Y) == Some(1);
    assert Exec(Block2, ARGS, w3, fuel) == Exec(SetX, ARGS, w4, fuel) == Done(Write(w4, X, 1));
    After(Block1, Block2, ARGS, w, w3, fuel);
  }

  const BindX: PStmt := PLet(BOTTOM, X, Pure(Const(5)), PSkip)

  lemma RebindsProject()
    ensures Project(TOP, RebindsLabelled) == PSeq(PIncrement(Y), PSeq(PLet(BOTTOM, X, Pure(Const(5)), PSeq(PSkip, PSkip)), BindX))
    ensures Project(BOTTOM, RebindsLabelled) ==
              PLet(BOTTOM, Y, GetRhs, PSeq(PSeq(PIncrement(X), PSeq(PAssign(X, Read0(Y)), PPerform(PutX.call))), PSeq(PIncrement(X), PAssign(X, Read0(Y)))))
  {
    GetStrips();
    SendXStrips(BOTTOM);
    assert Project(TOP, Block1.body) == PSeq(PSkip, PSkip);
    assert Project(TOP, Block1) == PLet(BOTTOM, X, Pure(Const(5)), PSeq(PSkip, PSkip)) && Project(TOP, Block2) == BindX;
    assert Project(BOTTOM, Block1.body) == PSeq(PAssign(X, Read0(Y)), PPerform(PutX.call));
    assert Project(BOTTOM, Block1) == PSeq(PIncrement(X), PSeq(PAssign(X, Read0(Y)), PPerform(PutX.call)));
    assert Project(BOTTOM, Block2) == PSeq(PIncrement(X), PAssign(X, Read0(Y)));
  }

  lemma StrongRebinds(st: Store, fuel: nat) returns (st': Store)
    requires At(st, X) == Holder([], -1) && At(st, Y) == Holder([], -1)
    ensures Run(Project(TOP, RebindsLabelled), ARGS, st, fuel) == Done(st')
    ensures At(st', X).log == [5, 5] && At(st', Y).log == [] && st'.remote == st.remote
  {
    RebindsProject();
    var st1 := Update(st, Y, Increment(At(st, Y)));
    var st2 := Update(st1, X, Holder([5], 0));
    st' := Update(st2, X, Holder([5, 5], 1));
    var first := PLet(BOTTOM, X, Pure(Const(5)), PSeq(PSkip, PSkip));
    assert Push(At(st1, X), 5) == Holder([5], 0) && Push(At(st2, X), 5) == Holder([5, 5], 1);
    assert Run(first.body, ARGS, st2, fuel) == Done(st2) && Run(PSkip, ARGS, st', fuel) == Done(st');
    Lets(BOTTOM, X, 5, first.body, ARGS, st1, fuel);
    Lets(BOTTOM, X, 5, PSkip, ARGS, st2, fuel);
    Then(first, BindX, ARGS, st1, st2, fuel);
    Then(PIncrement(Y), PSeq(first, BindX), ARGS, st, st1, fuel);
  }

  lemma WeakRebinds(st: Store, fuel: nat) returns (st': Store)
    requires At(st, X) == Holder([5, 5], -1) && At(st, Y) == Holder([], -1)
    ensures Run(Project(BOTTOM, RebindsLabelled), ARGS, st, fuel) == Done(st')
    ensures Received(st'.remote, BOTTOM) == Received(st.remote, BOTTOM) + [GET, PutEvent(5)]
  {
    RebindsProject();
    GetSendsInPhase(ARGS, st);
    var st0 := st.(remote := Send(ARGS, st.remote, BOTTOM, GET).0);
    assert Push(At(st0, Y), 1) == Holder([1], 0);
    var st1 := Update(st0, Y, Holder([1], 0));
    var write := PAssign(X, Read0(Y));
    var st3 := MoveAndSet(st1, fuel);
    SendXInPhase(st3, 5, fuel);
    var st4 := st3.(remote := Send(ARGS, st3.remote, BOTTOM, PutEvent(5)).0);
    Then(write, PPerform(PutX.call), ARGS, Update(st1, X, Increment(At(st1, X))), st3, fuel);
    Then(PIncrement(X), PSeq(write, PPerform(PutX.call)), ARGS, st1, Update(st1, X, Increment(At(st1, X))), fuel);
    st' := MoveAndSet(st4, fuel);
    Then(PIncrement(X), write, ARGS, st4, Update(st4, X, Increment(At(st4, X))), fuel);
    Then(PSeq(PIncrement(X), PSeq(write, PPerform(PutX.call))), PSeq(PIncrement(X), write), ARGS, st1, st4, fuel);
    assert Received(st4.remote, BOTTOM) == Received(st.remote, BOTTOM) + [GET] + [PutEvent(5)];
  }

  /** Where the log of `x` already holds what later bindings of it have pushed, a new value goes behind
      them. */
  lemma MoveAndSet(st: Store, fuel: nat) returns (st': Store)
    requires At(st, Y) == Holder([1], 0)
    ensures var mid := Update(st, X, Increment(At(st, X)));
            && Run(PIncrement(X), ARGS, st, fuel) == Done(mid) && Run(PAssign(X, Read0(Y)), ARGS, mid, fuel) == Done(st')
    ensures At(st', X) == Holder(At(st, X).log + [1], At(st, X).pos + 2) && At(st', Y) == At(st, Y) && st'.remote == st.remote
  {
    var mid := Update(st, X, Increment(At(st, X)));
    assert Get(ARGS, mid, Y) == Some(1);
    st' := Update(mid, X, Push(At(mid, X), 1));
  }

  /** Everything but `LateOnce` holds, and the weak phase reads the second block's binding where it
      should read the first block's assignment: the object is sent 5 instead of 1. */
  lemma LateOnceIsNeeded(remote: map<Label, seq<Event>>, fuel: nat)
    ensures CompilesTo(ARGS, Rebinds, RebindsLabelled)
    ensures Described(LateSig, ARGS, RebindsLabelled) && CallsPermitted(TOP, RebindsLabelled) && LoopsOnce(LateSig, BOTTOM, RebindsLabelled)
    ensures !LateOnce(LateSig, RebindsLabelled)
    ensures var w, r := Exec(RebindsLabelled, ARGS, Start(remote), fuel), RunPhases(PHASES, RebindsLabelled, ARGS, Launch(remote), fuel);
            && w.Done? && Received(w.s.remote, BOTTOM) == Received(remote, BOTTOM) + [GET, PutEvent(1)]
            && r.Done? && Received(r.s.remote, BOTTOM) == Received(remote, BOTTOM) + [GET, PutEvent(5)]
  {
    RebindsAreCompiled();
    RebindsFine();
    RebindsSource(remote, fuel);
    var st1 := StrongRebinds(BeginPhase(Launch(remote)), fuel);
    var st2 := WeakRebinds(BeginPhase(st1), fuel);
    TwoPhases(RebindsLabelled, ARGS, Launch(remote), fuel);
  }

  lemma RebindsFine()
    ensures Described(LateSig, ARGS, RebindsLabelled) && CallsPermitted(TOP, RebindsLabelled) && LoopsOnce(LateSig, BOTTOM, RebindsLabelled)
    ensures !LateOnce(LateSig, RebindsLabelled)
  {
    RebindsStrip();
    assert Described(LateSig, ARGS, SetX) && LoopsOnce(LateSig, BOTTOM, SetX) && LateOnce(LateSig, SetX) && CallsPermitted(TOP, SetX);
    assert Described(LateSig, ARGS, SendX(BOTTOM)) && LoopsOnce(LateSig, BOTTOM, SendX(BOTTOM)) && LateOnce(LateSig, SendX(BOTTOM)) && CallsPermitted(TOP, SendX(BOTTOM));
    assert Loops(SetX) == {} && Loops(SendX(BOTTOM)) == {};
    assert Described(LateSig, ARGS, Block1.body) && LoopsOnce(LateSig, BOTTOM, Block1.body) && CallsPermitted(TOP, Block1.body);
    assert Described(LateSig, ARGS, Block1) && LoopsOnce(LateSig, BOTTOM, Block1) && CallsPermitted(TOP, Block1);
    assert Described(LateSig, ARGS, Block2) && LoopsOnce(LateSig, BOTTOM, Block2) && CallsPermitted(TOP, Block2);
    assert Loops(Block1) == {} && Described(LateSig, ARGS, RebindsLabelled.body);
    assert X in Bound(Block1) && X in Bound(Block2) && !LateOnce(LateSig, RebindsLabelled.body);
  }
}
