/** Names that are bound at more than one label: the front end accepts them, and neither the phases nor
    the labels of histories survive them. */
module NameReuse {
  import opened Labels
  import opened Syntax
  import opened Semantics
  import opened SplitPhase
  import opened PhaseRun
  import opened Phases
  import opened Flatten
  import opened FlattenCorrect
  import opened DesugarCorrect
  import opened EndToEnd
  import opened Complete
  import opened Symbolic
  import opened Samples
  import opened Flows
  import opened CallContext
  import opened Frame
  import opened Shipping
  import opened Distributed
  import opened PieceSamples
  import Prune
  import N = Noninterference
  import W = WellLabelled

  // --- one block after the other ---

  /** `{ x = weak.get() } { x = 5; weak.put(x) }` */
  const Blocks: Stmt<()> :=
    Seq((), Let((), (), X, GetRhs, Skip(())), Let((), (), X, Pure(Const(5)), PutX))

  const WeakBlock: Stmt<Label> := Let(BOTTOM, BOTTOM, X, GetLabelled, Skip(TOP))
  const StrongBlock: Stmt<Label> := Let(TOP, TOP, X, Pure(Const(5)), SendX(TOP))

  /** What the compiler makes of it: `x` is weak in the first block and strong in the second. */
  const LabelledBlocks: Stmt<Label> := Seq(TOP, WeakBlock, StrongBlock)

  lemma WeakBlockFlows(env: Env, scope: Places)
    requires env.inputs == ARGS.inputs && WEAK !in scope
    ensures StmtFlows(env, scope, TOP, WeakBlock)
  {
    assert W.IsInput(env, WEAK) && W.RefsLabel(GetLabelled.call.args) == TOP;
  }

  lemma BlocksAreFlat()
    ensures StripStmt(LabelledBlocks) == Blocks && InAnf(Blocks) && W.Loops(LabelledBlocks) == {}
  {
    GetStrips();
    SendXStrips(TOP);
    assert StripStmt(WeakBlock) == Blocks.first && StripStmt(StrongBlock) == Blocks.rest;
    assert InAnf(PutX) && InAnf(Blocks.first) && InAnf(Blocks.rest) && W.Loops(WeakBlock) == {} && W.Loops(StrongBlock) == {};
  }

  lemma BlocksAreParsed()
    ensures Parsed(Blocks) && UserInputs(ARGS)
  {
    ArgsAreUsers(ARGS);
    CallsAreParsed();
    assert Parsed(Blocks.first) && Parsed(Blocks.rest);
  }

  lemma BlocksAreWeak(r: Stmt<Label>)
    requires Plain(r) == Plain(LabelledBlocks) && StmtFlows(ARGS, map[], TOP, r)
    ensures Weaker(r, LabelledBlocks)
  {
    GetStrips();
    assert Plain(r.first) == Plain(WeakBlock) && Plain(r.rest) == Plain(StrongBlock);
    GetIsWeak(ARGS, map[], r.first);
    assert Weaker(r.first, WeakBlock) && Weaker(r.rest, StrongBlock);
  }

  lemma BlocksAreAccepted()
    ensures CompilesTo(ARGS, Blocks, LabelledBlocks) && CallsPermitted(TOP, LabelledBlocks)
  {
    BlocksAreFlat();
    BlocksAreParsed();
    WeakBlockFlows(ARGS, map[]);
    SendXFlows(map[][X := Place(TOP, TOP)], TOP);
    assert StmtFlows(ARGS, map[], TOP, StrongBlock);
    var tau := (t: TempId) => if t == TempId(1, 1) then BOTTOM else TOP;
    assert Picks(tau, 1, 1, WeakBlock) && Picks(tau, 2, 1, StrongBlock);
    forall r | Plain(r) == Plain(LabelledBlocks) && StmtFlows(ARGS, map[], TOP, r) ensures Weaker(r, LabelledBlocks) {
      BlocksAreWeak(r);
    }
    StraightIsCompiled(ARGS, tau, Blocks, LabelledBlocks);
  }

  lemma StrongBlockRuns(w: World, fuel: nat)
    ensures Exec(StrongBlock, ARGS, w, fuel) == Done(Write(w, X, 5).(remote := Send(ARGS, w.remote, BOTTOM, PutEvent(5)).0))
  {
    SendXRuns(TOP, Write(w, X, 5), 5, fuel);
  }

  lemma BlocksRun(remote: map<Label, seq<Event>>, fuel: nat)
    ensures var r := Exec(LabelledBlocks, ARGS, Start(remote), fuel);
            r.Done? && Received(r.s.remote, BOTTOM) == Received(remote, BOTTOM) + [GET, PutEvent(5)]
  {
    var w := Start(remote);
    GetSends(ARGS, w);
    var w1 := Write(w.(remote := Send(ARGS, remote, BOTTOM, GET).0), X, 1);
    assert Exec(WeakBlock, ARGS, w, fuel) == Done(w1);
    StrongBlockRuns(w1, fuel);
    After(WeakBlock, StrongBlock, ARGS, w, w1, fuel);
    assert Received(remote, BOTTOM) + [GET] + [PutEvent(5)] == Received(remote, BOTTOM) + [GET, PutEvent(5)];
  }

  const First: PStmt := PSeq(PIncrement(X), PSkip)
  const Bind5: PStmt := PLet(TOP, X, Pure(Const(5)), PSkip)
  const GetX: PStmt := PLet(BOTTOM, X, GetRhs, PSkip)
  const Rest: PStmt := PSeq(PIncrement(X), PPerform(PutX.call))

  lemma BlocksProject()
    ensures Project(TOP, LabelledBlocks) == PSeq(First, Bind5) && Project(BOTTOM, LabelledBlocks) == PSeq(GetX, Rest)
  {
    GetStrips();
    SendXStrips(TOP);
    assert Project(TOP, WeakBlock) == First && Project(TOP, StrongBlock) == Bind5;
    assert Project(BOTTOM, WeakBlock) == GetX && Project(BOTTOM, StrongBlock) == Rest;
  }

  lemma StrongPhaseFaults(st: Store, fuel: nat)
    requires At(st, X) == Holder([], -1)
    ensures Run(Project(TOP, LabelledBlocks), ARGS, st, fuel).Fault?
  {
    BlocksProject();
    var st1 := Update(st, X, Increment(At(st, X)));
    Then(PIncrement(X), PSkip, ARGS, st, st1, fuel);
    assert Run(First, ARGS, st, fuel) == Done(st1);
    Then(First, Bind5, ARGS, st, st1, fuel);
    assert !InRange(Push(At(st1, X), 5));
  }

  // pruned, the strong phase no longer moves the cursor of the weak binding

  const StrongPruned: PStmt := PSeq(Bind5, PSkip)
  const WeakPruned: PStmt := PSeq(GetX, PSeq(PIncrement(X), PSeq(PPerform(PutX.call), PSkip)))

  lemma StrongPrunes()
    ensures Prune.Prune(PSeq(First, Bind5)) == Prune.Phase(StrongPruned, {})
  {
    var p := PSeq(First, Bind5);
    assert Prune.Required(First, {}) == {} && Prune.Required(Bind5, {}) == {} && Prune.Required(p, {}) == {};
    var none := PSeq(PSkip, PSkip);
    assert Drop({}, First) == none && Drop({}, p) == PSeq(none, Bind5);
    ClearsTo(PSkip, PSkip, [], []);
    assert Prune.Clear(none) == Prune.Cleared(PSkip, {}, {}) && Prune.Clear(Bind5) == Prune.Cleared(Bind5, {}, {});
    ClearsTo(none, Bind5, [], [Bind5]);
    assert [] + [Bind5] == [Bind5];
    One(Bind5);
    assert Drop({}, StrongPruned) == StrongPruned;
  }

  lemma PutXNames()
    ensures CallNames(PutX.call) == {WEAK, X} && CallNames(GetRhs.call) == {WEAK}
  {
    var rs := PutX.call.args;
    assert rs[1..] == [] && RefNames(rs) == {X} + RefNames(rs[1..]) == {X};
    assert RefNames(GetRhs.call.args) == {};
  }

  lemma RestClears()
    ensures var c := Prune.Clear(Rest); Prune.Items(c.ast) == [PIncrement(X), PPerform(PutX.call)] && c.gone == {} && c.still == {WEAK, X}
  {
    var i, c := PIncrement(X), PPerform(PutX.call);
    PutXNames();
    ClearsTo(i, c, [i], [c]);
    assert [i] + [c] == [i, c];
    ItemsBack([i, c]);
  }

  lemma WeakPrunes()
    ensures Prune.Prune(PSeq(GetX, Rest)) == Prune.Phase(WeakPruned, {WEAK, X})
  {
    var p, i, c := PSeq(GetX, Rest), PIncrement(X), PPerform(PutX.call);
    PutXNames();
    assert {WEAK, X} - {} - Prune.BUILTINS == {WEAK, X} && Prune.Required(c, {}) == {WEAK, X};
    assert Prune.Required(i, {}) == {} && Prune.Required(Rest, {}) == {} + {WEAK, X} == {WEAK, X};
    assert Prune.Required(GetX, {}) == {WEAK} && Prune.Required(p, {}) == {WEAK, X};
    var needs := {WEAK, X};
    KeepsLet(needs, BOTTOM, X, GetRhs, PSkip);
    KeepsMove(needs, X);
    KeepsSeq(needs, i, c);
    KeepsSeq(needs, GetX, Rest);
    RestClears();
    assert RhsNames(GetRhs) == {WEAK} && Prune.Clear(PSkip) == Prune.Cleared(PSkip, {}, {});
    assert Prune.Clear(GetX) == Prune.Cleared(GetX, {}, {WEAK});
    ClearsTo(GetX, Rest, [GetX], [i, c]);
    assert [GetX] + [i, c] == [GetX, i, c];
    Three(GetX, i, c);
    assert Prune.Clear(p) == Prune.Cleared(WeakPruned, {}, {WEAK, X}) && {WEAK, X} - ({} - {WEAK, X}) == {WEAK, X};
    KeepsSeq(needs, c, PSkip);
    KeepsSeq(needs, i, PSeq(c, PSkip));
    KeepsSeq(needs, GetX, WeakPruned.rest);
  }

  lemma BlocksPrune()
    ensures Prune.Prune(Project(TOP, LabelledBlocks)) == Prune.Phase(StrongPruned, {})
    ensures Prune.Prune(Project(BOTTOM, LabelledBlocks)) == Prune.Phase(WeakPruned, {WEAK, X})
  {
    BlocksProject();
    StrongPrunes();
    WeakPrunes();
  }

  lemma BlocksBind()
    ensures W.Bound(LabelledBlocks) == {X}
  {
    assert W.Bound(SendX(TOP)) == {} && W.Bound(WeakBlock) == {X} && W.Bound(StrongBlock) == {X};
  }

  lemma BlockPieces()
    ensures var ps := PiecesOf(PHASES, LabelledBlocks, l => false);
            |ps| == 2 && ps[0].ast == StrongPruned && ps[1].ast == WeakPruned && !ps[0].away && !ps[1].away
  {
    BlocksPrune();
    BlocksBind();
    PrunedPieces(LabelledBlocks, Prune.Phase(StrongPruned, {}), Prune.Phase(WeakPruned, {WEAK, X}));
  }

  lemma StrongPieceRuns(st: Store, fuel: nat) returns (st': Store)
    requires At(st, X) == Holder([], -1)
    ensures RunStops(StrongPruned, ARGS, st, fuel) == Done(st') && At(st', X).log == [5] && st'.remote == st.remote && st'.ret == st.ret
  {
    assert Push(At(st, X), 5) == Holder([5], 0);
    st' := Update(st, X, Holder([5], 0));
    assert RunStops(PSkip, ARGS, st', fuel) == Done(st');
    assert RunStops(Bind5, ARGS, st, fuel) == Done(st');
  }

  lemma WeakRestRuns(st: Store, fuel: nat) returns (st': Store)
    requires At(st, X) == Holder([5, 1], 0) && st.ret.None?
    ensures RunStops(WeakPruned.rest, ARGS, st, fuel) == Done(st') && Received(st'.remote, BOTTOM) == Received(st.remote, BOTTOM) + [PutEvent(1)]
  {
    var st1 := Update(st, X, Increment(At(st, X)));
    SendXInPhase(st1, 1, fuel);
    st' := st1.(remote := Send(ARGS, st1.remote, BOTTOM, PutEvent(1)).0);
    var last := PSeq(PPerform(PutX.call), PSkip);
    assert RunStops(last, ARGS, st1, fuel) == Done(st');
    assert RunStops(PIncrement(X), ARGS, st, fuel) == Done(st1);
  }

  lemma WeakPieceRuns(st: Store, fuel: nat) returns (st': Store)
    requires At(st, X) == Holder([5], -1) && st.ret.None?
    ensures RunStops(WeakPruned, ARGS, st, fuel) == Done(st') && Received(st'.remote, BOTTOM) == Received(st.remote, BOTTOM) + [GET, PutEvent(1)]
  {
    GetSendsInPhase(ARGS, st);
    var st0 := st.(remote := Send(ARGS, st.remote, BOTTOM, GET).0);
    assert Push(At(st0, X), 1) == Holder([5, 1], 0);
    var st1 := Update(st0, X, Holder([5, 1], 0));
    assert RunStops(GetX, ARGS, st, fuel) == RunStops(PSkip, ARGS, st1, fuel) == Done(st1);
    st' := WeakRestRuns(st1, fuel);
    assert Received(st.remote, BOTTOM) + [GET] + [PutEvent(1)] == Received(st.remote, BOTTOM) + [GET, PutEvent(1)];
  }

  lemma PiecesSwap(remote: map<Label, seq<Event>>, fuel: nat)
    ensures var r := RunShippedStops(PiecesOf(PHASES, LabelledBlocks, l => false), ARGS, Launch(remote), fuel);
            r.Done? && Received(r.s.remote, BOTTOM) == Received(remote, BOTTOM) + [GET, PutEvent(1)]
  {
    BlockPieces();
    var st1 := StrongPieceRuns(BeginPhase(Launch(remote)), fuel);
    var b := BeginPhase(st1);
    assert At(b, X) == Holder([5], -1) && b.remote == st1.remote;
    var st2 := WeakPieceRuns(b, fuel);
    TwoPieces(PiecesOf(PHASES, LabelledBlocks, l => false), ARGS, Launch(remote), st1, fuel);
  }

  /** No signature gives `x` both its labels, and only that is wrong with the program: it is accepted,
      its calls are permitted, and it sends 5. Its strong phase, which moves the cursor for the weak
      binding of `x` too, fails at the strong one. Pruned, the strong phase goes through; but the weak
      one, with the strong block's 5 already in the log, sends what it was sent. */
  lemma OneLabelPerNameIsNeeded(remote: map<Label, seq<Event>>, fuel: nat)
    ensures CompilesTo(ARGS, Blocks, LabelledBlocks) && CallsPermitted(TOP, LabelledBlocks)
    ensures forall sig: W.Sig :: !Described(sig, ARGS, LabelledBlocks)
    ensures var r := Exec(LabelledBlocks, ARGS, Start(remote), fuel);
            r.Done? && Received(r.s.remote, BOTTOM) == Received(remote, BOTTOM) + [GET, PutEvent(5)]
    ensures RunPhases(PHASES, LabelledBlocks, ARGS, Launch(remote), fuel).Fault?
    ensures var r := RunShippedStops(PiecesOf(PHASES, LabelledBlocks, l => false), ARGS, Launch(remote), fuel);
            r.Done? && Received(r.s.remote, BOTTOM) == Received(remote, BOTTOM) + [GET, PutEvent(1)]
  {
    BlocksAreAccepted();
    BlocksRun(remote, fuel);
    NothingDescribes();
    PhasesFault(remote, fuel);
    PiecesSwap(remote, fuel);
  }

  lemma NothingDescribes()
    ensures forall sig: W.Sig :: !Described(sig, ARGS, LabelledBlocks)
  {
    forall sig: W.Sig ensures !Described(sig, ARGS, LabelledBlocks) {
      assert Described(sig, ARGS, WeakBlock) ==> sig.level(X) == BOTTOM;
      assert Described(sig, ARGS, StrongBlock) ==> sig.level(X) == TOP;
    }
  }

  lemma PhasesFault(remote: map<Label, seq<Event>>, fuel: nat)
    ensures RunPhases(PHASES, LabelledBlocks, ARGS, Launch(remote), fuel).Fault?
  {
    StrongPhaseFaults(BeginPhase(Launch(remote)), fuel);
    assert PHASES[0] == TOP;
  }

  // --- one block inside the other ---

  const PutStrong: Stmt<()> := Perform((), Invoke(TOP, "put", Ref((), STRONG), [Ref((), X)]))
  const Put: Stmt<Label> := Perform(TOP, Invoke(TOP, "put", Ref(TOP, STRONG), [Ref(TOP, X)]))

  /** `x = 5; { x = weak.get() } strong.put(x)` */
  const ShadowSource: Stmt<()> :=
    Let((), (), X, Pure(Const(5)), Seq((), Let((), (), X, GetRhs, Skip(())), PutStrong))

  /** What the compiler makes of it. */
  const Shadows: Stmt<Label> := Let(TOP, TOP, X, Pure(Const(5)), Seq(TOP, WeakBlock, Put))

  lemma PutStrips()
    ensures StripStmt(Put) == PutStrong
  {
    var rs := Put.call.args;
    assert rs[1..] == [] && StripRefs(rs) == [Ref((), X)] + StripRefs(rs[1..]) == PutStrong.call.args;
  }

  lemma ShadowsFlow()
    ensures StmtFlows(COUNTING, map[], TOP, Shadows) && CallsPermitted(TOP, Shadows)
  {
    var scope: Places := map[][X := Place(TOP, TOP)];
    assert WEAK != X && STRONG != X && W.IsInput(COUNTING, STRONG);
    var rs := Put.call.args;
    assert rs[0].x == X && rs[1..] == [] && RefsFlow(COUNTING, scope, rs) && W.RefsLabel(rs) == TOP;
    WeakBlockFlows(COUNTING, scope);
    assert StmtFlows(COUNTING, scope, TOP, Put) && StmtFlows(COUNTING, scope, TOP, WeakBlock);
    assert StmtFlows(COUNTING, scope, TOP, Shadows.body);
  }

  lemma ShadowsAreWeak(r: Stmt<Label>)
    requires Plain(r) == Plain(Shadows) && StmtFlows(COUNTING, map[], TOP, r)
    ensures Weaker(r, Shadows)
  {
    GetStrips();
    assert Plain(r.body) == Plain(Shadows.body) && Plain(r.body.first) == Plain(WeakBlock);
    GetIsWeak(COUNTING, map[][X := Place(r.bl, r.l)], r.body.first);
    assert Weaker(r.body.first, WeakBlock) && Weaker(r.body, Shadows.body);
  }

  lemma ShadowsAreParsed()
    ensures Parsed(ShadowSource) && UserInputs(COUNTING)
  {
    ArgsAreUsers(COUNTING);
    CallsAreParsed();
    var rs := PutStrong.call.args;
    assert rs[1..] == [] && RefNames(rs) == {X} + RefNames(rs[1..]) == {X};
    assert Parsed(PutStrong) && Parsed(ShadowSource.body.first) && Parsed(ShadowSource.body);
  }

  lemma ShadowsAreCompiled()
    ensures CompilesTo(COUNTING, ShadowSource, Shadows)
  {
    GetStrips();
    PutStrips();
    assert StripStmt(WeakBlock) == ShadowSource.body.first && StripStmt(Shadows.body) == ShadowSource.body;
    assert InAnf(ShadowSource.body.first) && InAnf(PutStrong) && InAnf(ShadowSource.body);
    assert W.Loops(WeakBlock) == {} && W.Loops(Put) == {} && W.Loops(Shadows.body) == {};
    ShadowsFlow();
    ShadowsAreParsed();
    var tau := (t: TempId) => if t == TempId(1, 1) then TOP else BOTTOM;
    assert Picks(tau, 2, 2, WeakBlock) && Picks(tau, 2, 2, Shadows.body);
    forall r | Plain(r) == Plain(Shadows) && StmtFlows(COUNTING, map[], TOP, r) ensures Weaker(r, Shadows) {
      ShadowsAreWeak(r);
    }
    StraightIsCompiled(COUNTING, tau, ShadowSource, Shadows);
  }

  lemma ShadowsRuns(remote: map<Label, seq<Event>>)
    ensures var r := Exec(Shadows, COUNTING, Start(remote), 0);
            r.Done? && Received(r.s.remote, TOP) == Received(remote, TOP) + [Event("put", 20, [Answer(COUNTING, remote)])]
  {
    var i := Answer(COUNTING, remote);
    var w1 := Write(Start(remote), X, 5);
    var w2 := Write(w1.(remote := Send(COUNTING, remote, BOTTOM, GET).0), X, i);
    assert EventOf(WeakBlock.rhs.call, Reads(COUNTING, w1)) == Some(GET);
    assert Exec(WeakBlock, COUNTING, w1, 0) == Done(w2);
    assert Hist(w2, X) == [5, i];
    PutRuns(w2, i);
    assert Exec(Shadows.body, COUNTING, w1, 0) == Exec(Put, COUNTING, w2, 0);
  }

  lemma PutRuns(w: World, i: int)
    requires Hist(w, X) == [5, i]
    ensures Exec(Put, COUNTING, w, 0) == Done(w.(remote := Send(COUNTING, w.remote, TOP, Event("put", 20, [i])).0))
  {
    var rs := Put.call.args;
    assert Read(COUNTING, w, X) == Some(i) && [i] + [] == [i] && rs[0].x == X;
    assert rs == [rs[0]] && rs[1..] == [] && EvalRefs(rs[1..], Reads(COUNTING, w)) == Some([]);
    assert EvalRefs(rs, Reads(COUNTING, w)) == Some([i] + []);
    assert EventOf(Put.call, Reads(COUNTING, w)) == Some(Event("put", 20, [i]));
  }

  /** Two runs of an accepted program start alike at `top` and differ there in the end:
      its one name stands for a strong binding and for a weak one. */
  lemma OneSidePerNameIsNeeded()
    ensures CompilesTo(COUNTING, ShadowSource, Shadows) && CallsPermitted(TOP, Shadows)
    ensures forall c: N.View | c.l == TOP :: !N.Sides(c, Shadows)
    ensures N.Alike(TopView, Start(NothingSent), Start(OneSent))
    ensures var a, b := Exec(Shadows, COUNTING, Start(NothingSent), 0), Exec(Shadows, COUNTING, Start(OneSent), 0);
            && a.Done? && Received(a.s.remote, TOP) == [Event("put", 20, [0])]
            && b.Done? && Received(b.s.remote, TOP) == [Event("put", 20, [1])]
  {
    ShadowsFlow();
    ShadowsAreCompiled();
    ShadowsRuns(NothingSent);
    ShadowsRuns(OneSent);
    OnlyContextIsWrong();
    assert Received(OneSent, BOTTOM) == [GET] && Received(NothingSent, BOTTOM) == [];
    forall c: N.View | c.l == TOP ensures !N.Sides(c, Shadows) {
      assert N.Sides(c, Shadows) ==> c.high(X) && N.Sides(c, Shadows.body);
      assert N.Sides(c, Shadows.body) ==> N.Sides(c, WeakBlock);
    }
  }
}
