/** One counter name for a strong loop and a weak one: the phase that would count the one is not sent the
    count of the other. */
module SharedCounter {
  import opened Labels
  import opened Syntax
  import opened Semantics
  import opened SplitPhase
  import opened PhaseRun
  import opened Flows
  import opened Phases
  import opened Flatten
  import opened FlattenCorrect
  import opened DesugarCorrect
  import opened NameLoops
  import opened EndToEnd
  import opened Complete
  import opened Samples
  import opened Symbolic
  import opened Returns
  import opened Frame
  import opened Shipping
  import opened Distributed
  import opened Branches
  import opened PiecesReturning
  import opened PieceSamples
  import L = LoopNecessity
  import Prune
  import W = WellLabelled

  const F1 := Flag(1, 3)
  const F2 := Flag(2, 3)
  const N := Loop(1, 1)

  const Loop1: Stmt<()> := While((), Read0(False), Skip(()), N)
  const Loop2: Stmt<()> := While((), Read0(Y), Skip(()), N)

  /** `y = weak.get(); if (true) { while (false) {} } else { while (y) {} }` */
  const OneName: Stmt<()> := Let((), (), Y, GetRhs, If((), Read0(True), Loop1, Loop2))

  const Strong1: Stmt<Label> := L.LoopOf(F1, ReadAt(TOP, False), Skip(TOP), N)
  const Stop2: Stmt<Label> := Assign(BOTTOM, Ref(BOTTOM, F2), ReadAt(TOP, False))
  const Round2: Stmt<Label> := If(BOTTOM, ReadAt(BOTTOM, Y), Skip(BOTTOM), Stop2)
  const Weak2: Stmt<Label> := Let(TOP, BOTTOM, F2, Pure(ReadAt(TOP, True)), While(BOTTOM, ReadAt(BOTTOM, F2), Round2, N))
  const Choice: Stmt<Label> := If(TOP, ReadAt(TOP, True), Strong1, Weak2)

  /** What the compiler makes of it: the loops are in branches of one statement and get one name. */
  const OneNameLabelled: Stmt<Label> := Let(BOTTOM, BOTTOM, Y, GetLabelled, Choice)

  // --- that it is compiled so ---

  lemma OneFlows()
    ensures StmtFlows(ARGS, map[], TOP, OneNameLabelled)
  {
    var scope: Places := map[][Y := Place(BOTTOM, BOTTOM)];
    var s := scope[F2 := Place(BOTTOM, TOP)];
    assert W.IsInput(ARGS, WEAK) && W.RefsLabel(GetLabelled.call.args) == TOP;
    L.LoopFlows(scope, F1, False, Skip(TOP), N);
    assert StmtFlows(ARGS, s, BOTTOM, Stop2) && StmtFlows(ARGS, s, BOTTOM, Round2) && StmtFlows(ARGS, s, TOP, Weak2.body);
    assert StmtFlows(ARGS, scope, TOP, Weak2) && StmtFlows(ARGS, scope, TOP, Choice);
  }

  /** A flag that is reset under a weak condition is weak. */
  lemma FlagIsWeak(scope: Places, r: Stmt<Label>)
    requires Y in scope && scope[Y].level == BOTTOM && Plain(r) == Plain(Weak2) && StmtFlows(ARGS, scope, TOP, r)
    ensures Weaker(r, Weak2)
  {
    var s := scope[F2 := Place(r.bl, r.l)];
    assert Plain(r.body) == Plain(Weak2.body) && Plain(r.body.body) == Plain(Round2) && Plain(r.body.body.els) == Plain(Stop2);
    assert StmtFlows(ARGS, s, TOP, r.body) && StmtFlows(ARGS, s, r.body.l, r.body.body);
    assert StripExpr(r.body.body.cond) == Read0(Y) && r.body.body.cond.ref.l == BOTTOM;
    assert r.body.body.l == BOTTOM;
    var a := r.body.body.els;
    assert StmtFlows(ARGS, s, BOTTOM, a) && StripRef(a.target).x == F2;
    assert a.target.l == r.bl;
    assert Weaker(r.body.body, Round2) && Weaker(r.body, Weak2.body);
  }

  lemma ChoiceIsWeak(scope: Places, r: Stmt<Label>)
    requires Y in scope && scope[Y].level == BOTTOM && True !in scope && Plain(r) == Plain(Choice) && StmtFlows(ARGS, scope, TOP, r)
    ensures Weaker(r, Choice)
  {
    assert Plain(r.thn) == Plain(Strong1) && Plain(r.els) == Plain(Weak2);
    assert StripExpr(r.cond) == Read0(True) && r.l == TOP;
    FlagIsWeak(scope, r.els);
    Strong1IsTop();
    TopIsStrongest(r.thn, Strong1);
  }

  lemma Strong1IsTop()
    ensures AllTop(Strong1)
  {
    assert AllTop(Strong1.body.body) && AllTop(Strong1.body);
  }

  lemma OneIsWeak(r: Stmt<Label>)
    requires Plain(r) == Plain(OneNameLabelled) && StmtFlows(ARGS, map[], TOP, r)
    ensures Weaker(r, OneNameLabelled)
  {
    GetStrips();
    GetIsWeak(ARGS, map[], r);
    assert Plain(r.body) == Plain(Choice);
    ChoiceIsWeak(map[][Y := Place(r.bl, r.l)], r.body);
  }

  const Loop2Plain: Stmt<()> :=
    Let((), (), F2, Pure(Read0(True)), While((), Read0(F2), If((), Read0(Y), Skip(()), Assign((), Ref((), F2), Read0(False))), N))

  lemma Loop2Strips(seqnum: int, depth: int)
    requires seqnum == 2 && depth == 3
    ensures DesugarWhile(seqnum, depth, Loop2) == Loop2Plain == StripStmt(Weak2) && InAnf(Loop2Plain)
  {
    assert StripStmt(Round2) == Loop2Plain.body.body && StripStmt(Weak2.body) == Loop2Plain.body;
    assert InAnf(Loop2Plain.body.body) && InAnf(Loop2Plain.body);
  }

  lemma OneFlattens()
    ensures FlattenExpressions(OneName) == StripStmt(OneNameLabelled)
  {
    GetStrips();
    Loop2Strips(2, 3);
    L.SkipLooks();
    L.LoopLooks(1, 3, False, Skip(TOP), Skip(()), N);
    var s := StripStmt(Choice);
    assert s == If((), Read0(True), DesugarWhile(1, 3, Loop1), Loop2Plain);
    assert DesugarWhile(1, 2, OneName.body) == s && InAnf(s);
    FlatStays(1, 1, StripStmt(OneNameLabelled));
  }

  lemma OneNamed()
    ensures Named(OneNameLabelled) == OneNameLabelled
  {
    assert W.Loops(Strong1.body.body) == {} && W.Loops(Round2) == {};
    L.LoopNamed(1, 1, F1, Strong1.body.body, N);
    NoLoopsNamed(1, 2, Round2);
    assert NameIn(1, 1, Weak2.body) == Weak2.body && NameIn(1, 1, Weak2) == Weak2;
    assert NameIn(1, 1, Choice) == Choice;
  }

  lemma OnePicks(tau: Assignment)
    requires tau(TempId(1, 1)) == BOTTOM && tau(TempId(3, 3)) == TOP && tau(TempId(4, 3)) == BOTTOM
    ensures Picks(tau, 1, 1, OneNameLabelled)
  {
    assert Picks(tau, 5, 5, Strong1.body.body) && Picks(tau, 4, 4, Strong1.body) && Picks(tau, 3, 3, Strong1);
    assert Picks(tau, 6, 5, Round2) && Picks(tau, 5, 4, Weak2.body) && Picks(tau, 4, 3, Weak2);
    assert Picks(tau, 2, 2, Choice);
  }

  lemma OneIsParsed()
    ensures Parsed(OneName) && UserInputs(ARGS)
  {
    ArgsAreUsers(ARGS);
    CallsAreParsed();
    assert Parsed(Loop1) && Parsed(Loop2) && Parsed(OneName.body);
  }

  lemma OneIsCompiled()
    ensures CompilesTo(ARGS, OneName, OneNameLabelled)
  {
    OneFlattens();
    OneIsParsed();
    OneNamed();
    OneFlows();
    var tau := (t: TempId) => if t == TempId(3, 3) then TOP else BOTTOM;
    OnePicks(tau);
    forall r | Plain(r) == Plain(OneNameLabelled) && StmtFlows(ARGS, map[], TOP, r) ensures Weaker(r, OneNameLabelled) {
      OneIsWeak(r);
    }
    StrongestIsCompiled(ARGS, tau, OneName, OneNameLabelled);
  }

  lemma NothingDescribesIt()
    ensures forall sig: W.Sig :: !Described(sig, ARGS, OneNameLabelled)
    ensures CallsPermitted(TOP, OneNameLabelled) && !HasReturn(OneNameLabelled)
  {
    forall sig: W.Sig ensures !Described(sig, ARGS, OneNameLabelled) {
      assert Described(sig, ARGS, Strong1.body) ==> sig.loop(N) == TOP;
      assert Described(sig, ARGS, Weak2.body) ==> sig.loop(N) == BOTTOM;
      assert Described(sig, ARGS, Choice) ==> Described(sig, ARGS, Strong1) && Described(sig, ARGS, Weak2);
    }
    assert CallsPermitted(TOP, Strong1.body) && CallsPermitted(BOTTOM, Round2) && CallsPermitted(TOP, Weak2.body);
    assert CallsPermitted(TOP, Strong1) && CallsPermitted(TOP, Weak2) && CallsPermitted(TOP, Choice);
    assert !HasReturn(Strong1.body.body) && !HasReturn(Strong1.body) && !HasReturn(Round2) && !HasReturn(Weak2.body);
    assert !HasReturn(Strong1) && !HasReturn(Weak2) && !HasReturn(Choice);
  }

  // --- its phases ---

  const RoundStrong: PStmt := PIf(Read0(False), PSkip, PAssign(F1, Read0(False)))
  const LoopStrong: PStmt := PLet(TOP, F1, Pure(Read0(True)), PWhile(Read0(F1), RoundStrong, N))
  const FlagStrong: PStmt := PLet(BOTTOM, F2, Pure(Read0(True)), PSkip)
  const ChoiceStrong: PStmt := PIf(Read0(True), LoopStrong, FlagStrong)
  const PhaseStrong: PStmt := PSeq(PIncrement(Y), ChoiceStrong)

  const Replayed: PStmt := PSeq(PIncrement(F1), PForEach(PIf(Read0(False), PSkip, PIncrement(F1)), N))
  const LoopWeak: PStmt := PWhile(Read0(F2), PIf(Read0(Y), PSkip, PAssign(F2, Read0(False))), N)
  const Own: PStmt := PSeq(PIncrement(F2), LoopWeak)
  const ChoiceWeak: PStmt := PIf(Read0(True), Replayed, Own)
  const PhaseWeak: PStmt := PLet(BOTTOM, Y, GetRhs, ChoiceWeak)

  lemma OneProjects()
    ensures Project(TOP, OneNameLabelled) == PhaseStrong && Project(BOTTOM, OneNameLabelled) == PhaseWeak
  {
    GetStrips();
    assert Project(TOP, Strong1.body.body) == RoundStrong && Project(TOP, Strong1.body) == LoopStrong.body && Project(TOP, Strong1) == LoopStrong;
    assert Project(TOP, Weak2) == FlagStrong && Project(TOP, Choice) == ChoiceStrong;
    assert Project(BOTTOM, Strong1.body.body) == Replayed.rest.body && Project(BOTTOM, Strong1.body) == Replayed.rest && Project(BOTTOM, Strong1) == Replayed;
    assert Project(BOTTOM, Round2) == LoopWeak.body && Project(BOTTOM, Weak2.body) == LoopWeak && Project(BOTTOM, Weak2) == Own;
    assert Project(BOTTOM, Choice) == ChoiceWeak;
  }

  lemma StrongRuns(st: Store, fuel: nat) returns (st': Store)
    requires At(st, F1) == Holder([], -1) && fuel > 0
    ensures Run(PhaseStrong, ARGS, st, fuel) == Done(st') && N in st'.loops && st'.loops[N] == 1 && st'.ret == st.ret
    ensures At(st', Y).log == At(st, Y).log
  {
    var st1 := Update(st, Y, Increment(At(st, Y)));
    assert Push(At(st1, F1), 1) == Holder([1], 0);
    var st2 := Update(st1, F1, Holder([1], 0));
    var st3 := st2.(loops := st2.loops[N := 0]);
    var st4 := st3.(loops := st3.loops[N := 1]);
    st' := Update(st4, F1, Push(At(st4, F1), 0));
    assert Get(ARGS, st3, F1) == Some(1) && Get(ARGS, st', F1) == Some(0);
    assert Run(RoundStrong, ARGS, st4, fuel - 1) == Run(RoundStrong.els, ARGS, st4, fuel - 1) == Done(st');
    assert RunWhile(LoopStrong.body, ARGS, st', 1, fuel - 1) == Done(st');
    assert RunWhile(LoopStrong.body, ARGS, st3, 0, fuel) == Done(st');
    assert Run(LoopStrong.body, ARGS, st2, fuel) == Done(st');
    assert Run(LoopStrong, ARGS, st1, fuel) == Done(st');
    assert Run(ChoiceStrong, ARGS, st1, fuel) == Done(st');
    Then(PIncrement(Y), ChoiceStrong, ARGS, st, st1, fuel);
  }

  lemma GetRuns(st: Store, body: PStmt, fuel: nat) returns (st1: Store)
    requires At(st, Y) == Holder([], -1)
    ensures Run(PLet(BOTTOM, Y, GetRhs, body), ARGS, st, fuel) == Run(body, ARGS, st1, fuel) && st1.loops == st.loops
  {
    GetSendsInPhase(ARGS, st);
    var st0 := st.(remote := Send(ARGS, st.remote, BOTTOM, GET).0);
    assert Push(At(st0, Y), 1) == Holder([1], 0);
    st1 := Update(st0, Y, Holder([1], 0));
  }

  // --- its pieces ---

  const NEEDS: set<Name> := {WEAK, F2}
  const ReplayedPruned: PStmt := PSeq(PForEach(PSkip, N), PSkip)

  lemma WeakNeeds()
    ensures Prune.Required(PhaseWeak, {}) == NEEDS
  {
    assert RefNames(GetRhs.call.args) == {} && RhsNames(GetRhs) == {WEAK};
    var own: set<Name> := {} + {Y};
    assert Prune.Required(Replayed.rest.body, own) == {} && Prune.Required(Replayed, own) == {};
    assert Prune.Required(LoopWeak.body, own) == {F2} && Prune.Required(LoopWeak, own) == {F2} && Prune.Required(Own, own) == {F2};
    assert Prune.Required(ChoiceWeak, own) == {F2};
  }

  const Empty: PStmt := PIf(Read0(False), PSkip, PSkip)

  lemma ReplayedDrops(keep: set<Name>)
    requires F1 !in keep
    ensures Drop(keep, Replayed) == PSeq(PSkip, PForEach(Empty, N))
  {
    var inner := Replayed.rest.body;
    assert Drop(keep, inner) == Empty;
    assert Drop(keep, PForEach(inner, N)) == PForEach(Empty, N);
  }

  lemma ReplayedClears()
    ensures Prune.Clear(PSeq(PSkip, PForEach(Empty, N))).ast == ReplayedPruned
  {
    var each := PForEach(PSkip, N);
    assert Prune.Clear(Empty) == Prune.Cleared(PSkip, {False}, {});
    assert Prune.Clear(PForEach(Empty, N)) == Prune.Cleared(each, {False}, {});
    ClearsTo(PSkip, PForEach(Empty, N), [], [each]);
    assert [] + [each] == [each];
    One(each);
  }

  /** What is left of the weak phase still goes by the count of the strong loop. */
  ghost predicate Replays(p: PStmt) {
    p.PLet? && p == PLet(BOTTOM, Y, GetRhs, p.body) && p.body.PIf? && p.body.cond == Read0(True) && p.body.thn == ReplayedPruned
  }

  lemma WeakPrunes(phase: PStmt, a: PStmt, b: PStmt, needs: set<Name>)
    requires phase == PhaseWeak && a == Replayed && b == Own && needs == NEEDS
    ensures Replays(Prune.Prune(phase).ast)
  {
    WeakNeeds();
    ReplayedDrops(NEEDS);
    ReplayedClears();
    NotEmpty();
    var left := PruneBranches(BOTTOM, Y, GetRhs, Read0(True), a, b, needs);
    ReplayStays(left);
  }

  lemma NotEmpty()
    ensures !Prune.IsEmpty(ReplayedPruned)
  {
    assert Prune.Items(ReplayedPruned) == [PForEach(PSkip, N)] + [];
  }

  lemma ReplayStays(left: set<Name>)
    ensures Drop(left, ReplayedPruned) == ReplayedPruned
  {
  }

  lemma ReplayFaults(p: PStmt, st: Store, fuel: nat)
    requires Replays(p) && At(st, Y) == Holder([], -1) && N !in st.loops
    ensures Run(p, ARGS, st, fuel).Fault?
  {
    var st1 := GetRuns(st, p.body, fuel);
    assert Run(p.body, ARGS, st1, fuel) == Run(ReplayedPruned, ARGS, st1, fuel);
    assert Run(PForEach(PSkip, N), ARGS, st1, fuel).Fault?;
  }

  ghost predicate OnePieces(ps: seq<Piece>, strong: PStmt) {
    && |ps| == 2 && !ps[0].away && ps[1].away && ps[0].ast == Prune.Prune(strong).ast && Replays(ps[1].ast)
    && Counts(ps[0].ast) <= ps[0].givesLoops && ps[1].givesLoops == {N} && Y in ps[1].gives
  }

  lemma StrongSeparate()
    ensures Prune.Separate(PhaseStrong)
  {
    assert Moves(RoundStrong) == {} && Moves(LoopStrong.body) == {} && Moves(LoopStrong) == {} && Moves(FlagStrong) == {};
    assert Moves(ChoiceStrong) == {} && Moves(PhaseStrong) == {Y};
    assert Binds(RoundStrong) == {} && Binds(LoopStrong.body) == {} && Binds(LoopStrong) == {F1} && Binds(FlagStrong) == {F2};
    assert Binds(ChoiceStrong) == {F1, F2} && Binds(PhaseStrong) == {F1, F2};
  }

  lemma WeakCounts()
    ensures Counts(PhaseWeak) == {N} && Y in Binds(PhaseWeak)
  {
    assert Counts(Replayed.rest.body) == {} && Counts(Replayed) == {} && Counts(LoopWeak.body) == {} && Counts(LoopWeak) == {N};
    assert Counts(Own) == {N} && Counts(ChoiceWeak) == {N};
  }

  lemma TwoPiecesAre(s: Stmt<Label>, strong: PStmt, weak: PStmt)
    requires Project(TOP, s) == strong && Project(BOTTOM, s) == weak && forall x | x in W.Bound(s) :: !x.Anorm?
    requires Replays(Prune.Prune(weak).ast) && Prune.Separate(strong) && Counts(weak) == {N} && Y in Binds(weak)
    ensures OnePieces(PiecesOf([TOP, BOTTOM], s, l => l == BOTTOM), strong)
  {
    var weakPiece := PieceOf(BOTTOM, s, {}, true);
    PiecesAreTwo(s, l => l == BOTTOM);
    PieceIsPruned(BOTTOM, s, {}, true);
    PieceIsPruned(TOP, s, weakPiece.needs, false);
    Prune.PruneMentions(strong);
  }

  lemma OneBinds()
    ensures W.Bound(OneNameLabelled) == {Y, F1, F2}
  {
    assert W.Bound(Strong1.body.body) == {} && W.Bound(Strong1.body) == {} && W.Bound(Round2) == {} && W.Bound(Weak2.body) == {};
    assert W.Bound(Strong1) == {F1} && W.Bound(Weak2) == {F2} && W.Bound(Choice) == {F1, F2};
  }

  lemma OnePiecesAre(s: Stmt<Label>, weak: PStmt)
    requires s == OneNameLabelled && weak == PhaseWeak
    ensures OnePieces(PiecesOf([TOP, BOTTOM], s, l => l == BOTTOM), PhaseStrong)
  {
    OneProjects();
    OneBinds();
    StrongSeparate();
    WeakCounts();
    WeakPrunes(weak, Replayed, Own, NEEDS);
    TwoPiecesAre(s, PhaseStrong, weak);
  }

  lemma PiecesShipBack(ps: seq<Piece>)
    requires OnePieces(ps, PhaseStrong)
    ensures ShipsBack(ps)
  {
    var rest := ps[1..];
    assert rest[1..] == [] && Needed([]) == {} && NeededLoops([]) == {} && ShipsBack([]) && ShipsBack(rest);
  }

  lemma StrongPiece(st: Store, fuel: nat)
    requires At(st, F1) == Holder([], -1) && fuel > 0
    ensures Run(Prune.Prune(PhaseStrong).ast, ARGS, st, fuel).Done?
  {
    var st' := StrongRuns(st, fuel);
    StrongSeparate();
    Prune.PruningPreservesPhase(PhaseStrong, ARGS, st, fuel);
  }

  lemma WeakPiece(p: Piece, c: Store, fuel: nat)
    requires p.givesLoops == {N} && Y in p.gives && Replays(p.ast)
    ensures Run(p.ast, ARGS, BeginPhase(Sent(p, c)), fuel).Fault?
  {
    SentAt(p, c, Y);
    BeginAt(Sent(p, c), Y);
    ReplayFaults(p.ast, BeginPhase(Sent(p, c)), fuel);
  }

  lemma PieceFails(ps: seq<Piece>, remote: map<Label, seq<Event>>, fuel: nat)
    requires OnePieces(ps, PhaseStrong) && fuel > 0
    ensures RunShipped(ps, ARGS, Launch(remote), fuel).Fault?
  {
    var b := BeginPhase(Launch(remote));
    StrongPiece(b, fuel);
    var c := Run(ps[0].ast, ARGS, b, fuel).s;
    var rest := ps[1..];
    assert rest[0] == ps[1];
    WeakPiece(ps[1], c, fuel);
    assert RunShipped(rest, ARGS, c, fuel).Fault?;
    assert RunShipped(ps, ARGS, Launch(remote), fuel) == RunShipped(rest, ARGS, c, fuel);
  }

  // --- on one store ---

  function SigFor(l: Label): W.Sig {
    W.Sig((x: Name) => if x == F1 then TOP else BOTTOM, (x: Name) => if x == Y then BOTTOM else TOP, (x: Name) => x == F2, n => l)
  }

  const Choice1: Stmt<Label> := If(TOP, ReadAt(TOP, True), Strong1, Skip(TOP))
  const Choice2: Stmt<Label> := If(TOP, ReadAt(TOP, True), Skip(TOP), Weak2)

  lemma LoopIsOrderly(sig: W.Sig, l: Label, f: Name, bl: Label, round: Stmt<Label>)
    requires Orderly(sig, ARGS, BOTTOM, round) && W.Loops(round) == {} && W.Bound(round) == {}
    requires !W.IsInput(ARGS, f) && sig.level(f) == bl && sig.birth(f) == TOP && sig.loop(N) == l
    ensures var s := Let(TOP, bl, f, Pure(ReadAt(TOP, True)), While(l, ReadAt(bl, f), round, N)); Orderly(sig, ARGS, BOTTOM, s)
  {
    var loop := While(l, ReadAt(bl, f), round, N);
    assert Orderly(sig, ARGS, BOTTOM, loop) && W.Bound(loop) == {};
  }

  lemma RoundIsOrderly(sig: W.Sig, l: Label, cond: Expr<Label>, f: Name, bl: Label)
    requires !W.IsInput(ARGS, f) && (sig.birth(f) == sig.level(f) || sig.late(f))
    ensures var s := If(l, cond, Skip(l), Assign(l, Ref(bl, f), ReadAt(TOP, False)));
            Orderly(sig, ARGS, BOTTOM, s) && W.Loops(s) == {} && W.Bound(s) == {}
  {
    var stop := Assign(l, Ref(bl, f), ReadAt(TOP, False));
    assert Orderly(sig, ARGS, BOTTOM, stop) && Orderly(sig, ARGS, BOTTOM, Skip(l)) && W.Loops(stop) == {} && W.Bound(stop) == {};
  }

  lemma Choice1IsOrderly()
    ensures Orderly(SigFor(TOP), ARGS, BOTTOM, Choice1)
  {
    RoundIsOrderly(SigFor(TOP), TOP, ReadAt(TOP, False), F1, TOP);
    LoopIsOrderly(SigFor(TOP), TOP, F1, TOP, Strong1.body.body);
    assert Orderly(SigFor(TOP), ARGS, BOTTOM, Strong1) && Orderly(SigFor(TOP), ARGS, BOTTOM, Skip(TOP));
  }

  lemma Choice2IsOrderly()
    ensures Orderly(SigFor(BOTTOM), ARGS, BOTTOM, Choice2)
  {
    RoundIsOrderly(SigFor(BOTTOM), BOTTOM, ReadAt(BOTTOM, Y), F2, BOTTOM);
    LoopIsOrderly(SigFor(BOTTOM), BOTTOM, F2, BOTTOM, Round2);
    assert Orderly(SigFor(BOTTOM), ARGS, BOTTOM, Weak2) && Orderly(SigFor(BOTTOM), ARGS, BOTTOM, Skip(TOP));
  }

  lemma ChoicesAre(t: Stmt<Label>)
    requires Chosen(Choice, t)
    ensures t == Choice1 || t == Choice2
  {
    assert Chosen(Strong1, t.thn) ==> Chosen(Strong1.body, t.thn.body);
    assert Chosen(Weak2, t.els) ==> Chosen(Weak2.body, t.els.body);
  }

  lemma GetIsOrderly(l: Label, s: Stmt<Label>)
    requires Orderly(SigFor(l), ARGS, BOTTOM, s)
    ensures Orderly(SigFor(l), ARGS, BOTTOM, Let(BOTTOM, BOTTOM, Y, GetLabelled, s))
  {
  }

  lemma OneIsOrderly()
    ensures OrderlyByBranches(ARGS, BOTTOM, OneNameLabelled)
  {
    Choice1IsOrderly();
    Choice2IsOrderly();
    forall t | Chosen(OneNameLabelled, t) ensures exists sig :: Orderly(sig, ARGS, BOTTOM, t) {
      ChoicesAre(t.body);
      var l := if t.body == Choice1 then TOP else BOTTOM;
      GetIsOrderly(l, t.body);
    }
  }

  lemma Loop1Runs(w: World, fuel: nat)
    requires fuel > 0
    ensures Exec(Strong1, ARGS, w, fuel).Done?
  {
    var w0 := L.Starts(F1, Strong1.body.body, N, w, fuel);
    var w1 := w0.(loops := w0.loops[N := 1]);
    var w2 := Write(w1, F1, 0);
    L.Puts(F1, False, w1, 0, fuel - 1);
    assert Exec(Strong1.body.body, ARGS, w1, fuel - 1) == Done(w2);
    Around(Strong1.body, ARGS, w0, w2, 0, fuel);
    assert Iterate(Strong1.body, ARGS, w2, 1, fuel - 1) == Done(w2);
  }

  lemma OneSource(remote: map<Label, seq<Event>>, fuel: nat)
    requires fuel > 0
    ensures Exec(OneNameLabelled, ARGS, Start(remote), fuel).Done?
  {
    var w := Start(remote);
    GetSends(ARGS, w);
    var w1 := Write(w.(remote := Send(ARGS, remote, BOTTOM, GET).0), Y, 1);
    Loop1Runs(w1, fuel);
    assert Exec(OneNameLabelled, ARGS, w, fuel) == Exec(Choice, ARGS, w1, fuel) == Exec(Strong1, ARGS, w1, fuel);
  }

  lemma OneCollects()
    ensures forall l | l in Collected(OneNameLabelled) :: l in PHASES
  {
    assert PHASES[0] == TOP && PHASES[1] == BOTTOM;
    assert Collected(Strong1.body.body) == {TOP} && Collected(Strong1.body) == {TOP} && Collected(Strong1) == {TOP};
    assert Collected(Stop2) == {BOTTOM, TOP} && Collected(Round2) == {BOTTOM, TOP} && Collected(Weak2.body) == {BOTTOM, TOP} && Collected(Weak2) == {BOTTOM, TOP};
    assert RefsLabels(GetLabelled.call.args) == {} && RhsLabels(GetLabelled) == {BOTTOM, TOP} && Collected(Choice) == {BOTTOM, TOP};
  }

  lemma PhasesRun(remote: map<Label, seq<Event>>, fuel: nat)
    requires fuel > 0
    ensures OrderlyByBranches(ARGS, BOTTOM, OneNameLabelled)
    ensures var w, r := ExecStops(OneNameLabelled, ARGS, Start(remote), fuel), RunPhasesStops(PHASES, OneNameLabelled, ARGS, Launch(remote), fuel);
            w.Done? && r.Done? && SameOutcome(w.s, r.s)
  {
    OneIsOrderly();
    OneFlows();
    NothingDescribesIt();
    OneCollects();
    OneSource(remote, fuel);
    NoReturnIsLast(OneNameLabelled);
    StopsIsExec(OneNameLabelled, ARGS, Start(remote), fuel);
    assert PHASES[|PHASES| - 1] == BOTTOM;
    BranchesPreserveMeaning(ARGS, PHASES, OneNameLabelled, remote, fuel);
  }

  /** To run away from the client's store, two loops of different labels must not have the same name, even
      if only one of them can run. This program is orderly by branches, and on one store its phases do
      what it does; if the weak one runs away, it fails for want of the strong loop's count. */
  lemma OneLabelPerLoopIsNeeded(remote: map<Label, seq<Event>>, fuel: nat)
    requires fuel > 0
    ensures CompilesTo(ARGS, OneName, OneNameLabelled) && CallsPermitted(TOP, OneNameLabelled)
    ensures OrderlyByBranches(ARGS, BOTTOM, OneNameLabelled) && forall sig: W.Sig :: !Described(sig, ARGS, OneNameLabelled)
    ensures var w, r := ExecStops(OneNameLabelled, ARGS, Start(remote), fuel), RunPhasesStops(PHASES, OneNameLabelled, ARGS, Launch(remote), fuel);
            w.Done? && r.Done? && SameOutcome(w.s, r.s)
    ensures var ps := PiecesOf(PHASES, OneNameLabelled, l => l == BOTTOM);
            ShipsBack(ps) && RunShippedStops(ps, ARGS, Launch(remote), fuel).Fault?
  {
    OneIsCompiled();
    NothingDescribesIt();
    PhasesRun(remote, fuel);
    PieceRuns(remote, fuel);
  }

  lemma PieceRuns(remote: map<Label, seq<Event>>, fuel: nat)
    requires fuel > 0 && !HasReturn(OneNameLabelled)
    ensures var ps := PiecesOf(PHASES, OneNameLabelled, l => l == BOTTOM);
            ShipsBack(ps) && RunShippedStops(ps, ARGS, Launch(remote), fuel).Fault?
  {
    var ps := PiecesOf(PHASES, OneNameLabelled, l => l == BOTTOM);
    OnePiecesAre(OneNameLabelled, PhaseWeak);
    PiecesShipBack(ps);
    PieceFails(ps, remote, fuel);
    NoPieceReturns(PHASES, OneNameLabelled, l => l == BOTTOM);
    ShippedStopIsRun(ps, ARGS, Launch(remote), fuel);
  }
}
