/** A return in front of other statements that the compiler lets through: those statements run. */
module EarlyReturn {
  import opened Labels
  import opened Syntax
  import opened Semantics
  import opened SplitPhase
  import opened PhaseRun
  import opened Phases
  import opened Flatten
  import opened FlattenCorrect
  import opened DesugarCorrect
  import opened EndToEnd
  import opened Complete
  import opened Samples
  import opened Flows
  import R = Returns
  import W = WellLabelled

  const A := Anorm(1, 1)
  const SENT := Event("put", 20, [])

  const SendStrong: Stmt<()> := Perform((), Call(TOP, "put", Ref((), STRONG)))
  const SendLabelled: Stmt<Label> := Perform(TOP, Call(TOP, "put", Ref(TOP, STRONG)))

  /** `return 1; strong.put()` */
  const Early: Stmt<()> := Seq((), Return((), Const(1)), Seq((), SendStrong, Skip(())))

  const Block: Stmt<Label> := Let(TOP, TOP, A, Pure(Const(1)), Return(BOTTOM, ReadAt(TOP, A)))
  const Rest: Stmt<Label> := Seq(TOP, SendLabelled, Skip(TOP))

  /** What the compiler makes of it. The value of the return is named first, which puts the return into
      a block of its own; there it is the last statement. */
  const EarlyLabelled: Stmt<Label> := Seq(TOP, Block, Rest)

  const EarlySig := W.Sig(x => TOP, x => TOP, x => false, n => TOP)

  lemma EarlyFlattens(seqnum: int, depth: int)
    requires seqnum == 1 && depth == 1
    ensures FlattenExprs(seqnum, depth, Early) == StripStmt(EarlyLabelled)
  {
    var r := Early.first;
    assert Unnamed(Const(1)) == 1 && !FlatHeader(r);
    var b := Partial(Anorm(seqnum, depth), r);
    assert b == Let((), (), A, Pure(Const(1)), Return((), Read0(A)));
    assert InAnf(b.body) && InAnf(b) && InAnf(Early.rest);
    FlatStays(seqnum, depth + 1, b);
    FlatStays(seqnum + 1, depth, Early.rest);
    assert StripStmt(Block) == b && StripStmt(Rest) == Early.rest;
  }

  lemma EarlyFlows()
    ensures StmtFlows(ARGS, map[], TOP, EarlyLabelled) && AllTop(EarlyLabelled)
  {
    assert W.IsInput(ARGS, STRONG) && W.RefsLabel(SendLabelled.call.args) == TOP;
    assert StmtFlows(ARGS, map[][A := Place(TOP, TOP)], TOP, Block.body);
    assert StmtFlows(ARGS, map[], TOP, Block) && StmtFlows(ARGS, map[], TOP, SendLabelled) && StmtFlows(ARGS, map[], TOP, Rest);
    assert AllTop(Block) && AllTop(Rest);
  }

  lemma EarlyIsParsed()
    ensures Parsed(Early) && UserInputs(ARGS)
  {
    ArgsAreUsers(ARGS);
    assert RefNames(SendStrong.call.args) == {} && Names(Early.first.e) == {};
    assert Parsed(SendStrong) && Parsed(Early.first) && Parsed(Early.rest);
  }

  lemma EarlyIsCompiled()
    ensures CompilesTo(ARGS, Early, EarlyLabelled)
  {
    assert W.Loops(Early) == {} && W.Loops(Block) == {} && W.Loops(Rest) == {};
    NoLoopsStays(1, 1, Early);
    EarlyFlattens(1, 1);
    EarlyIsParsed();
    EarlyFlows();
    TopPicks(1, 1, EarlyLabelled);
    NoLoopsNamed(1, 1, EarlyLabelled);
    forall r | Plain(r) == Plain(EarlyLabelled) && StmtFlows(ARGS, map[], TOP, r) ensures Weaker(r, EarlyLabelled) {
      TopIsStrongest(r, EarlyLabelled);
    }
    StrongestIsCompiled(ARGS, t => TOP, Early, EarlyLabelled);
  }

  lemma EarlyIsAccepted()
    ensures !R.Accepted(true, Early) && !R.ReturnsLast(Early)
    ensures R.Accepted(true, EarlyLabelled) && !R.BlocksLast(EarlyLabelled)
  {
    assert R.HasReturn(Early.first) && R.HasReturn(Block.body) && R.HasReturn(Block);
    assert R.Accepted(true, Block) && R.Accepted(true, SendLabelled) && R.Accepted(true, Rest);
  }

  lemma EarlyIsFine()
    ensures Described(EarlySig, ARGS, EarlyLabelled) && CallsPermitted(TOP, EarlyLabelled)
    ensures W.LateOnce(EarlySig, EarlyLabelled) && W.LoopsOnce(EarlySig, BOTTOM, EarlyLabelled)
  {
    assert Described(EarlySig, ARGS, SendLabelled) && CallsPermitted(TOP, SendLabelled) && W.LoopsOnce(EarlySig, BOTTOM, SendLabelled);
    assert Described(EarlySig, ARGS, Skip(TOP)) && CallsPermitted(TOP, Skip(TOP)) && W.LoopsOnce(EarlySig, BOTTOM, Skip(TOP));
    assert W.Loops(SendLabelled) == {} && W.Loops(Block) == {};
    assert Described(EarlySig, ARGS, Rest) && CallsPermitted(TOP, Rest) && W.LoopsOnce(EarlySig, BOTTOM, Rest);
    assert Described(EarlySig, ARGS, Block) && CallsPermitted(TOP, Block) && W.LoopsOnce(EarlySig, BOTTOM, Block);
  }

  lemma EarlyProjects()
    ensures Project(TOP, EarlyLabelled) == PSeq(PLet(TOP, A, Pure(Const(1)), PSkip), PSeq(PPerform(SendStrong.call), PSkip))
    ensures Project(BOTTOM, EarlyLabelled) == PSeq(PSeq(PIncrement(A), PReturn(Read0(A))), PSeq(PSkip, PSkip))
  {
    assert StripCall(SendLabelled.call) == SendStrong.call;
    assert Project(TOP, Rest) == PSeq(PPerform(SendStrong.call), PSkip) && Project(BOTTOM, Rest) == PSeq(PSkip, PSkip);
    assert Project(BOTTOM, Block) == PSeq(PIncrement(A), PReturn(Read0(A)));
  }

  lemma StrongSends(st: Store, fuel: nat) returns (st': Store)
    requires At(st, A) == Holder([], -1) && st.ret.None?
    ensures RunStops(Project(TOP, EarlyLabelled), ARGS, st, fuel) == Done(st')
    ensures At(st', A).log == [1] && Received(st'.remote, TOP) == Received(st.remote, TOP) + [SENT] && st'.ret.None?
  {
    EarlyProjects();
    assert Push(At(st, A), 1) == Holder([1], 0);
    var st1 := Update(st, A, Holder([1], 0));
    assert RunStops(PLet(TOP, A, Pure(Const(1)), PSkip), ARGS, st, fuel) == RunStops(PSkip, ARGS, st1, fuel) == Done(st1);
    assert EventOf(SendStrong.call, Gets(ARGS, st1)) == Some(SENT);
    st' := st1.(remote := Send(ARGS, st1.remote, TOP, SENT).0);
    assert RunStops(PSeq(PPerform(SendStrong.call), PSkip), ARGS, st1, fuel) == Done(st');
  }

  lemma WeakReturns(st: Store, fuel: nat) returns (st': Store)
    requires At(st, A) == Holder([1], -1) && st.ret.None?
    ensures RunStops(Project(BOTTOM, EarlyLabelled), ARGS, st, fuel) == Done(st') && st'.ret == Some(1) && st'.remote == st.remote
  {
    EarlyProjects();
    var st1 := Update(st, A, Increment(At(st, A)));
    st' := st1.(ret := Some(1));
    assert Get(ARGS, st1, A) == Some(1);
    assert RunStops(PReturn(Read0(A)), ARGS, st1, fuel) == Done(st');
    assert RunStops(PSeq(PIncrement(A), PReturn(Read0(A))), ARGS, st, fuel) == Done(st');
  }

  lemma PhasesSend(remote: map<Label, seq<Event>>, fuel: nat)
    ensures var r := RunPhasesStops(PHASES, EarlyLabelled, ARGS, Launch(remote), fuel);
            r.Done? && r.s.ret == Some(1) && Received(r.s.remote, TOP) == Received(remote, TOP) + [SENT]
  {
    var st1 := StrongSends(BeginPhase(Launch(remote)), fuel);
    var b := BeginPhase(st1);
    assert At(b, A) == Holder([1], -1);
    var st2 := WeakReturns(b, fuel);
    assert PHASES[1..] == [BOTTOM] && PHASES[1..][1..] == [];
    assert RunPhasesStops(PHASES, EarlyLabelled, ARGS, Launch(remote), fuel) == RunPhasesStops([BOTTOM], EarlyLabelled, ARGS, st1, fuel);
    assert RunPhasesStops([], EarlyLabelled, ARGS, st2, fuel) == Done(st2);
  }

  lemma EarlyReturns(remote: map<Label, seq<Event>>, fuel: nat)
    ensures R.ExecStops(Early, ARGS, Start(remote), fuel) == Done(Start(remote).(ret := Some(1)))
  {
    assert R.ExecStops(Early.first, ARGS, Start(remote), fuel) == Done(Start(remote).(ret := Some(1)));
  }

  /** The check of return positions is made on the flattened program. It refuses this program as it is
      written and accepts what it is compiled to, of which everything but `ReturnsLast` holds. The
      program returns and sends nothing; its strong phase, which does not return, sends `put`. */
  lemma LastReturnsAreNeeded(remote: map<Label, seq<Event>>, fuel: nat)
    ensures CompilesTo(ARGS, Early, EarlyLabelled)
    ensures !R.Accepted(true, Early) && !R.ReturnsLast(Early) && R.Accepted(true, EarlyLabelled) && !R.BlocksLast(EarlyLabelled)
    ensures Described(EarlySig, ARGS, EarlyLabelled) && CallsPermitted(TOP, EarlyLabelled)
    ensures W.LateOnce(EarlySig, EarlyLabelled) && W.LoopsOnce(EarlySig, BOTTOM, EarlyLabelled)
    ensures var w := R.ExecStops(Early, ARGS, Start(remote), fuel); w.Done? && w.s.ret == Some(1) && w.s.remote == remote
    ensures var r := RunPhasesStops(PHASES, EarlyLabelled, ARGS, Launch(remote), fuel);
            r.Done? && r.s.ret == Some(1) && Received(r.s.remote, TOP) == Received(remote, TOP) + [SENT]
  {
    EarlyIsCompiled();
    EarlyIsAccepted();
    EarlyIsFine();
    EarlyReturns(remote, fuel);
    PhasesSend(remote, fuel);
  }
}
