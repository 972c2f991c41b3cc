/** Programs whose phases go wrong only because one of them runs away from the client's store. */
module ShippingNeeds {
  import opened Labels
  import opened Syntax
  import opened Semantics
  import opened SplitPhase
  import opened PhaseRun
  import opened Flows
  import opened Phases
  import opened Flatten
  import opened FlattenCorrect
  import opened DesugarCorrect
  import opened EndToEnd
  import opened Complete
  import opened Samples
  import opened Returns
  import opened Frame
  import opened Shipping
  import opened Distributed
  import opened PiecesReturning
  import opened PieceSamples
  import Prune
  import W = WellLabelled

  // --- a variable that an away phase writes and does not bind ---

  const MID: Label := 0.5
  const MIDDLE := User("middle")

  /** The handle of an object between the strongest and the weakest label. */
  const AWAY := Env(map[MIDDLE := 30], (k, events) => 1)

  const MidRhs: Rhs<()> := Remote((), Call(MID, "get", Ref((), MIDDLE)))
  const MidLabelled: Rhs<Label> := Remote(MID, Call(MID, "get", Ref(TOP, MIDDLE)))
  const MIDGET := Event("get", 30, [])

  /** `y = middle.get(); x = 5; x = y; return x` */
  const LateWrite: Stmt<()> :=
    Let((), (), Y, MidRhs, Let((), (), X, Pure(Const(5)), Seq((), Assign((), Ref((), X), Read0(Y)), Return((), Read0(X)))))

  const Set: Stmt<Label> := Assign(MID, Ref(MID, X), ReadAt(MID, Y))
  const Back: Stmt<Label> := Return(BOTTOM, ReadAt(MID, X))
  const Bound: Stmt<Label> := Let(TOP, MID, X, Pure(Const(5)), Seq(TOP, Set, Back))

  /** What the compiler makes of it: `x` is bound in the first phase, set in the second, and read in the
      third. */
  const LateLabelled: Stmt<Label> := Let(MID, MID, Y, MidLabelled, Bound)

  const PHASES3: seq<Label> := [TOP, MID, BOTTOM]
  const LateSig := W.Sig(x => MID, (x: Name) => if x == X then TOP else MID, (x: Name) => x == X, n => TOP)

  lemma LateFlows()
    ensures StmtFlows(AWAY, map[], TOP, LateLabelled)
  {
    var scope: Places := map[][Y := Place(MID, MID)];
    var inside := scope[X := Place(MID, TOP)];
    assert W.IsInput(AWAY, MIDDLE) && W.RefsLabel(MidLabelled.call.args) == TOP;
    assert StmtFlows(AWAY, inside, TOP, Set) && StmtFlows(AWAY, inside, TOP, Back);
    assert StmtFlows(AWAY, inside, TOP, Bound.body) && StmtFlows(AWAY, scope, TOP, Bound);
  }

  lemma LateIsFlat()
    ensures StripStmt(LateLabelled) == LateWrite && InAnf(LateWrite) && W.Loops(LateLabelled) == {}
  {
    assert StripRhs(MidLabelled) == MidRhs;
    assert StripStmt(Set) == LateWrite.body.body.first && StripStmt(Back) == LateWrite.body.body.rest;
    assert StripStmt(Bound) == LateWrite.body;
    assert InAnf(LateWrite.body.body.first) && InAnf(LateWrite.body.body.rest) && InAnf(LateWrite.body.body) && InAnf(LateWrite.body);
    assert W.Loops(Bound.body) == {} && W.Loops(Bound) == {};
  }

  lemma LateIsMid(r: Stmt<Label>)
    requires Plain(r) == Plain(LateLabelled) && StmtFlows(AWAY, map[], TOP, r)
    ensures Weaker(r, LateLabelled)
  {
    assert StripRhs(r.rhs) == StripRhs(MidLabelled) && StripCall(r.rhs.call).handleLabel == MID;
    assert r.bl <= MID;
    assert Plain(r.body) == Plain(Bound) && Plain(r.body.body) == Plain(Bound.body) && Plain(r.body.body.first) == Plain(Set);
    SetIsWeak(AWAY, map[][Y := Place(r.bl, r.l)], r.body, r.body.body.first);
    assert Weaker(r.body.body, Bound.body) && Weaker(r.body, Bound);
  }

  lemma LateIsParsed()
    ensures Parsed(LateWrite) && UserInputs(AWAY)
  {
    assert RefNames(MidRhs.call.args) == {} && RhsNames(MidRhs) == {MIDDLE};
    var a := LateWrite.body.body;
    assert Parsed(a.first) && Parsed(a.rest) && Parsed(a) && Parsed(LateWrite.body);
  }

  lemma LateIsCompiled()
    ensures CompilesTo(AWAY, LateWrite, LateLabelled)
  {
    LateIsFlat();
    LateIsParsed();
    LateFlows();
    assert Picks(t => MID, 3, 3, Bound.body) && Picks(t => MID, 2, 2, Bound);
    forall r | Plain(r) == Plain(LateLabelled) && StmtFlows(AWAY, map[], TOP, r) ensures Weaker(r, LateLabelled) {
      LateIsMid(r);
    }
    StraightIsCompiled(AWAY, t => MID, LateWrite, LateLabelled);
  }

  lemma LateIsDescribed()
    ensures Described(LateSig, AWAY, LateLabelled) && CallsPermitted(TOP, LateLabelled)
    ensures W.LateOnce(LateSig, LateLabelled) && W.LoopsOnce(LateSig, BOTTOM, LateLabelled) && ReturnsLast(LateLabelled) && Flat(LateLabelled)
  {
    assert Described(LateSig, AWAY, Set) && Described(LateSig, AWAY, Back) && Described(LateSig, AWAY, Bound.body) && Described(LateSig, AWAY, Bound);
    assert CallsPermitted(TOP, Set) && CallsPermitted(TOP, Back) && CallsPermitted(TOP, Bound.body) && CallsPermitted(TOP, Bound);
    assert W.Bound(Set) == {} && W.Bound(Back) == {} && W.Bound(Bound.body) == {} && W.Bound(Bound) == {X};
    assert W.LateOnce(LateSig, Bound.body) && W.LateOnce(LateSig, Bound);
    assert W.LoopsOnce(LateSig, BOTTOM, Bound.body) && W.LoopsOnce(LateSig, BOTTOM, Bound);
    assert !HasReturn(Set) && ReturnsLast(Bound.body) && ReturnsLast(Bound);
  }

  lemma LateCollects()
    ensures forall l | l in Collected(LateLabelled) :: l in PHASES3
  {
    assert Collected(Set) == {MID} + ExprLabels(Set.e) == {MID} && Collected(Back) == {BOTTOM, MID};
    assert Collected(Bound.body) == {TOP, MID, BOTTOM} && Collected(Bound) == {TOP, MID, BOTTOM};
    assert RhsLabels(MidLabelled) == {MID, TOP};
    assert PHASES3[0] == TOP && PHASES3[1] == MID && PHASES3[2] == BOTTOM;
  }

  lemma LateSplits()
    ensures Splittable(LateSig, AWAY, PHASES3, LateLabelled)
  {
    LateFlows();
    LateIsDescribed();
    LateCollects();
    FlowsIsOk(LateSig, AWAY, {}, map[], TOP, LateLabelled);
  }

  // the three pieces

  const First: PStmt := PSeq(PIncrement(Y), PLet(MID, X, Pure(Const(5)), PSeq(PSkip, PSkip)))
  const Second: PStmt := PLet(MID, Y, MidRhs, PSeq(PIncrement(X), PSeq(PAssign(X, Read0(Y)), PSkip)))
  const Third: PStmt := PSeq(PIncrement(Y), PSeq(PIncrement(X), PSeq(PIncrement(X), PReturn(Read0(X)))))
  const ThirdPruned: PStmt := PSeq(PIncrement(X), PSeq(PIncrement(X), PSeq(PReturn(Read0(X)), PSkip)))

  lemma LateProjects()
    ensures Project(TOP, LateLabelled) == First && Project(MID, LateLabelled) == Second && Project(BOTTOM, LateLabelled) == Third
  {
    assert StripRhs(MidLabelled) == MidRhs;
    assert Project(TOP, Bound.body) == PSeq(PSkip, PSkip) && Project(TOP, Bound) == First.rest;
    assert Project(MID, Bound.body) == PSeq(PAssign(X, Read0(Y)), PSkip) && Project(MID, Bound) == Second.body;
    assert Project(BOTTOM, Bound.body) == PSeq(PIncrement(X), PReturn(Read0(X))) && Project(BOTTOM, Bound) == Third.rest;
  }

  const Moves2: PStmt := PSeq(PIncrement(X), PSeq(PIncrement(X), PReturn(Read0(X))))

  lemma ThirdClears()
    ensures Prune.Clear(PSeq(PSkip, Moves2)) == Prune.Cleared(ThirdPruned, {}, {X})
  {
    var i, r := PIncrement(X), PReturn(Read0(X));
    var a := PSeq(i, r);
    ClearsTo(i, r, [i], [r]);
    assert [i] + [r] == [i, r];
    ItemsBack([i, r]);
    ClearsTo(i, a, [i], [i, r]);
    assert [i] + [i, r] == [i, i, r];
    ItemsBack([i, i, r]);
    ClearsTo(PSkip, Moves2, [], [i, i, r]);
    assert [] + [i, i, r] == [i, i, r];
    Three(i, i, r);
  }

  lemma ThirdNeeds()
    ensures Prune.Required(Third, {}) == {X} && Drop({X}, Third) == PSeq(PSkip, Moves2)
  {
    var r := PReturn(Read0(X));
    var a := PSeq(PIncrement(X), r);
    assert Prune.Required(r, {}) == {X} && Prune.Required(a, {}) == {X} && Prune.Required(Moves2, {}) == {X};
    assert Drop({X}, a) == a && Drop({X}, Moves2) == Moves2;
  }

  lemma ThirdDrops(keep: set<Name>)
    requires X in keep
    ensures Drop(keep, ThirdPruned) == ThirdPruned
  {
    var i, last := PIncrement(X), PSeq(PReturn(Read0(X)), PSkip);
    assert Drop(keep, i) == i && Drop(keep, last) == last;
    assert Drop(keep, PSeq(i, last)) == PSeq(i, last);
  }

  lemma ThirdPrunes(p: PStmt, c: Prune.Cleared, needs: set<Name>)
    requires p == Third && c == Prune.Cleared(ThirdPruned, {}, {X}) && needs == {X}
    ensures Prune.Prune(p) == Prune.Phase(ThirdPruned, needs)
  {
    ThirdNeeds();
    ThirdClears();
    ThirdDrops(needs);
    assert needs - ({} - {X}) == needs;
    PrunesTo(p, needs, PSeq(PSkip, Moves2), c, needs, ThirdPruned);
  }

  lemma SecondPrunes()
    ensures Prune.Prune(Second) == Prune.Phase(Second, {MIDDLE, X}) && Binds(Second) == {Y}
  {
    var i, a := PIncrement(X), PAssign(X, Read0(Y));
    var b := PSeq(a, PSkip);
    assert RefNames(MidRhs.call.args) == {} && RhsNames(MidRhs) == {MIDDLE};
    assert Prune.Required(a, {} + {Y}) == {X} && Prune.Required(b, {} + {Y}) == {X} && Prune.Required(Second.body, {} + {Y}) == {X};
    assert Prune.Required(Second, {}) == {MIDDLE, X};
    assert Drop({MIDDLE, X}, b) == b && Drop({MIDDLE, X}, Second.body) == Second.body && Drop({MIDDLE, X}, Second) == Second;
    ClearsTo(a, PSkip, [a], []);
    assert [a] + [] == [a];
    One(a);
    ClearsTo(i, b, [i], [a]);
    assert [i] + [a] == [i, a];
    Two(i, a);
    assert Prune.Clear(Second.body) == Prune.Cleared(Second.body, {}, {X, Y});
    assert Prune.Clear(Second).ast == Second && Prune.Clear(Second).gone == {} && {MIDDLE, X} - ({} - Prune.Clear(Second).still) == {MIDDLE, X};
    assert Binds(b) == {} && Binds(Second.body) == {};
  }

  function Away(): Label -> bool {
    l => l == MID
  }

  /** The pieces of any program, one by one. */
  lemma PiecesAreThree(s: Stmt<Label>)
    ensures var third := PieceOf(BOTTOM, s, {}, false);
            var second := PieceOf(MID, s, third.needs, true);
            PiecesOf(PHASES3, s, Away()) == [PieceOf(TOP, s, second.needs + third.needs, false), second, third]
  {
    var ls := PHASES3;
    var third := PieceOf(BOTTOM, s, {}, false);
    var second := PieceOf(MID, s, third.needs, true);
    assert ls[1..] == [MID, BOTTOM] && [MID, BOTTOM][1..] == [BOTTOM] && [BOTTOM][1..] == [];
    assert Needed([]) == {} && PiecesOf([], s, Away()) == [];
    assert PiecesOf([BOTTOM], s, Away()) == [third] + [] == [third];
    assert [third][1..] == [] && Needed([third]) == third.needs;
    assert PiecesOf([MID, BOTTOM], s, Away()) == [second] + [third] == [second, third];
    assert [second, third][1..] == [third] && Needed([second, third]) == second.needs + third.needs;
    assert PiecesOf(ls, s, Away()) == [PieceOf(TOP, s, second.needs + third.needs, false)] + [second, third];
  }

  /** Three pieces, the second away: what pruning made of the first phase, and what the others are. */
  ghost predicate ThreePieces(ps: seq<Piece>, first: PStmt, b: Prune.Phase, gives: set<Name>, c: Prune.Phase) {
    && |ps| == 3 && !ps[0].away && ps[1].away && !ps[2].away
    && ps[0].ast == Prune.Prune(first).ast && ps[1].ast == b.ast && ps[2].ast == c.ast
    && ps[1].needs == b.needs && ps[1].gives == gives
  }

  lemma PrunedThree(s: Stmt<Label>, first: PStmt, second: PStmt, third: PStmt, b: Prune.Phase, c: Prune.Phase)
    requires Project(TOP, s) == first && Project(MID, s) == second && Project(BOTTOM, s) == third
    requires Prune.Prune(second) == b && Prune.Prune(third) == c && forall x | x in W.Bound(s) :: x.User?
    ensures ThreePieces(PiecesOf(PHASES3, s, Away()), first, b, Binds(second), c)
  {
    PiecesAreThree(s);
    PieceIsPruned(BOTTOM, s, {}, false);
    PieceIsPruned(MID, s, c.needs, true);
    PieceIsPruned(TOP, s, b.needs + c.needs, false);
  }

  const SecondPhase: Prune.Phase := Prune.Phase(Second, {MIDDLE, X})
  const ThirdPhase: Prune.Phase := Prune.Phase(ThirdPruned, {X})

  ghost predicate LatePieces(ps: seq<Piece>, first: PStmt) {
    ThreePieces(ps, first, SecondPhase, {Y}, ThirdPhase)
  }

  lemma LateBinds()
    ensures forall x | x in W.Bound(LateLabelled) :: x.User?
  {
    assert W.Bound(Bound.body) == {} && W.Bound(Bound) == {X};
  }

  lemma LatePiecesAre(s: Stmt<Label>, second: PStmt, third: PStmt)
    requires s == LateLabelled && second == Second && third == Third
    ensures LatePieces(PiecesOf(PHASES3, s, Away()), First)
  {
    LateProjects();
    SecondPrunes();
    ThirdPrunes(third, Prune.Cleared(ThirdPruned, {}, {X}), {X});
    LateBinds();
    PrunedThree(s, First, second, third, SecondPhase, ThirdPhase);
  }

  lemma FirstRuns(st: Store, fuel: nat) returns (st': Store)
    requires At(st, X) == Holder([], -1)
    ensures Run(Prune.Prune(First).ast, AWAY, st, fuel) == Done(st') && At(st', X).log == [5] && At(st', Y).log == At(st, Y).log
  {
    var st1 := Update(st, Y, Increment(At(st, Y)));
    assert Push(At(st1, X), 5) == Holder([5], 0);
    var st2 := Update(st1, X, Holder([5], 0));
    assert Run(PSeq(PSkip, PSkip), AWAY, st2, fuel) == Done(st2);
    Lets(MID, X, 5, PSeq(PSkip, PSkip), AWAY, st1, fuel);
    Then(PIncrement(Y), First.rest, AWAY, st, st1, fuel);
    assert Moves(First.rest) == {} && Moves(First) == {Y} && Binds(PSeq(PSkip, PSkip)) == {} && Binds(First.rest) == {X} && Binds(First) == {X};
    Prune.PruningPreservesPhase(First, AWAY, st, fuel);
    st' := Run(Prune.Prune(First).ast, AWAY, st, fuel).s;
    assert At(st2, X).log == At(st', X).log && At(st2, Y).log == At(st', Y).log;
  }

  lemma SetRuns(st: Store, fuel: nat) returns (st': Store)
    requires At(st, Y) == Holder([1], 0)
    ensures Run(Second.body, AWAY, st, fuel) == Done(st')
  {
    var st1 := Update(st, X, Increment(At(st, X)));
    assert Get(AWAY, st1, Y) == Some(1);
    st' := Update(st1, X, Push(At(st1, X), 1));
    Then(PAssign(X, Read0(Y)), PSkip, AWAY, st1, st', fuel);
    Then(PIncrement(X), PSeq(PAssign(X, Read0(Y)), PSkip), AWAY, st, st1, fuel);
  }

  lemma SecondRuns(st: Store, fuel: nat)
    requires At(st, Y) == Holder([], -1)
    ensures Run(Second, AWAY, st, fuel).Done?
  {
    assert EventOf(MidRhs.call, Gets(AWAY, st)) == Some(MIDGET);
    var st0 := st.(remote := Send(AWAY, st.remote, MID, MIDGET).0);
    assert RunRhs(MidRhs, AWAY, st) == Some((st0, 1)) && Push(At(st0, Y), 1) == Holder([1], 0);
    var st' := SetRuns(Update(st0, Y, Holder([1], 0)), fuel);
  }

  lemma ThirdFaults(st: Store, fuel: nat)
    requires At(st, X) == Holder([5], -1)
    ensures Run(ThirdPruned, AWAY, st, fuel).Fault?
  {
    var st1 := Update(st, X, Increment(At(st, X)));
    var st2 := Update(st1, X, Increment(At(st1, X)));
    assert Get(AWAY, st2, X) == None && At(st2, X) == Holder([5], 1);
    assert Run(PReturn(Read0(X)), AWAY, st2, fuel).Fault?;
    assert Run(ThirdPruned.rest.rest, AWAY, st2, fuel).Fault?;
    Then(PIncrement(X), ThirdPruned.rest.rest, AWAY, st1, st2, fuel);
    Then(PIncrement(X), ThirdPruned.rest, AWAY, st, st1, fuel);
  }

  lemma SecondLeaves(ps: seq<Piece>, c: Store, fuel: nat) returns (c': Store)
    requires LatePieces(ps, First) && At(c, X).log == [5]
    ensures RunPiece(ps[1..], AWAY, c, fuel) == Done(c') && At(c', X).log == [5]
  {
    var rest := ps[1..];
    assert rest[0] == ps[1];
    var b := BeginPhase(Sent(rest[0], c));
    SentAt(rest[0], c, Y);
    BeginAt(Sent(rest[0], c), Y);
    SecondRuns(b, fuel);
    PieceLeaves(rest, AWAY, c, Run(Second, AWAY, b, fuel).s, fuel);
    c' := RunPiece(rest, AWAY, c, fuel).s;
    assert X !in Returned(rest);
  }

  lemma LastFaults(ps: seq<Piece>, c: Store, fuel: nat)
    requires LatePieces(ps, First) && At(c, X).log == [5]
    ensures RunShipped(ps[1..][1..], AWAY, c, fuel).Fault?
  {
    assert ps[1..][1..] == [ps[2]];
    BeginAt(c, X);
    ThirdFaults(BeginPhase(c), fuel);
  }

  lemma LateShipped(ps: seq<Piece>, remote: map<Label, seq<Event>>, fuel: nat)
    requires LatePieces(ps, First)
    ensures RunShipped(ps, AWAY, Launch(remote), fuel).Fault?
  {
    var c1 := FirstRuns(BeginPhase(Launch(remote)), fuel);
    var c2 := SecondLeaves(ps, c1, fuel);
    LastFaults(ps, c2, fuel);
    assert RunShipped(ps[1..], AWAY, c1, fuel) == RunShipped(ps[1..][1..], AWAY, c2, fuel);
    assert RunShipped(ps, AWAY, Launch(remote), fuel) == RunShipped(ps[1..], AWAY, c1, fuel);
  }

  /** A program that is compiled to three phases and meets every condition for splitting: on one store
      they return what it returns. The second phase runs away, and the client is not told what it wrote
      to `x`, which it does not bind: the third phase fails. */
  lemma ShipsBackIsNeeded(remote: map<Label, seq<Event>>, fuel: nat)
    ensures CompilesTo(AWAY, LateWrite, LateLabelled) && Splittable(LateSig, AWAY, PHASES3, LateLabelled) && ReturnsLast(LateLabelled)
    ensures !ShipsBack(PiecesOf(PHASES3, LateLabelled, Away()))
    ensures var w, r := ExecStops(LateLabelled, AWAY, Start(remote), fuel), RunPhasesStops(PHASES3, LateLabelled, AWAY, Launch(remote), fuel);
            w.Done? && w.s.ret == Some(1) && r.Done? && r.s.ret == Some(1)
    ensures RunShippedStops(PiecesOf(PHASES3, LateLabelled, Away()), AWAY, Launch(remote), fuel).Fault?
  {
    LateIsCompiled();
    LateSplits();
    LateIsDescribed();
    LateSource(remote, fuel);
    StopsIsExec(LateLabelled, AWAY, Start(remote), fuel);
    SplittingPreservesMeaning(LateSig, AWAY, PHASES3, LateLabelled, remote, fuel);
    LateShips(remote, fuel);
  }

  lemma LateSource(remote: map<Label, seq<Event>>, fuel: nat)
    ensures var w := Exec(LateLabelled, AWAY, Start(remote), fuel); w.Done? && w.s.ret == Some(1)
  {
    var w := Start(remote);
    assert EventOf(MidLabelled.call, Reads(AWAY, w)) == Some(MIDGET);
    var w1 := Write(w.(remote := Send(AWAY, remote, MID, MIDGET).0), Y, 1);
    var w2 := Write(w1, X, 5);
    var w3 := Write(w2, X, 1);
    assert Read(AWAY, w2, Y) == Some(1) && Read(AWAY, w3, X) == Some(1);
    After(Set, Back, AWAY, w2, w3, fuel);
    assert Exec(Bound, AWAY, w1, fuel) == Exec(Bound.body, AWAY, w2, fuel);
  }

  lemma LateShips(remote: map<Label, seq<Event>>, fuel: nat)
    requires Splittable(LateSig, AWAY, PHASES3, LateLabelled) && ReturnsLast(LateLabelled) && Flat(LateLabelled)
    requires Exec(LateLabelled, AWAY, Start(remote), fuel).Done?
    ensures var ps := PiecesOf(PHASES3, LateLabelled, Away()); !ShipsBack(ps) && RunShippedStops(ps, AWAY, Launch(remote), fuel).Fault?
  {
    var ps := PiecesOf(PHASES3, LateLabelled, Away());
    LatePiecesAre(LateLabelled, Second, Third);
    LateShipped(ps, remote, fuel);
    PiecesReturnLast(LateSig, AWAY, PHASES3, LateLabelled, Away());
    ShippedStopIsRun(ps, AWAY, Launch(remote), fuel);
    if ShipsBack(ps) { DistributionRuns(LateSig, AWAY, PHASES3, LateLabelled, Away(), remote, fuel); }
  }
}
