/** What follows a return that is always reached has no effect on the program; on its phases it has none if
    it belongs to the phase that returns. */
module Stopping {
  import opened Labels
  import opened Syntax
  import opened Semantics
  import opened SplitPhase
  import opened PhaseRun
  import opened WellLabelled
  import opened Replay
  import opened Phases
  import P = Prune
  import opened Returns
  import opened PhaseReturning
  import opened Flows
  import F = Frame

  // --- programs ---

  /** Every run that ends returns. */
  predicate Ends<L>(s: Stmt<L>) {
    match s
    case Let(_, _, _, _, body) => Ends(body)
    case Return(_, _) => true
    case If(_, _, a, b) => Ends(a) && Ends(b)
    case Seq(_, a, b) => Ends(a) || Ends(b)
    case _ => false
  }

  /** The program without what follows such a return. */
  function Cut<L>(s: Stmt<L>): Stmt<L> {
    match s
    case Let(l, bl, x, rhs, body) => Let(l, bl, x, rhs, Cut(body))
    case If(l, cond, a, b) => If(l, cond, Cut(a), Cut(b))
    case Seq(l, a, b) => Seq(l, Cut(a), if Ends(a) then Skip(l) else Cut(b))
    case _ => s
  }

  lemma {:induction false} EndsReturns<L>(s: Stmt<L>, env: Env, w: World, fuel: nat)
    requires Ends(s) && w.ret.None? && ExecStops(s, env, w, fuel).Done?
    ensures ExecStops(s, env, w, fuel).s.ret.Some?
    decreases s
  {
    match s
    case Let(_, _, x, rhs, body) =>
      var r := ExecRhs(rhs, env, w).value;
      EndsReturns(body, env, Write(r.0, x, r.1), fuel);
    case If(_, cond, a, b) => EndsReturns(if Eval(cond, Reads(env, w)).value != 0 then a else b, env, w, fuel);
    case Seq(_, a, b) =>
      var r := ExecStops(a, env, w, fuel);
      if Ends(a) { EndsReturns(a, env, w, fuel); }
      if r.s.ret.None? { EndsReturns(b, env, r.s, fuel); }
    case _ =>
  }

  /** Whatever follows a statement that returns has no effect. */
  lemma {:induction false} CutStops<L>(s: Stmt<L>, env: Env, w: World, fuel: nat)
    requires w.ret.None?
    ensures ExecStops(Cut(s), env, w, fuel) == ExecStops(s, env, w, fuel)
    decreases s
  {
    match s
    case Let(_, _, x, rhs, body) =>
      var r := ExecRhs(rhs, env, w);
      if r.Some? { CutStops(body, env, Write(r.value.0, x, r.value.1), fuel); }
    case If(_, _, a, b) =>
      CutStops(a, env, w, fuel);
      CutStops(b, env, w, fuel);
    case Seq(_, a, b) =>
      CutStops(a, env, w, fuel);
      var r := ExecStops(a, env, w, fuel);
      if r.Done? && Ends(a) { EndsReturns(a, env, w, fuel); }
      if r.Done? && r.s.ret.None? { CutStops(b, env, r.s, fuel); }
    case _ =>
  }

  // --- phases ---

  predicate PhaseEnds(p: PStmt) {
    match p
    case PLet(_, _, _, body) => PhaseEnds(body)
    case PReturn(_) => true
    case PIf(_, a, b) => PhaseEnds(a) && PhaseEnds(b)
    case PSeq(a, b) => PhaseEnds(a) || PhaseEnds(b)
    case _ => false
  }

  function PhaseCut(p: PStmt): PStmt {
    match p
    case PLet(bl, x, rhs, body) => PLet(bl, x, rhs, PhaseCut(body))
    case PIf(cond, a, b) => PIf(cond, PhaseCut(a), PhaseCut(b))
    case PSeq(a, b) => PSeq(PhaseCut(a), if PhaseEnds(a) then PSkip else PhaseCut(b))
    case _ => p
  }

  lemma {:induction false} PhaseEndReturns(p: PStmt, env: Env, st: Store, fuel: nat)
    requires PhaseEnds(p) && st.ret.None? && RunStops(p, env, st, fuel).Done?
    ensures RunStops(p, env, st, fuel).s.ret.Some?
    decreases p
  {
    match p
    case PLet(_, x, rhs, body) =>
      var r := RunRhs(rhs, env, st).value;
      PhaseEndReturns(body, env, Update(r.0, x, Push(At(r.0, x), r.1)), fuel);
    case PIf(cond, a, b) => PhaseEndReturns(if Eval(cond, Gets(env, st)).value != 0 then a else b, env, st, fuel);
    case PSeq(a, b) =>
      var r := RunStops(a, env, st, fuel);
      if PhaseEnds(a) { PhaseEndReturns(a, env, st, fuel); }
      if r.s.ret.None? { PhaseEndReturns(b, env, r.s, fuel); }
    case _ =>
  }

  /** A return ends its phase: whatever follows a statement that returns has no effect, whether it is there
      or not. */
  lemma {:induction false} PhaseCutStops(p: PStmt, env: Env, st: Store, fuel: nat)
    requires st.ret.None?
    ensures RunStops(PhaseCut(p), env, st, fuel) == RunStops(p, env, st, fuel)
    decreases p
  {
    match p
    case PLet(_, x, rhs, body) =>
      var r := RunRhs(rhs, env, st);
      if r.Some? { PhaseCutStops(body, env, Update(r.value.0, x, Push(At(r.value.0, x), r.value.1)), fuel); }
    case PIf(_, a, b) =>
      PhaseCutStops(a, env, st, fuel);
      PhaseCutStops(b, env, st, fuel);
    case PSeq(a, b) =>
      PhaseCutStops(a, env, st, fuel);
      var r := RunStops(a, env, st, fuel);
      if r.Done? && PhaseEnds(a) { PhaseEndReturns(a, env, st, fuel); }
      if r.Done? && r.s.ret.None? { PhaseCutStops(b, env, r.s, fuel); }
    case _ =>
  }

  // --- what may follow a return ---

  /** Statements of the phase that returns. */
  predicate AllBottom(s: Stmt<Label>) {
    match s
    case Let(l, _, _, _, body) => l == BOTTOM && AllBottom(body)
    case Skip(_) => true
    case Seq(_, a, b) => AllBottom(a) && AllBottom(b)
    case _ => s.l == BOTTOM
  }

  /** Behind a return, if anything, stand only statements of its own phase, and it is always reached before
      them. */
  predicate BottomBehind(s: Stmt<Label>) {
    match s
    case Let(_, _, _, _, body) => BottomBehind(body)
    case If(_, _, a, b) => BottomBehind(a) && BottomBehind(b)
    case While(_, _, body, _) => !HasReturn(body)
    case Seq(_, a, b) => BottomBehind(a) && BottomBehind(b) && (HasReturn(a) ==> b.Skip? || (Ends(a) && AllBottom(b)))
    case _ => true
  }

  lemma {:induction false} EndsHasReturn<L>(s: Stmt<L>)
    ensures Ends(s) ==> HasReturn(s)
    ensures !HasReturn(s) ==> Cut(s) == s
  {
    match s
    case Let(_, _, _, _, body) => EndsHasReturn(body);
    case If(_, _, a, b) =>
      EndsHasReturn(a);
      EndsHasReturn(b);
    case Seq(_, a, b) =>
      EndsHasReturn(a);
      EndsHasReturn(b);
    case _ =>
  }

  /** Of programs that pass the check, a return that is there is always reached. */
  lemma {:induction false} AcceptedEnds<L>(s: Stmt<L>)
    requires Accepted(true, s)
    ensures Ends(s) <==> HasReturn(s)
  {
    match s
    case Let(_, _, _, _, body) => AcceptedEnds(body);
    case If(_, _, a, b) =>
      NoReturnAccepted(a);
      NoReturnAccepted(b);
      EndsHasReturn(s);
    case While(_, _, body, _) => NoReturnAccepted(body);
    case Seq(_, a, b) =>
      if !a.Return? {
        AcceptedEnds(a);
        AcceptedEnds(b);
      }
    case _ =>
  }

  /** Where nothing follows a return, nothing of another phase does. */
  lemma {:induction false} LastIsBottomBehind(s: Stmt<Label>)
    requires ReturnsLast(s)
    ensures BottomBehind(s)
  {
    match s
    case Let(_, _, _, _, body) => LastIsBottomBehind(body);
    case If(_, _, a, b) =>
      LastIsBottomBehind(a);
      LastIsBottomBehind(b);
    case Seq(_, a, b) =>
      LastIsBottomBehind(a);
      LastIsBottomBehind(b);
    case _ =>
  }

  lemma {:induction false} CutReturnsLast(s: Stmt<Label>)
    requires BottomBehind(s)
    ensures ReturnsLast(Cut(s)) && (HasReturn(Cut(s)) ==> HasReturn(s))
  {
    match s
    case Let(_, _, _, _, body) => CutReturnsLast(body);
    case If(_, _, a, b) =>
      CutReturnsLast(a);
      CutReturnsLast(b);
    case Seq(_, a, b) =>
      CutReturnsLast(a);
      CutReturnsLast(b);
      if Ends(a) {
        assert Cut(s).rest.Skip? && !HasReturn(Cut(s).rest) && ReturnsLast(Cut(s).rest);
      } else if HasReturn(a) {
        assert b.Skip? && Cut(b) == b;
      }
    case _ =>
  }

  lemma {:induction false} CutMentions(s: Stmt<Label>)
    ensures Bound(Cut(s)) <= Bound(s) && Loops(Cut(s)) <= Loops(s) && Collected(Cut(s)) <= Collected(s)
  {
    match s
    case Let(_, _, _, _, body) => CutMentions(body);
    case If(_, _, a, b) =>
      CutMentions(a);
      CutMentions(b);
    case Seq(_, a, b) =>
      CutMentions(a);
      CutMentions(b);
    case _ =>
  }

  /** What is left has what splitting asks for. */
  lemma {:induction false} CutOk(sig: Sig, env: Env, scope: set<Name>, pc: Label, weakest: Label, s: Stmt<Label>)
    requires StmtOk(sig, env, scope, pc, s) && LateOnce(sig, s) && LoopsOnce(sig, weakest, s)
    ensures var t := Cut(s); StmtOk(sig, env, scope, pc, t) && LateOnce(sig, t) && LoopsOnce(sig, weakest, t)
    decreases s
  {
    match s
    case Let(_, _, x, _, body) =>
      CutOk(sig, env, scope + {x}, pc, weakest, body);
      CutMentions(body);
    case If(l, _, a, b) =>
      CutOk(sig, env, scope, l, weakest, a);
      CutOk(sig, env, scope, l, weakest, b);
    case Seq(_, a, b) =>
      CutOk(sig, env, scope, pc, weakest, a);
      CutOk(sig, env, scope, pc, weakest, b);
      CutMentions(a);
      CutMentions(b);
    case _ =>
  }

  // --- the phases of both ---

  lemma {:induction false} ProjectEnds(env: Env, scope: Places, pc: Label, s: Stmt<Label>)
    requires StmtFlows(env, scope, pc, s) && Ends(s)
    ensures PhaseEnds(Project(BOTTOM, s))
    decreases s
  {
    match s
    case Let(l, bl, x, _, body) => ProjectEnds(env, scope[x := Place(bl, l)], pc, body);
    case If(l, _, a, b) =>
      ProjectEnds(env, scope, l, a);
      ProjectEnds(env, scope, l, b);
    case Seq(_, a, b) =>
      if Ends(a) { ProjectEnds(env, scope, pc, a); } else { ProjectEnds(env, scope, pc, b); }
    case _ =>
  }

  /** The weakest phase stops at its return, so it does not notice what follows. */
  lemma {:induction false} BottomCut(env: Env, scope: Places, pc: Label, s: Stmt<Label>, st: Store, fuel: nat)
    requires StmtFlows(env, scope, pc, s) && st.ret.None?
    ensures RunStops(Project(BOTTOM, Cut(s)), env, st, fuel) == RunStops(Project(BOTTOM, s), env, st, fuel)
    decreases s, 1
  {
    match s
    case Let(_, _, _, _, _) => BottomCutLet(env, scope, pc, s, st, fuel);
    case If(l, _, a, b) =>
      BottomCut(env, scope, l, a, st, fuel);
      BottomCut(env, scope, l, b, st, fuel);
    case Seq(_, a, b) =>
      BottomCut(env, scope, pc, a, st, fuel);
      var r := RunStops(Project(BOTTOM, a), env, st, fuel);
      if r.Done? && Ends(a) {
        ProjectEnds(env, scope, pc, a);
        PhaseEndReturns(Project(BOTTOM, a), env, st, fuel);
      }
      if r.Done? && r.s.ret.None? { BottomCut(env, scope, pc, b, r.s, fuel); }
    case _ =>
  }

  lemma {:induction false} BottomCutLet(env: Env, scope: Places, pc: Label, s: Stmt<Label>, st: Store, fuel: nat)
    requires s.Let? && StmtFlows(env, scope, pc, s) && st.ret.None?
    ensures RunStops(Project(BOTTOM, Cut(s)), env, st, fuel) == RunStops(Project(BOTTOM, s), env, st, fuel)
    decreases s, 0
  {
    var inside := scope[s.x := Place(s.bl, s.l)];
    if s.l == BOTTOM {
      var r := RunRhs(StripRhs(s.rhs), env, st);
      if r.Some? { BottomCut(env, inside, pc, s.body, Update(r.value.0, s.x, Push(At(r.value.0, s.x), r.value.1)), fuel); }
    } else {
      BottomCut(env, inside, pc, s.body, Update(st, s.x, Increment(At(st, s.x))), fuel);
    }
  }

  /** A stronger phase only moves cursors for statements of the weakest one. */
  lemma {:induction false} IdleRuns(l: Label, s: Stmt<Label>, env: Env, st: Store, fuel: nat) returns (st': Store)
    requires l > BOTTOM && AllBottom(s)
    ensures Run(Project(l, s), env, st, fuel) == Done(st') && P.SameEffect(st, st')
    decreases s
  {
    match s
    case Let(_, _, x, _, body) =>
      var st1 := Update(st, x, Increment(At(st, x)));
      st' := IdleRuns(l, body, env, st1, fuel);
      assert Run(PIncrement(x), env, st, fuel) == Done(st1) && P.SameEffect(st, st1);
      P.SameEffectTrans(st, st1, st');
    case Seq(_, a, b) =>
      var st1 := IdleRuns(l, a, env, st, fuel);
      st' := IdleRuns(l, b, env, st1, fuel);
      P.SameEffectTrans(st, st1, st');
    case _ => st' := st;
  }

  /** So it ends with the same logs, counters and calls whether or not it runs what follows a return. */
  lemma {:induction false} StrongCut(l: Label, s: Stmt<Label>, env: Env, st: Store, st1: Store, fuel: nat) returns (st2: Store)
    requires l > BOTTOM && BottomBehind(s) && Run(Project(l, Cut(s)), env, st, fuel) == Done(st1)
    ensures Run(Project(l, s), env, st, fuel) == Done(st2) && P.SameEffect(st1, st2)
    decreases s, 1
  {
    EndsHasReturn(s);
    if !HasReturn(s) {
      st2 := st1;
    } else {
      match s
      case Let(_, _, x, rhs, body) =>
        if s.l == l {
          var r := RunRhs(StripRhs(rhs), env, st).value;
          st2 := StrongCut(l, body, env, Update(r.0, x, Push(At(r.0, x), r.1)), st1, fuel);
        } else {
          st2 := StrongCut(l, body, env, Update(st, x, Increment(At(st, x))), st1, fuel);
        }
      case If(k, cond, a, b) =>
        if FlowsTo(k, l) {
          st2 := StrongCut(l, if Eval(StripExpr(cond), Gets(env, st)).value != 0 then a else b, env, st, st1, fuel);
        } else {
          st2 := st1;
        }
      case Seq(_, _, _) => st2 := StrongCutSeq(l, s, env, st, st1, fuel);
      case _ => st2 := st1;
    }
  }

  lemma {:induction false} StrongCutSeq(l: Label, s: Stmt<Label>, env: Env, st: Store, st1: Store, fuel: nat) returns (st2: Store)
    requires l > BOTTOM && s.Seq? && BottomBehind(s) && Run(Project(l, Cut(s)), env, st, fuel) == Done(st1)
    ensures Run(Project(l, s), env, st, fuel) == Done(st2) && P.SameEffect(st1, st2)
    decreases s, 0
  {
    var mid := Run(Project(l, Cut(s.first)), env, st, fuel).s;
    EndsHasReturn(s.first);
    if !HasReturn(s.first) {
      st2 := StrongCut(l, s.rest, env, mid, st1, fuel);
    } else {
      var mid' := StrongCut(l, s.first, env, st, mid, fuel);
      if s.rest.Skip? {
        st2 := mid';
      } else {
        st2 := IdleRuns(l, s.rest, env, mid', fuel);
        P.SameEffectTrans(mid, mid', st2);
      }
    }
  }

  lemma BetweenSame(sig: Sig, l: Label, fin: World, start: World, st: Store, st': Store)
    requires Between(sig, l, fin, start, st) && P.SameEffect(st, st')
    ensures Between(sig, l, fin, start, st')
  {
    forall n | sig.loop(n) > l ensures KeepsLoop(st'.loops, fin.loops, n) {
      assert F.SameCount(st, st', n) && KeepsLoop(st.loops, fin.loops, n);
    }
  }

  /** A phase stronger than the weakest one, of a program and of what is left of it. */
  lemma StrongPhase(sig: Sig, env: Env, weakest: Label, l: Label, s: Stmt<Label>, remote: map<Label, seq<Event>>, fin: World, base: Store, fuel: nat)
    returns (st1: Store, st2: Store)
    requires StmtOk(sig, env, {}, TOP, s) && LateOnce(sig, s) && LoopsOnce(sig, weakest, s) && weakest <= l && l > BOTTOM && BottomBehind(s)
    requires Exec(Cut(s), env, Start(remote), fuel) == Done(fin) && Between(sig, l, fin, Start(remote), base)
    ensures Follows(Replay.Phase(sig, env, l, fin, base), fin, st1) && P.SameEffect(st1, st2)
    ensures RunStops(Project(l, s), env, BeginPhase(base), fuel) == Done(st2)
  {
    CutOk(sig, env, {}, TOP, weakest, s);
    st1 := OnePhase(sig, env, weakest, l, Cut(s), remote, fin, base, fuel);
    st2 := StrongCut(l, s, env, BeginPhase(base), st1, fuel);
    OkIsFlows(sig, env, {}, map[], TOP, s);
    if PhaseReturns(Project(l, s)) { ReturnsAtBottom(env, map[], TOP, l, s); }
    NoneAtEnd(Project(l, s));
    StopsIsRun(Project(l, s), env, BeginPhase(base), fuel);
  }

  lemma WeakestPhase(sig: Sig, env: Env, s: Stmt<Label>, remote: map<Label, seq<Event>>, fin: World, base: Store, fuel: nat)
    returns (st: Store)
    requires StmtOk(sig, env, {}, TOP, s) && LateOnce(sig, s) && LoopsOnce(sig, BOTTOM, s) && BottomBehind(s)
    requires Exec(Cut(s), env, Start(remote), fuel) == Done(fin) && Between(sig, BOTTOM, fin, Start(remote), base)
    ensures Follows(Replay.Phase(sig, env, BOTTOM, fin, base), fin, st)
    ensures RunStops(Project(BOTTOM, s), env, BeginPhase(base), fuel) == Done(st)
  {
    CutOk(sig, env, {}, TOP, BOTTOM, s);
    st := OnePhase(sig, env, BOTTOM, BOTTOM, Cut(s), remote, fin, base, fuel);
    CutReturnsLast(s);
    ProjectAtEnd(BOTTOM, Cut(s));
    StopsIsRun(Project(BOTTOM, Cut(s)), env, BeginPhase(base), fuel);
    OkIsFlows(sig, env, {}, map[], TOP, s);
    BottomCut(env, map[], TOP, s, BeginPhase(base), fuel);
  }

  /** The phases from the `i`-th on. */
  lemma {:induction false} StoppingPhases(sig: Sig, env: Env, labels: seq<Label>, i: nat, s: Stmt<Label>, remote: map<Label, seq<Event>>, fin: World, base: Store, fuel: nat)
    returns (st: Store)
    requires Splittable(sig, env, labels, s) && BottomBehind(s) && i < |labels|
    requires Exec(Cut(s), env, Start(remote), fuel) == Done(fin)
    requires RunOnly(sig, labels, Cut(s), Start(remote), fin) && Between(sig, labels[i], fin, Start(remote), base)
    ensures RunPhasesStops(labels[i..], s, env, base, fuel) == Done(st) && SameOutcome(fin, st)
    decreases |labels| - i
  {
    var last := |labels| - 1;
    WeakestIsLast(labels, i);
    assert labels[i..][0] == labels[i] && labels[i..][1..] == labels[i + 1..];
    if labels[i] == BOTTOM {
      st := WeakestPhase(sig, env, s, remote, fin, base, fuel);
      LastPhase(sig, env, labels, Cut(s), Start(remote), fin, base, st);
      assert RunPhasesStops(labels[i + 1..], s, env, st, fuel) == Done(st);
    } else {
      var st1, st2 := StrongPhase(sig, env, labels[last], labels[i], s, remote, fin, base, fuel);
      assert RunPhasesStops(labels[i..], s, env, base, fuel) == RunPhasesStops(labels[i + 1..], s, env, st2, fuel);
      if i == last {
        LastPhase(sig, env, labels, Cut(s), Start(remote), fin, base, st1);
        OutcomeSame(fin, st1, st2);
        st := st2;
      } else {
        NextPhase(sig, env, labels, i, Cut(s), Start(remote), fin, base, st1);
        BetweenSame(sig, labels[i + 1], fin, Start(remote), st1, st2);
        st := StoppingPhases(sig, env, labels, i + 1, s, remote, fin, st2, fuel);
      }
    }
  }

  lemma WeakestIsLast(labels: seq<Label>, i: nat)
    requires Descending(labels) && i < |labels|
    ensures labels[|labels| - 1] <= labels[i] && (labels[i] == BOTTOM ==> i == |labels| - 1)
  {
    if i < |labels| - 1 { assert labels[i] > labels[|labels| - 1]; }
  }

  lemma OutcomeSame(w: World, st: Store, st': Store)
    requires SameOutcome(w, st) && P.SameEffect(st, st')
    ensures SameOutcome(w, st')
  {
  }

  /** Splitting preserves meaning also where something follows a return, if it belongs to the phase that
      returns: that phase stops there, as the program does. */
  lemma StoppingPreservesMeaning(sig: Sig, env: Env, labels: seq<Label>, s: Stmt<Label>, remote: map<Label, seq<Event>>, fuel: nat)
    requires Splittable(sig, env, labels, s) && BottomBehind(s)
    requires ExecStops(s, env, Start(remote), fuel).Done?
    ensures var r := RunPhasesStops(labels, s, env, Launch(remote), fuel);
            r.Done? && SameOutcome(ExecStops(s, env, Start(remote), fuel).s, r.s)
  {
    var fin := ExecStops(s, env, Start(remote), fuel).s;
    var weakest := labels[|labels| - 1];
    CutStops(s, env, Start(remote), fuel);
    CutReturnsLast(s);
    StopsIsExec(Cut(s), env, Start(remote), fuel);
    CutOk(sig, env, {}, TOP, weakest, s);
    CutMentions(s);
    WholeRun(sig, env, labels, Cut(s), remote, fin, fuel);
    LaunchBetween(sig, labels, Cut(s), remote, fin);
    var st := StoppingPhases(sig, env, labels, 0, s, remote, fin, Launch(remote), fuel);
    assert labels[0..] == labels;
  }
}
