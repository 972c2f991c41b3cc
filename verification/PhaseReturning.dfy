/** A phase in which nothing follows a return runs to its end. */
module PhaseReturning {
  import opened Labels
  import opened Syntax
  import opened Semantics
  import opened SplitPhase
  import opened PhaseRun
  import opened Returns
  import opened Flows

  predicate PhaseReturns(p: PStmt) {
    match p
    case PLet(_, _, _, body) => PhaseReturns(body)
    case PReturn(_) => true
    case PIf(_, a, b) => PhaseReturns(a) || PhaseReturns(b)
    case PWhile(_, body, _) => PhaseReturns(body)
    case PForEach(body, _) => PhaseReturns(body)
    case PSeq(a, b) => PhaseReturns(a) || PhaseReturns(b)
    case _ => false
  }

  /** Nothing follows a return. */
  predicate ReturnsAtEnd(p: PStmt) {
    match p
    case PLet(_, _, _, body) => ReturnsAtEnd(body)
    case PIf(_, a, b) => ReturnsAtEnd(a) && ReturnsAtEnd(b)
    case PWhile(_, body, _) => !PhaseReturns(body)
    case PForEach(body, _) => !PhaseReturns(body)
    case PSeq(a, b) => ReturnsAtEnd(a) && ReturnsAtEnd(b) && (PhaseReturns(a) ==> b == PSkip)
    case _ => true
  }

  lemma {:induction false} NoneAtEnd(p: PStmt)
    requires !PhaseReturns(p)
    ensures ReturnsAtEnd(p)
  {
    match p
    case PLet(_, _, _, body) => NoneAtEnd(body);
    case PIf(_, a, b) =>
      NoneAtEnd(a);
      NoneAtEnd(b);
    case PSeq(a, b) =>
      NoneAtEnd(a);
      NoneAtEnd(b);
    case _ =>
  }

  lemma {:induction false} RunKeepsRet(p: PStmt, env: Env, st: Store, st': Store, fuel: nat)
    requires !PhaseReturns(p) && Run(p, env, st, fuel) == Done(st')
    ensures st'.ret == st.ret
    decreases fuel, p, 1, 0
  {
    match p
    case PLet(_, x, rhs, body) =>
      var r := RunRhs(rhs, env, st).value;
      RunKeepsRet(body, env, Update(r.0, x, Push(At(r.0, x), r.1)), st', fuel);
    case PIf(cond, a, b) => RunKeepsRet(if Eval(cond, Gets(env, st)).value != 0 then a else b, env, st, st', fuel);
    case PWhile(_, _, n) => WhileKeepsRet(p, env, st.(loops := st.loops[n := 0]), st', 0, fuel);
    case PForEach(_, n) => TimesKeepsRet(p, env, st, st', st.loops[n], fuel);
    case PSeq(a, b) =>
      var mid := Run(a, env, st, fuel).s;
      RunKeepsRet(a, env, st, mid, fuel);
      RunKeepsRet(b, env, mid, st', fuel);
    case _ =>
  }

  lemma {:induction false} WhileKeepsRet(p: PStmt, env: Env, st: Store, st': Store, i: nat, fuel: nat)
    requires p.PWhile? && !PhaseReturns(p) && RunWhile(p, env, st, i, fuel) == Done(st')
    ensures st'.ret == st.ret
    decreases fuel, p, 0, 0
  {
    if Eval(p.cond, Gets(env, st)).value != 0 {
      var st1 := st.(loops := st.loops[p.name := i + 1]);
      var mid := Run(p.body, env, st1, fuel - 1).s;
      RunKeepsRet(p.body, env, st1, mid, fuel - 1);
      WhileKeepsRet(p, env, mid, st', i + 1, fuel - 1);
    }
  }

  lemma {:induction false} TimesKeepsRet(p: PStmt, env: Env, st: Store, st': Store, n: int, fuel: nat)
    requires p.PForEach? && !PhaseReturns(p) && RunTimes(p, env, st, n, fuel) == Done(st')
    ensures st'.ret == st.ret
    decreases fuel, p, 0, n
  {
    if n > 0 {
      var mid := Run(p.body, env, st, fuel).s;
      RunKeepsRet(p.body, env, st, mid, fuel);
      TimesKeepsRet(p, env, mid, st', n - 1, fuel);
    }
  }

  /** Where nothing follows a return, it does not matter to a phase that returning ends it. */
  lemma {:induction false} StopsIsRun(p: PStmt, env: Env, st: Store, fuel: nat)
    requires ReturnsAtEnd(p) && st.ret.None?
    ensures RunStops(p, env, st, fuel) == Run(p, env, st, fuel)
    decreases fuel, p, 1, 0
  {
    match p
    case PLet(_, x, rhs, body) =>
      var r := RunRhs(rhs, env, st);
      if r.Some? {
        var h := Push(At(r.value.0, x), r.value.1);
        if InRange(h) { StopsIsRun(body, env, Update(r.value.0, x, h), fuel); }
      }
    case PIf(_, a, b) =>
      StopsIsRun(a, env, st, fuel);
      StopsIsRun(b, env, st, fuel);
    case PWhile(_, _, n) => WhileStopsIsRun(p, env, st.(loops := st.loops[n := 0]), 0, fuel);
    case PForEach(_, n) =>
      if n in st.loops { TimesStopsIsRun(p, env, st, st.loops[n], fuel); }
    case PSeq(a, b) =>
      StopsIsRun(a, env, st, fuel);
      var r := Run(a, env, st, fuel);
      if r.Done? && b != PSkip { RunKeepsRet(a, env, st, r.s, fuel); }
      if r.Done? && r.s.ret.None? { StopsIsRun(b, env, r.s, fuel); }
    case _ =>
  }

  lemma {:induction false} WhileStopsIsRun(p: PStmt, env: Env, st: Store, i: nat, fuel: nat)
    requires p.PWhile? && ReturnsAtEnd(p) && st.ret.None?
    ensures RunWhileStops(p, env, st, i, fuel) == RunWhile(p, env, st, i, fuel)
    decreases fuel, p, 0, 0
  {
    var c := Eval(p.cond, Gets(env, st));
    if c.Some? && c.value != 0 && fuel > 0 {
      NoneAtEnd(p.body);
      var st1 := st.(loops := st.loops[p.name := i + 1]);
      StopsIsRun(p.body, env, st1, fuel - 1);
      var r := Run(p.body, env, st1, fuel - 1);
      if r.Done? {
        RunKeepsRet(p.body, env, st1, r.s, fuel - 1);
        WhileStopsIsRun(p, env, r.s, i + 1, fuel - 1);
      }
    }
  }

  lemma {:induction false} TimesStopsIsRun(p: PStmt, env: Env, st: Store, n: int, fuel: nat)
    requires p.PForEach? && ReturnsAtEnd(p) && st.ret.None?
    ensures RunTimesStops(p, env, st, n, fuel) == RunTimes(p, env, st, n, fuel)
    decreases fuel, p, 0, n
  {
    if n > 0 {
      NoneAtEnd(p.body);
      StopsIsRun(p.body, env, st, fuel);
      var r := Run(p.body, env, st, fuel);
      if r.Done? {
        RunKeepsRet(p.body, env, st, r.s, fuel);
        TimesStopsIsRun(p, env, r.s, n - 1, fuel);
      }
    }
  }

  // --- projections ---

  lemma {:induction false} ProjectReturns(l: Label, s: Stmt<Label>)
    ensures PhaseReturns(Project(l, s)) ==> HasReturn(s)
  {
    match s
    case Let(_, _, x, _, body) =>
      ProjectReturns(l, body);
      assert !PhaseReturns(PIncrement(x));
    case If(_, _, a, b) =>
      ProjectReturns(l, a);
      ProjectReturns(l, b);
    case While(_, _, body, _) => ProjectReturns(l, body);
    case Seq(_, a, b) =>
      ProjectReturns(l, a);
      ProjectReturns(l, b);
    case _ =>
  }

  /** If nothing follows a return in a program, nothing does in its phases. */
  lemma {:induction false} ProjectAtEnd(l: Label, s: Stmt<Label>)
    requires ReturnsLast(s)
    ensures ReturnsAtEnd(Project(l, s))
  {
    match s
    case Let(_, _, x, _, body) =>
      ProjectAtEnd(l, body);
      assert ReturnsAtEnd(PIncrement(x)) && !PhaseReturns(PIncrement(x));
    case If(_, _, a, b) =>
      ProjectAtEnd(l, a);
      ProjectAtEnd(l, b);
    case While(_, _, body, _) => ProjectReturns(l, body);
    case Seq(_, a, b) =>
      ProjectAtEnd(l, a);
      ProjectAtEnd(l, b);
      ProjectReturns(l, a);
    case _ =>
  }

  /** Only the phase of `bottom` returns. */
  lemma {:induction false} ReturnsAtBottom(env: Env, scope: Places, pc: Label, l: Label, s: Stmt<Label>)
    requires StmtFlows(env, scope, pc, s) && PhaseReturns(Project(l, s))
    ensures l == BOTTOM
    decreases s
  {
    match s
    case Let(k, bl, x, _, body) => ReturnsAtBottom(env, scope[x := Place(bl, k)], pc, l, body);
    case If(k, _, a, b) =>
      if PhaseReturns(Project(l, a)) { ReturnsAtBottom(env, scope, k, l, a); } else { ReturnsAtBottom(env, scope, k, l, b); }
    case While(k, _, body, _) => ReturnsAtBottom(env, scope, k, l, body);
    case Seq(_, a, b) =>
      if PhaseReturns(Project(l, a)) { ReturnsAtBottom(env, scope, pc, l, a); } else { ReturnsAtBottom(env, scope, pc, l, b); }
    case _ =>
  }

  /** The phases of a program in which nothing follows a return, run to their ends or up to their
      returns: only the last one has any. */
  lemma {:induction false} PhasesStopIsRun(labels: seq<Label>, env: Env, s: Stmt<Label>, st: Store, fuel: nat)
    requires StmtFlows(env, map[], TOP, s) && ReturnsLast(s) && st.ret.None?
    requires forall i, j | 0 <= i < j < |labels| :: labels[i] > labels[j]
    ensures RunPhasesStops(labels, s, env, st, fuel) == RunPhases(labels, s, env, st, fuel)
    decreases labels
  {
    if labels != [] {
      var p := Project(labels[0], s);
      ProjectAtEnd(labels[0], s);
      StopsIsRun(p, env, BeginPhase(st), fuel);
      var r := Run(p, env, BeginPhase(st), fuel);
      if r.Done? && labels[1..] != [] {
        if PhaseReturns(p) { ReturnsAtBottom(env, map[], TOP, labels[0], s); }
        assert labels[0] > labels[1];
        RunKeepsRet(p, env, BeginPhase(st), r.s, fuel);
        PhasesStopIsRun(labels[1..], env, s, r.s, fuel);
      }
    }
  }
}
