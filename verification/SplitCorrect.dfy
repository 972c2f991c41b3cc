/** Splitting preserves meaning: the phases, run strongest first, do what the program does. */
module SplitCorrect {
  import opened Labels
  import opened Syntax
  import opened Semantics
  import opened SplitPhase
  import opened PhaseRun
  import opened WellLabelled
  import opened Replay

  /** More fuel does not change the result of a terminating phase. */
  lemma {:induction false} RunMore(p: PStmt, env: Env, st: Store, f: nat, g: nat)
    requires Run(p, env, st, f).Done? && f <= g
    ensures Run(p, env, st, g) == Run(p, env, st, f)
    decreases f, p, 1, 0
  {
    match p
    case PLet(_, x, rhs, body) =>
      var r := RunRhs(rhs, env, st).value;
      RunMore(body, env, Update(r.0, x, Push(At(r.0, x), r.1)), f, g);
    case PIf(cond, thn, els) =>
      RunMore(if Eval(cond, Gets(env, st)).value != 0 then thn else els, env, st, f, g);
    case PWhile(_, _, name) =>
      RunWhileMore(p, env, st.(loops := st.loops[name := 0]), 0, f, g);
    case PForEach(_, name) =>
      RunTimesMore(p, env, st, st.loops[name], f, g);
    case PSeq(a, b) =>
      RunMore(a, env, st, f, g);
      RunMore(b, env, Run(a, env, st, f).s, f, g);
    case _ =>
  }

  lemma {:induction false} RunWhileMore(p: PStmt, env: Env, st: Store, i: nat, f: nat, g: nat)
    requires p.PWhile? && RunWhile(p, env, st, i, f).Done? && f <= g
    ensures RunWhile(p, env, st, i, g) == RunWhile(p, env, st, i, f)
    decreases f, p, 0, 0
  {
    if Eval(p.cond, Gets(env, st)).value != 0 {
      var st1 := st.(loops := st.loops[p.name := i + 1]);
      RunMore(p.body, env, st1, f - 1, g - 1);
      RunWhileMore(p, env, Run(p.body, env, st1, f - 1).s, i + 1, f - 1, g - 1);
    }
  }

  lemma {:induction false} RunTimesMore(p: PStmt, env: Env, st: Store, n: int, f: nat, g: nat)
    requires p.PForEach? && RunTimes(p, env, st, n, f).Done? && f <= g
    ensures RunTimes(p, env, st, n, g) == RunTimes(p, env, st, n, f)
    decreases f, p, 0, n
  {
    if n > 0 {
      RunMore(p.body, env, st, f, g);
      RunTimesMore(p, env, Run(p.body, env, st, f).s, n - 1, f, g);
    }
  }

  /** What the replay of `s` from `w` to `w'` relies on: the rest of the run only adds to `w'`,
      counters of replayed loops are final, and late variables of `s` are not yet bound. */
  ghost predicate Ready(c: Phase, weakest: Label, scope: set<Name>, pc: Label, s: Stmt<Label>, w: World, w': World) {
    && weakest <= c.l
    && StmtOk(c.sig, c.env, scope, pc, s)
    && LateOnce(c.sig, s) && LoopsOnce(c.sig, weakest, s)
    && OnTheWay(c, scope, w') && OnTheWay(c, scope, w)
    && (forall x | x in Bound(s) && c.sig.late(x) :: Hist(w, x) == [])
    && (forall n | n in Loops(s) && c.sig.loop(n) > c.l :: SameLoop(w'.loops, c.fin.loops, n))
  }

  /** One statement: the phase's projection terminates where the statement does, and follows it. */
  lemma {:induction false} Simulates(c: Phase, weakest: Label, scope: set<Name>, pc: Label, s: Stmt<Label>, w: World, w': World, st: Store, fuel: nat)
    returns (st': Store)
    requires Exec(s, c.env, w, fuel) == Done(w')
    requires Ready(c, weakest, scope, pc, s, w, w') && Follows(c, w, st)
    ensures Run(Project(c.l, s), c.env, st, fuel) == Done(st')
    ensures Follows(c, w', st')
    decreases fuel, s, 5
  {
    match s
    case Let(_, _, _, _, _) => st' := SimulatesLet(c, weakest, scope, pc, s, w, w', st, fuel);
    case Assign(_, _, _) => st' := SimulatesAssign(c, weakest, scope, pc, s, w, w', st, fuel);
    case Perform(_, _) => st' := SimulatesPerform(c, weakest, scope, pc, s, w, w', st, fuel);
    case Return(_, _) => st' := SimulatesReturn(c, weakest, scope, pc, s, w, w', st, fuel);
    case If(_, _, _, _) => st' := SimulatesIf(c, weakest, scope, pc, s, w, w', st, fuel);
    case While(_, _, _, _) => st' := SimulatesWhile(c, weakest, scope, pc, s, w, w', st, fuel);
    case Skip(_) => st' := st;
    case Seq(_, _, _) => st' := SimulatesSeq(c, weakest, scope, pc, s, w, w', st, fuel);
  }

  lemma {:induction false} SimulatesPerform(c: Phase, weakest: Label, scope: set<Name>, pc: Label, s: Stmt<Label>, w: World, w': World, st: Store, fuel: nat)
    returns (st': Store)
    requires s.Perform? && Exec(s, c.env, w, fuel) == Done(w')
    requires Ready(c, weakest, scope, pc, s, w, w') && Follows(c, w, st)
    ensures Run(Project(c.l, s), c.env, st, fuel) == Done(st')
    ensures Follows(c, w', st')
  {
    var ev := EventOf(s.call, Reads(c.env, w)).value;
    if s.l == c.l {
      EventAgrees(c, scope, w, st, pc, s.call);
      OwnCall(c, w, st, ev);
      st' := st.(remote := Send(c.env, st.remote, c.l, ev).0);
    } else {
      ForeignCall(c, w, st, s.l, ev);
      st' := st;
    }
  }

  lemma {:induction false} SimulatesReturn(c: Phase, weakest: Label, scope: set<Name>, pc: Label, s: Stmt<Label>, w: World, w': World, st: Store, fuel: nat)
    returns (st': Store)
    requires s.Return? && Exec(s, c.env, w, fuel) == Done(w')
    requires Ready(c, weakest, scope, pc, s, w, w') && Follows(c, w, st)
    ensures Run(Project(c.l, s), c.env, st, fuel) == Done(st')
    ensures Follows(c, w', st')
  {
    var v := Eval(s.e, Reads(c.env, w));
    Returned(c, w, st, v);
    if s.l == c.l {
      EvalAgrees(c, scope, w, st, s.e);
      st' := st.(ret := v);
    } else {
      st' := st;
    }
  }

  lemma {:induction false} SimulatesAssign(c: Phase, weakest: Label, scope: set<Name>, pc: Label, s: Stmt<Label>, w: World, w': World, st: Store, fuel: nat)
    returns (st': Store)
    requires s.Assign? && Exec(s, c.env, w, fuel) == Done(w')
    requires Ready(c, weakest, scope, pc, s, w, w') && Follows(c, w, st)
    ensures Run(Project(c.l, s), c.env, st, fuel) == Done(st')
    ensures Follows(c, w', st')
  {
    var x, v := s.target.x, Eval(s.e, Reads(c.env, w)).value;
    if s.l == c.l {
      EvalAgrees(c, scope, w, st, s.e);
      OwnWrite(c, w, st, x, v);
      st' := Update(st, x, Push(At(st, x), v));
    } else if FlowsTo(s.l, c.l) {
      StrongerWrite(c, w, st, x, v);
      st' := Update(st, x, Increment(At(st, x)));
    } else {
      WriteChanges(c.sig, scope, s.l, {}, {}, w, x, v);
      Vanish(c, scope, s.l, {}, {}, w, w', st);
      st' := st;
    }
  }

  /** A branching statement too weak to be entered is skipped by the phase. */
  lemma SimulatesNothing(c: Phase, scope: set<Name>, pc: Label, s: Stmt<Label>, w: World, w': World, st: Store, fuel: nat)
    requires (s.If? || s.While?) && s.l < c.l && Exec(s, c.env, w, fuel) == Done(w')
    requires StmtOk(c.sig, c.env, scope, pc, s) && OnTheWay(c, scope, w) && Follows(c, w, st)
    ensures Follows(c, w', st)
  {
    Confined(c.sig, c.env, scope, s.l, s, w, fuel);
    Vanish(c, scope, s.l, Bound(s), Loops(s), w, w', st);
  }

  lemma BranchReady(c: Phase, weakest: Label, scope: set<Name>, pc: Label, s: Stmt<Label>, taken: Stmt<Label>, w: World, w': World)
    requires s.If? && (taken == s.thn || taken == s.els) && Ready(c, weakest, scope, pc, s, w, w')
    ensures Ready(c, weakest, scope, s.l, taken, w, w')
  {
  }

  lemma {:induction false} SimulatesIf(c: Phase, weakest: Label, scope: set<Name>, pc: Label, s: Stmt<Label>, w: World, w': World, st: Store, fuel: nat)
    returns (st': Store)
    requires s.If? && Exec(s, c.env, w, fuel) == Done(w')
    requires Ready(c, weakest, scope, pc, s, w, w') && Follows(c, w, st)
    ensures Run(Project(c.l, s), c.env, st, fuel) == Done(st')
    ensures Follows(c, w', st')
    decreases fuel, s, 1
  {
    if FlowsTo(s.l, c.l) {
      EvalAgrees(c, scope, w, st, s.cond);
      var taken := if Eval(s.cond, Reads(c.env, w)).value != 0 then s.thn else s.els;
      BranchReady(c, weakest, scope, pc, s, taken, w, w');
      st' := Simulates(c, weakest, scope, s.l, taken, w, w', st, fuel);
    } else {
      SimulatesNothing(c, scope, pc, s, w, w', st, fuel);
      st' := st;
    }
  }

  lemma SeqReady(c: Phase, weakest: Label, scope: set<Name>, pc: Label, s: Stmt<Label>, w: World, w1: World, w': World)
    requires s.Seq? && Ready(c, weakest, scope, pc, s, w, w')
    requires Changes(c.sig, scope, pc, Bound(s.first), Loops(s.first), w, w1)
    requires Changes(c.sig, scope, pc, Bound(s.rest), Loops(s.rest), w1, w')
    ensures Ready(c, weakest, scope, pc, s.first, w, w1) && Ready(c, weakest, scope, pc, s.rest, w1, w')
  {
    forall x ensures Hist(w1, x) <= Hist(c.fin, x) {
      assert Hist(w1, x) <= Hist(w', x) <= Hist(c.fin, x);
    }
    forall x | x in scope ensures Hist(w1, x) != [] {
      assert Hist(w, x) <= Hist(w1, x);
    }
    forall x | x in Bound(s.rest) && c.sig.late(x) ensures Hist(w1, x) == [] {
      assert Hist(w, x) == [] && x !in Bound(s.first) && x !in scope;
    }
    forall n | n in Loops(s.first) && c.sig.loop(n) > c.l ensures SameLoop(w1.loops, c.fin.loops, n) {
      assert SameLoop(w1.loops, w'.loops, n);
    }
  }

  lemma {:induction false} SimulatesSeq(c: Phase, weakest: Label, scope: set<Name>, pc: Label, s: Stmt<Label>, w: World, w': World, st: Store, fuel: nat)
    returns (st': Store)
    requires s.Seq? && Exec(s, c.env, w, fuel) == Done(w')
    requires Ready(c, weakest, scope, pc, s, w, w') && Follows(c, w, st)
    ensures Run(Project(c.l, s), c.env, st, fuel) == Done(st')
    ensures Follows(c, w', st')
    decreases fuel, s, 1
  {
    var w1 := Exec(s.first, c.env, w, fuel).s;
    Confined(c.sig, c.env, scope, pc, s.first, w, fuel);
    Confined(c.sig, c.env, scope, pc, s.rest, w1, fuel);
    SeqReady(c, weakest, scope, pc, s, w, w1, w');
    var st1 := Simulates(c, weakest, scope, pc, s.first, w, w1, st, fuel);
    st' := Simulates(c, weakest, scope, pc, s.rest, w1, w', st1, fuel);
    RunThen(Project(c.l, s.first), Project(c.l, s.rest), c.env, st, st1, fuel);
  }

  lemma RunThen(p: PStmt, q: PStmt, env: Env, st: Store, st1: Store, fuel: nat)
    requires Run(p, env, st, fuel) == Done(st1)
    ensures Run(PSeq(p, q), env, st, fuel) == Run(q, env, st1, fuel)
  {
  }

  /** The right-hand side of a binding: evaluated by its own phase, skipped by the others. */
  lemma SimulatesRhs(c: Phase, scope: set<Name>, pc: Label, rhs: Rhs<Label>, w: World, st: Store)
    requires RhsOk(c.sig, c.env, scope, pc, rhs) && ExecRhs(rhs, c.env, w).Some?
    requires Follows(c, w, st) && OnTheWay(c, scope, w)
    ensures MinOf(RhsLabel(rhs), pc) == c.l ==>
              var r, q := ExecRhs(rhs, c.env, w).value, RunRhs(StripRhs(rhs), c.env, st);
              q.Some? && q.value.1 == r.1 && Follows(c, r.0, q.value.0)
    ensures MinOf(RhsLabel(rhs), pc) != c.l ==> Follows(c, ExecRhs(rhs, c.env, w).value.0, st)
  {
    match rhs
    case Pure(e) =>
      if MinOf(RhsLabel(rhs), pc) == c.l {
        EvalAgrees(c, scope, w, st, e);
      }
    case Remote(l, call) =>
      var ev := EventOf(call, Reads(c.env, w)).value;
      assert MinOf(l, pc) == call.handleLabel;
      if call.handleLabel == c.l {
        EventAgrees(c, scope, w, st, pc, call);
        OwnCall(c, w, st, ev);
      } else {
        ForeignCall(c, w, st, call.handleLabel, ev);
      }
  }

  lemma {:induction false} SimulatesLet(c: Phase, weakest: Label, scope: set<Name>, pc: Label, s: Stmt<Label>, w: World, w': World, st: Store, fuel: nat)
    returns (st': Store)
    requires s.Let? && Exec(s, c.env, w, fuel) == Done(w')
    requires Ready(c, weakest, scope, pc, s, w, w') && Follows(c, w, st)
    ensures Run(Project(c.l, s), c.env, st, fuel) == Done(st')
    ensures Follows(c, w', st')
    decreases fuel, s, 1
  {
    var x, r := s.x, ExecRhs(s.rhs, c.env, w).value;
    var w1 := Write(r.0, x, r.1);
    Confined(c.sig, c.env, scope + {x}, pc, s.body, w1, fuel);
    LetReady(c, weakest, scope, pc, s, w, w');
    var st1 := SimulatesBinding(c, weakest, scope, pc, s, w, w', st);
    BindsThen(c, s, st, st1, fuel);
    st' := Simulates(c, weakest, scope + {x}, pc, s.body, w1, w', st1, fuel);
  }

  /** What a phase does at a binding. */
  ghost predicate Binds1(c: Phase, s: Stmt<Label>, st: Store, st1: Store)
    requires s.Let?
  {
    if s.l == c.l then
      var q := RunRhs(StripRhs(s.rhs), c.env, st);
      && q.Some? && InRange(Push(At(q.value.0, s.x), q.value.1))
      && st1 == Update(q.value.0, s.x, Push(At(q.value.0, s.x), q.value.1))
    else st1 == Update(st, s.x, Increment(At(st, s.x)))
  }

  /** Then it goes on with the body, whatever that is. */
  lemma BindsThen(c: Phase, s: Stmt<Label>, st: Store, st1: Store, fuel: nat)
    requires s.Let? && Binds1(c, s, st, st1)
    ensures Run(Project(c.l, s), c.env, st, fuel) == Run(Project(c.l, s.body), c.env, st1, fuel)
  {
  }

  /** The binding part of a `Let`, up to the store the body starts from. */
  lemma SimulatesBinding(c: Phase, weakest: Label, scope: set<Name>, pc: Label, s: Stmt<Label>, w: World, w': World, st: Store)
    returns (st1: Store)
    requires s.Let? && ExecRhs(s.rhs, c.env, w).Some?
    requires Ready(c, weakest, scope, pc, s, w, w') && Follows(c, w, st)
    requires var r := ExecRhs(s.rhs, c.env, w).value; Hist(Write(r.0, s.x, r.1), s.x) <= Hist(w', s.x)
    ensures var r := ExecRhs(s.rhs, c.env, w).value; Follows(c, Write(r.0, s.x, r.1), st1)
    ensures Binds1(c, s, st, st1)
  {
    var x, r := s.x, ExecRhs(s.rhs, c.env, w).value;
    assert Hist(Write(r.0, x, r.1), x) <= Hist(w', x) <= Hist(c.fin, x);
    SimulatesRhs(c, scope, pc, s.rhs, w, st);
    if s.l == c.l {
      st1 := RunRhs(StripRhs(s.rhs), c.env, st).value.0;
      OwnWrite(c, r.0, st1, x, r.1);
      st1 := Update(st1, x, Push(At(st1, x), r.1));
    } else {
      ForeignBinding(c, r.0, st, x, r.1);
      st1 := Update(st, x, Increment(At(st, x)));
    }
  }

  /** A binding of another phase: its entry is there already, or its cursor does not matter yet. */
  lemma ForeignBinding(c: Phase, w: World, st: Store, x: Name, v: int)
    requires Follows(c, w, st) && c.sig.birth(x) != c.l && c.sig.level(x) <= c.sig.birth(x)
    requires Hist(Write(w, x, v), x) <= Hist(c.fin, x) && (c.sig.late(x) ==> Hist(w, x) == [])
    ensures Follows(c, Write(w, x, v), Update(st, x, Increment(At(st, x))))
  {
    if c.sig.birth(x) > c.l {
      StrongerWrite(c, w, st, x, v);
    } else {
      WeakerWrite(c, w, st, x, v);
      WeakerIncrement(c, Write(w, x, v), st, x);
    }
  }

  lemma LetReady(c: Phase, weakest: Label, scope: set<Name>, pc: Label, s: Stmt<Label>, w: World, w': World)
    requires s.Let? && Ready(c, weakest, scope, pc, s, w, w')
    requires ExecRhs(s.rhs, c.env, w).Some?
    requires var r := ExecRhs(s.rhs, c.env, w).value; forall y :: Hist(Write(r.0, s.x, r.1), y) <= Hist(w', y)
    ensures var r := ExecRhs(s.rhs, c.env, w).value;
            Ready(c, weakest, scope + {s.x}, pc, s.body, Write(r.0, s.x, r.1), w')
  {
    var r := ExecRhs(s.rhs, c.env, w).value;
    var w1 := Write(r.0, s.x, r.1);
    forall y ensures Hist(w1, y) <= Hist(c.fin, y) {
      assert Hist(w1, y) <= Hist(w', y) <= Hist(c.fin, y);
    }
    forall y | y != s.x ensures Hist(w1, y) == Hist(w, y) {}
    assert Hist(w1, s.x) <= Hist(w', s.x);
  }

  lemma {:induction false} SimulatesWhile(c: Phase, weakest: Label, scope: set<Name>, pc: Label, s: Stmt<Label>, w: World, w': World, st: Store, fuel: nat)
    returns (st': Store)
    requires s.While? && Exec(s, c.env, w, fuel) == Done(w')
    requires Ready(c, weakest, scope, pc, s, w, w') && Follows(c, w, st)
    ensures Run(Project(c.l, s), c.env, st, fuel) == Done(st')
    ensures Follows(c, w', st')
    decreases fuel, s, 4
  {
    if s.l == c.l {
      st' := SimulatesOwnWhile(c, weakest, scope, pc, s, w, w', st, fuel);
    } else if FlowsTo(s.l, c.l) {
      st' := SimulatesForEach(c, weakest, scope, pc, s, w, w', st, fuel);
    } else {
      SimulatesNothing(c, scope, pc, s, w, w', st, fuel);
      st' := st;
    }
  }

  /** What replaying the rest of a loop relies on. */
  ghost predicate LoopReady(c: Phase, weakest: Label, scope: set<Name>, pc: Label, s: Stmt<Label>, w: World, w': World) {
    && s.While? && weakest <= c.l
    && StmtOk(c.sig, c.env, scope, pc, s)
    && LateOnce(c.sig, s) && LoopsOnce(c.sig, weakest, s)
    && OnTheWay(c, scope, w) && OnTheWay(c, scope, w')
  }

  lemma LoopStarts(c: Phase, weakest: Label, scope: set<Name>, pc: Label, s: Stmt<Label>, w: World, w': World)
    requires s.While? && Ready(c, weakest, scope, pc, s, w, w')
    ensures LoopReady(c, weakest, scope, pc, s, w.(loops := w.loops[s.name := 0]), w')
  {
    forall x ensures Hist(w.(loops := w.loops[s.name := 0]), x) == Hist(w, x) {}
  }

  lemma {:induction false} SimulatesOwnWhile(c: Phase, weakest: Label, scope: set<Name>, pc: Label, s: Stmt<Label>, w: World, w': World, st: Store, fuel: nat)
    returns (st': Store)
    requires s.While? && s.l == c.l && Exec(s, c.env, w, fuel) == Done(w')
    requires Ready(c, weakest, scope, pc, s, w, w') && Follows(c, w, st)
    ensures Run(Project(c.l, s), c.env, st, fuel) == Done(st')
    ensures Follows(c, w', st')
    decreases fuel, s, 3
  {
    LoopStarts(c, weakest, scope, pc, s, w, w');
    CounterSet(c, w, st, s.name, 0);
    st' := SimulatesLoop(c, weakest, scope, pc, s, w.(loops := w.loops[s.name := 0]), w', st.(loops := st.loops[s.name := 0]), 0, fuel);
  }

  lemma {:induction false} SimulatesForEach(c: Phase, weakest: Label, scope: set<Name>, pc: Label, s: Stmt<Label>, w: World, w': World, st: Store, fuel: nat)
    returns (st': Store)
    requires s.While? && s.l > c.l && Exec(s, c.env, w, fuel) == Done(w')
    requires Ready(c, weakest, scope, pc, s, w, w') && Follows(c, w, st)
    ensures Run(Project(c.l, s), c.env, st, fuel) == Done(st')
    ensures Follows(c, w', st')
    decreases fuel, s, 3
  {
    LoopStarts(c, weakest, scope, pc, s, w, w');
    CounterSet(c, w, st, s.name, 0);
    st' := SimulatesTimes(c, weakest, scope, pc, s, w.(loops := w.loops[s.name := 0]), w', st, 0, fuel, fuel);
    assert SameLoop(w'.loops, c.fin.loops, s.name) && KeepsLoop(st.loops, c.fin.loops, s.name);
  }

  lemma WhileRound(p: PStmt, env: Env, st: Store, st2: Store, i: nat, fuel: nat)
    requires p.PWhile? && fuel > 0 && Run(p.body, env, st.(loops := st.loops[p.name := i + 1]), fuel - 1) == Done(st2)
    requires Eval(p.cond, Gets(env, st)).Some? && Eval(p.cond, Gets(env, st)).value != 0
    ensures RunWhile(p, env, st, i, fuel) == RunWhile(p, env, st2, i + 1, fuel - 1)
  {
  }

  lemma TimesRound(p: PStmt, env: Env, st: Store, st2: Store, n: int, fuel: nat)
    requires p.PForEach? && n > 0 && Run(p.body, env, st, fuel) == Done(st2)
    ensures RunTimes(p, env, st, n, fuel) == RunTimes(p, env, st2, n - 1, fuel)
  {
  }

  /** One round of a loop: the body is ready to be replayed, and ends on the way. */
  lemma RoundReady(c: Phase, weakest: Label, scope: set<Name>, pc: Label, s: Stmt<Label>, w: World, w2: World, w': World, i: nat, fuel: nat)
    requires LoopReady(c, weakest, scope, pc, s, w, w') && fuel > 0
    requires Exec(s.body, c.env, w.(loops := w.loops[s.name := i + 1]), fuel - 1) == Done(w2)
    requires Iterate(s, c.env, w2, i + 1, fuel - 1) == Done(w')
    ensures Ready(c, weakest, scope, s.l, s.body, w.(loops := w.loops[s.name := i + 1]), w2)
    ensures s.name !in Loops(s.body) ==> s.name in w2.loops && w2.loops[s.name] == i + 1
  {
    var w1 := w.(loops := w.loops[s.name := i + 1]);
    Confined(c.sig, c.env, scope, s.l, s.body, w1, fuel - 1);
    ConfinedLoop(c.sig, c.env, scope, pc, s, w2, i + 1, fuel - 1);
    forall x ensures Hist(w1, x) == Hist(w, x) && Hist(w2, x) <= Hist(c.fin, x) {
      assert Hist(w2, x) <= Hist(w', x) <= Hist(c.fin, x);
    }
    forall x | x in scope ensures Hist(w2, x) != [] {
      assert Hist(w1, x) <= Hist(w2, x);
    }
    assert SameLoop(w1.loops, w2.loops, s.name) || s.name in Loops(s.body);
  }

  /** One round of a loop, replayed by a phase that enters it. */
  lemma {:induction false} SimulatesRound(c: Phase, weakest: Label, scope: set<Name>, pc: Label, s: Stmt<Label>, w: World, w2: World, w': World, st: Store, i: nat, fuel: nat)
    returns (st2: Store)
    requires LoopReady(c, weakest, scope, pc, s, w, w') && fuel > 0
    requires Exec(s.body, c.env, w.(loops := w.loops[s.name := i + 1]), fuel - 1) == Done(w2)
    requires Iterate(s, c.env, w2, i + 1, fuel - 1) == Done(w')
    requires Follows(c, w.(loops := w.loops[s.name := i + 1]), st)
    ensures Run(Project(c.l, s.body), c.env, st, fuel - 1) == Done(st2)
    ensures Follows(c, w2, st2) && LoopReady(c, weakest, scope, pc, s, w2, w')
    ensures s.name !in Loops(s.body) ==> s.name in w2.loops && w2.loops[s.name] == i + 1
    decreases fuel, s, 0
  {
    RoundReady(c, weakest, scope, pc, s, w, w2, w', i, fuel);
    st2 := Simulates(c, weakest, scope, s.l, s.body, w.(loops := w.loops[s.name := i + 1]), w2, st, fuel - 1);
  }

  lemma ConditionAgrees(c: Phase, weakest: Label, scope: set<Name>, pc: Label, s: Stmt<Label>, w: World, w': World, st: Store)
    requires LoopReady(c, weakest, scope, pc, s, w, w') && s.l == c.l && Follows(c, w, st)
    ensures Eval(StripExpr(s.cond), Gets(c.env, st)) == Eval(s.cond, Reads(c.env, w))
  {
    EvalAgrees(c, scope, w, st, s.cond);
  }

  /** One round of a loop, in its own phase. */
  lemma {:induction false} OwnRound(c: Phase, weakest: Label, scope: set<Name>, pc: Label, s: Stmt<Label>, w: World, w': World, st: Store, i: nat, fuel: nat)
    returns (w2: World, st2: Store)
    requires s.While? && s.l == c.l && Iterate(s, c.env, w, i, fuel) == Done(w') && Eval(s.cond, Reads(c.env, w)).value != 0
    requires LoopReady(c, weakest, scope, pc, s, w, w') && Follows(c, w, st)
    ensures fuel > 0 && Iterate(s, c.env, w2, i + 1, fuel - 1) == Done(w')
    ensures Run(Project(c.l, s.body), c.env, st.(loops := st.loops[s.name := i + 1]), fuel - 1) == Done(st2)
    ensures Follows(c, w2, st2) && LoopReady(c, weakest, scope, pc, s, w2, w')
    decreases fuel, s, 1
  {
    CounterSet(c, w, st, s.name, i + 1);
    w2 := Exec(s.body, c.env, w.(loops := w.loops[s.name := i + 1]), fuel - 1).s;
    st2 := SimulatesRound(c, weakest, scope, pc, s, w, w2, w', st.(loops := st.loops[s.name := i + 1]), i, fuel);
  }

  /** The loop's own phase goes round as often as the unsplit run. */
  lemma {:induction false} SimulatesLoop(c: Phase, weakest: Label, scope: set<Name>, pc: Label, s: Stmt<Label>, w: World, w': World, st: Store, i: nat, fuel: nat)
    returns (st': Store)
    requires s.While? && s.l == c.l && Iterate(s, c.env, w, i, fuel) == Done(w')
    requires LoopReady(c, weakest, scope, pc, s, w, w') && Follows(c, w, st)
    ensures RunWhile(Project(c.l, s), c.env, st, i, fuel) == Done(st')
    ensures Follows(c, w', st')
    decreases fuel, s, 2
  {
    ConditionAgrees(c, weakest, scope, pc, s, w, w', st);
    if Eval(s.cond, Reads(c.env, w)).value == 0 {
      st' := st;
    } else {
      var w2, st2 := OwnRound(c, weakest, scope, pc, s, w, w', st, i, fuel);
      WhileRound(Project(c.l, s), c.env, st, st2, i, fuel);
      st' := SimulatesLoop(c, weakest, scope, pc, s, w2, w', st2, i + 1, fuel - 1);
    }
  }

  /** One round of a loop, in a weaker phase. */
  lemma {:induction false} ReplaysRound(c: Phase, weakest: Label, scope: set<Name>, pc: Label, s: Stmt<Label>, w: World, w': World, st: Store, i: nat, fuel: nat)
    returns (w2: World, st2: Store)
    requires s.While? && s.l > c.l && Iterate(s, c.env, w, i, fuel) == Done(w') && Eval(s.cond, Reads(c.env, w)).value != 0
    requires LoopReady(c, weakest, scope, pc, s, w, w') && Follows(c, w, st)
    ensures fuel > 0 && Iterate(s, c.env, w2, i + 1, fuel - 1) == Done(w')
    ensures Run(Project(c.l, s.body), c.env, st, fuel - 1) == Done(st2)
    ensures Follows(c, w2, st2) && LoopReady(c, weakest, scope, pc, s, w2, w')
    ensures s.name in w2.loops && w2.loops[s.name] == i + 1
    decreases fuel, s, 1
  {
    CounterSet(c, w, st, s.name, i + 1);
    w2 := Exec(s.body, c.env, w.(loops := w.loops[s.name := i + 1]), fuel - 1).s;
    st2 := SimulatesRound(c, weakest, scope, pc, s, w, w2, w', st, i, fuel);
  }

  /** A weaker phase, going round as often as the loop's counter says, follows the same rounds. */
  lemma {:induction false} SimulatesTimes(c: Phase, weakest: Label, scope: set<Name>, pc: Label, s: Stmt<Label>, w: World, w': World, st: Store, i: nat, fuel: nat, g: nat)
    returns (st': Store)
    requires s.While? && s.l > c.l && Iterate(s, c.env, w, i, fuel) == Done(w') && fuel <= g
    requires LoopReady(c, weakest, scope, pc, s, w, w') && Follows(c, w, st)
    requires s.name in w.loops && w.loops[s.name] == i
    ensures s.name in w'.loops && w'.loops[s.name] >= i
    ensures RunTimes(Project(c.l, s), c.env, st, w'.loops[s.name] - i, g) == Done(st')
    ensures Follows(c, w', st')
    decreases fuel, s, 2
  {
    if Eval(s.cond, Reads(c.env, w)).value == 0 {
      st' := st;
    } else {
      var w2, st2 := ReplaysRound(c, weakest, scope, pc, s, w, w', st, i, fuel);
      RunMore(Project(c.l, s.body), c.env, st, fuel - 1, g);
      st' := SimulatesTimes(c, weakest, scope, pc, s, w2, w', st2, i + 1, fuel - 1, g);
      TimesRound(Project(c.l, s), c.env, st, st2, w'.loops[s.name] - i, g);
    }
  }
}
