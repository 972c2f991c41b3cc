/** A checked program under a labelling that meets its constraints. */
module TypecheckCorrect {
  import opened Labels
  import opened Syntax
  import opened Semantics
  import opened Symbolic
  import opened Typecheck
  import opened Inference
  import F = Flows
  import W = WellLabelled

  /** The checker's view of the variables in scope agrees with the labelling. */
  ghost predicate ScopeOk(env: Env, places: F.Places, scope: Scope, sigma: Assignment) {
    forall x | x in scope ::
      if x in places then Value(sigma, scope[x]) == places[x].level
      else W.IsInput(env, x) && scope[x] == Con(TOP)
  }

  lemma {:induction false} CheckExprFlows(env: Env, places: F.Places, scope: Scope, sigma: Assignment, e: Expr<()>)
    requires ScopeOk(env, places, scope, sigma) && CheckExpr(scope, e).Some?
    ensures var r := CheckExpr(scope, e).value;
            && F.ExprFlows(env, places, InstExpr(sigma, r))
            && W.ExprLabel(InstExpr(sigma, r)) == Value(sigma, ExprLabel(r))
  {
    match e
    case Const(_) =>
    case Var(_) =>
    case Bin(_, _, a, b) =>
      CheckExprFlows(env, places, scope, sigma, a);
      CheckExprFlows(env, places, scope, sigma, b);
      ResolvedMinValue(sigma, ExprLabel(CheckExpr(scope, a).value), ExprLabel(CheckExpr(scope, b).value));
  }

  lemma {:induction false} CheckRefsFlow(env: Env, places: F.Places, scope: Scope, sigma: Assignment, rs: seq<Ref<()>>, k: Label)
    requires ScopeOk(env, places, scope, sigma) && CheckRefs(scope, rs).Some?
    requires forall l | l in RefsOf(CheckRefs(scope, rs).value) :: Value(sigma, l) >= k
    ensures var r := InstRefs(sigma, CheckRefs(scope, rs).value);
            F.RefsFlow(env, places, r) && W.RefsLabel(r) >= k
  {
    if rs != [] {
      var r := CheckRefs(scope, rs).value;
      assert r[1..] == CheckRefs(scope, rs[1..]).value;
      assert RefsOf(r)[0] == r[0].l && RefsOf(r)[1..] == RefsOf(r[1..]);
      CheckRefsFlow(env, places, scope, sigma, rs[1..], k);
      assert InstRefs(sigma, r)[1..] == InstRefs(sigma, r[1..]);
    }
  }

  lemma {:induction false} ArgsMinValue(sigma: Assignment, l: Sym, rs: seq<Ref<Sym>>)
    ensures Value(sigma, ArgsMin(l, rs)) == MinOf(Value(sigma, l), W.RefsLabel(InstRefs(sigma, rs)))
    decreases rs
  {
    if rs != [] {
      ResolvedMinValue(sigma, l, rs[0].l);
      ArgsMinValue(sigma, ResolvedMin(l, rs[0].l), rs[1..]);
      assert InstRefs(sigma, rs)[1..] == InstRefs(sigma, rs[1..]);
    }
  }

  lemma CheckCallFlows(env: Env, places: F.Places, scope: Scope, sigma: Assignment, pc: Sym, c: Invoke<()>)
    requires ScopeOk(env, places, scope, sigma) && CheckCall(scope, c).Some?
    requires SatAll(sigma, CollectCall(CheckCall(scope, c).value))
    ensures var r := CheckCall(scope, c).value;
            && F.CallFlows(env, places, InstCall(sigma, r))
            && Value(sigma, ExecutionLabel(pc, r)) == W.CallLabel(Value(sigma, pc), InstCall(sigma, r))
  {
    var r := CheckCall(scope, c).value;
    var h := Con(c.handleLabel);
    FlowsIn(sigma, CallOf(r), h);
    assert CallOf(r)[0] == r.handle.l && CallOf(r)[1..] == RefsOf(r.args);
    CheckRefsFlow(env, places, scope, sigma, c.args, c.handleLabel);
    ArgsMinValue(sigma, ResolvedMin(h, h), r.args);
    ResolvedMinValue(sigma, h, h);
    ResolvedMinValue(sigma, pc, ArgsMin(ResolvedMin(h, h), r.args));
    ResolvedMinValue(sigma, r.handle.l, ResolvedMin(pc, ArgsMin(ResolvedMin(h, h), r.args)));
  }

  lemma {:induction false} FlowsIn(sigma: Assignment, hs: seq<Sym>, low: Sym)
    requires SatAll(sigma, FlowsFrom(hs, low))
    ensures forall h | h in hs :: Value(sigma, h) >= Value(sigma, low)
  {
    if hs != [] {
      assert Sat(sigma, FlowsFrom(hs, low)[0]);
      FlowsIn(sigma, hs[1..], low);
    }
  }

  lemma CheckRhsFlows(env: Env, places: F.Places, scope: Scope, sigma: Assignment, pc: Sym, rhs: Rhs<()>)
    requires ScopeOk(env, places, scope, sigma) && CheckRhs(scope, pc, rhs).Some?
    requires SatAll(sigma, CollectRhs(CheckRhs(scope, pc, rhs).value))
    ensures var r := CheckRhs(scope, pc, rhs).value;
            && F.RhsFlows(env, places, Value(sigma, pc), InstRhs(sigma, r))
            && W.RhsLabel(InstRhs(sigma, r)) == Value(sigma, RhsLabel(r))
  {
    match rhs
    case Pure(e) => CheckExprFlows(env, places, scope, sigma, e);
    case Remote(_, c) => CheckCallFlows(env, places, scope, sigma, pc, c);
  }

  lemma SatJoin(sigma: Assignment, a: seq<Constraint>, b: seq<Constraint>)
    ensures SatAll(sigma, a + b) <==> SatAll(sigma, a) && SatAll(sigma, b)
  {
    if SatAll(sigma, a + b) {
      forall c | c in a ensures Sat(sigma, c) { assert c in a + b; }
      forall c | c in b ensures Sat(sigma, c) { assert c in a + b; }
    }
  }

  /** A checked program under a labelling that meets its constraints is lexically scoped and labelled
      as its flows demand, whatever names it binds twice and wherever its calls stand. `pc` is the
      context's label as the checker builds it, `qc` as the collector does. */
  lemma {:induction false} CheckFlows(env: Env, places: F.Places, seqnum: int, depth: int, scope: Scope, sigma: Assignment, pc: Sym, qc: Sym, s: Stmt<()>)
    requires ScopeOk(env, places, scope, sigma) && Check(seqnum, depth, scope, pc, s).Some?
    requires Value(sigma, qc) == Value(sigma, pc)
    requires SatAll(sigma, Collect(qc, Check(seqnum, depth, scope, pc, s).value))
    ensures F.StmtFlows(env, places, Value(sigma, pc), Instantiate(sigma, Check(seqnum, depth, scope, pc, s).value))
    decreases s, 1
  {
    var r := Check(seqnum, depth, scope, pc, s).value;
    match s
    case Let(_, _, _, _, _) => CheckLetFlows(env, places, seqnum, depth, scope, sigma, pc, qc, s);
    case Assign(_, target, e) =>
      CheckExprFlows(env, places, scope, sigma, e);
      ResolvedMinValue(sigma, ExprLabel(r.e), r.target.l);
      ResolvedMinValue(sigma, ResolvedMin(ExprLabel(r.e), r.target.l), pc);
      assert Sat(sigma, Collect(qc, r)[0]) && Sat(sigma, Collect(qc, r)[1]);
    case Perform(_, c) => CheckCallFlows(env, places, scope, sigma, pc, c);
    case Return(_, e) => CheckExprFlows(env, places, scope, sigma, e);
    case If(_, _, _, _) => CheckIfFlows(env, places, seqnum, depth, scope, sigma, pc, qc, s);
    case While(_, cond, body, _) =>
      CheckExprFlows(env, places, scope, sigma, cond);
      ResolvedMinValue(sigma, ExprLabel(r.cond), pc);
      ResolvedMinValue(sigma, pc, ExprLabel(r.cond));
      CheckFlows(env, places, seqnum + 1, depth + 1, scope, sigma, ResolvedMin(ExprLabel(r.cond), pc), Min(qc, r.l), body);
    case Skip(_) =>
    case Seq(_, a, b) =>
      SatJoin(sigma, Collect(qc, r.first), Collect(qc, r.rest));
      CheckFlows(env, places, seqnum, depth, scope, sigma, pc, qc, a);
      CheckFlows(env, places, seqnum + 1, depth, scope, sigma, pc, qc, b);
  }

  lemma {:induction false} CheckIfFlows(env: Env, places: F.Places, seqnum: int, depth: int, scope: Scope, sigma: Assignment, pc: Sym, qc: Sym, s: Stmt<()>)
    requires s.If? && ScopeOk(env, places, scope, sigma) && Check(seqnum, depth, scope, pc, s).Some?
    requires Value(sigma, qc) == Value(sigma, pc)
    requires SatAll(sigma, Collect(qc, Check(seqnum, depth, scope, pc, s).value))
    ensures F.StmtFlows(env, places, Value(sigma, pc), Instantiate(sigma, Check(seqnum, depth, scope, pc, s).value))
    decreases s, 0
  {
    var r := Check(seqnum, depth, scope, pc, s).value;
    CheckExprFlows(env, places, scope, sigma, s.cond);
    var inner := ResolvedMin(ExprLabel(r.cond), pc);
    ResolvedMinValue(sigma, ExprLabel(r.cond), pc);
    ResolvedMinValue(sigma, pc, ExprLabel(r.cond));
    SatJoin(sigma, Collect(Min(qc, r.l), r.thn), Collect(Min(qc, r.l), r.els));
    CheckFlows(env, places, seqnum + 1, depth + 1, scope, sigma, inner, Min(qc, r.l), s.thn);
    CheckFlows(env, places, seqnum + 2, depth + 1, scope, sigma, inner, Min(qc, r.l), s.els);
  }

  lemma {:induction false} CheckLetFlows(env: Env, places: F.Places, seqnum: int, depth: int, scope: Scope, sigma: Assignment, pc: Sym, qc: Sym, s: Stmt<()>)
    requires s.Let? && ScopeOk(env, places, scope, sigma) && Check(seqnum, depth, scope, pc, s).Some?
    requires Value(sigma, qc) == Value(sigma, pc)
    requires SatAll(sigma, Collect(qc, Check(seqnum, depth, scope, pc, s).value))
    ensures F.StmtFlows(env, places, Value(sigma, pc), Instantiate(sigma, Check(seqnum, depth, scope, pc, s).value))
    decreases s, 0
  {
    var r := Check(seqnum, depth, scope, pc, s).value;
    var own := [Constraint(RhsLabel(r.rhs), r.bl), Constraint(qc, r.bl)];
    SatJoin(sigma, own + CollectRhs(r.rhs), Collect(qc, r.body));
    SatJoin(sigma, own, CollectRhs(r.rhs));
    assert Sat(sigma, own[0]) && Sat(sigma, own[1]);
    CheckRhsFlows(env, places, scope, sigma, pc, s.rhs);
    ResolvedMinValue(sigma, RhsLabel(r.rhs), pc);
    CheckFlows(env, places[s.x := F.Place(Value(sigma, r.bl), Value(sigma, r.l))], seqnum + 1, depth + 1, scope[s.x := r.bl], sigma, pc, qc, s.body);
  }
}
