/** The front end as a whole: checking and inference hand the splitter what it needs. */
module Compile {
  import opened Labels
  import opened Syntax
  import opened Semantics
  import opened Symbolic
  import opened Typecheck
  import opened Inference
  import opened InferenceCorrect
  import opened TypecheckCorrect
  import F = Flows
  import Solver
  import W = WellLabelled

  /** At the outermost level only the arguments and the boolean constants are in scope. */
  function RootScope(env: Env): Scope {
    map x | x in env.inputs.Keys + {True, False} :: Con(TOP)
  }

  /** A label built from bindings of the program and labels of the context. */
  ghost predicate Proper(k: Sym, bound: set<Sym>, outer: set<TempId>) {
    Reduced(k) && Absorbed(k) && forall t | t in Temps(k) :: Temp(t) in bound || t in outer
  }

  ghost predicate AllProper(ks: seq<Sym>, bound: set<Sym>, outer: set<TempId>) {
    forall k | k in ks :: Proper(k, bound, outer)
  }

  ghost predicate ScopeProper(scope: Scope, outer: set<TempId>) {
    forall x | x in scope :: !scope[x].Min? && Temps(scope[x]) <= outer
  }

  lemma ResolvedMinProper(a: Sym, b: Sym, bound: set<Sym>, outer: set<TempId>)
    requires Proper(a, bound, outer) && Proper(b, bound, outer)
    ensures Proper(ResolvedMin(a, b), bound, outer)
  {
  }

  lemma ProperWiden(ks: seq<Sym>, bound: set<Sym>, outer: set<TempId>, bound': set<Sym>, outer': set<TempId>)
    requires AllProper(ks, bound, outer) && bound <= bound'
    requires forall t | t in outer :: t in outer' || Temp(t) in bound'
    ensures AllProper(ks, bound', outer')
  {
    forall k | k in ks ensures Proper(k, bound', outer') {
      assert Proper(k, bound, outer);
    }
  }

  lemma {:induction false} CheckExprProper(scope: Scope, e: Expr<()>, outer: set<TempId>)
    requires ScopeProper(scope, outer) && CheckExpr(scope, e).Some?
    ensures var r := CheckExpr(scope, e).value; AllProper(ExprOf(r), {}, outer) && Proper(ExprLabel(r), {}, outer)
  {
    match e
    case Const(_) =>
    case Var(_) =>
    case Bin(_, _, a, b) =>
      CheckExprProper(scope, a, outer);
      CheckExprProper(scope, b, outer);
      ResolvedMinProper(ExprLabel(CheckExpr(scope, a).value), ExprLabel(CheckExpr(scope, b).value), {}, outer);
  }

  lemma {:induction false} CheckRefsProper(scope: Scope, rs: seq<Ref<()>>, outer: set<TempId>)
    requires ScopeProper(scope, outer) && CheckRefs(scope, rs).Some?
    ensures AllProper(RefsOf(CheckRefs(scope, rs).value), {}, outer)
  {
    if rs != [] {
      CheckRefsProper(scope, rs[1..], outer);
      assert CheckRefs(scope, rs).value[1..] == CheckRefs(scope, rs[1..]).value;
    }
  }

  lemma {:induction false} ArgsMinProper(l: Sym, rs: seq<Ref<Sym>>, outer: set<TempId>)
    requires Proper(l, {}, outer) && AllProper(RefsOf(rs), {}, outer)
    ensures Proper(ArgsMin(l, rs), {}, outer)
    decreases rs
  {
    if rs != [] {
      assert RefsOf(rs)[0] == rs[0].l && RefsOf(rs)[1..] == RefsOf(rs[1..]);
      ResolvedMinProper(l, rs[0].l, {}, outer);
      ArgsMinProper(ResolvedMin(l, rs[0].l), rs[1..], outer);
    }
  }

  lemma CheckCallProper(scope: Scope, pc: Sym, c: Invoke<()>, outer: set<TempId>)
    requires ScopeProper(scope, outer) && Proper(pc, {}, outer) && CheckCall(scope, c).Some?
    ensures var r := CheckCall(scope, c).value; AllProper(CallOf(r), {}, outer) && Proper(ExecutionLabel(pc, r), {}, outer)
  {
    var r := CheckCall(scope, c).value;
    var h := Con(c.handleLabel);
    CheckRefsProper(scope, c.args, outer);
    ArgsMinProper(ResolvedMin(h, h), r.args, outer);
    ResolvedMinProper(pc, ArgsMin(ResolvedMin(h, h), r.args), {}, outer);
    ResolvedMinProper(r.handle.l, ResolvedMin(pc, ArgsMin(ResolvedMin(h, h), r.args)), {}, outer);
  }

  lemma CheckRhsProper(scope: Scope, pc: Sym, rhs: Rhs<()>, outer: set<TempId>)
    requires ScopeProper(scope, outer) && Proper(pc, {}, outer) && CheckRhs(scope, pc, rhs).Some?
    ensures var r := CheckRhs(scope, pc, rhs).value; AllProper(RhsOf(r), {}, outer) && Proper(RhsLabel(r), {}, outer)
  {
    match rhs
    case Pure(e) => CheckExprProper(scope, e, outer);
    case Remote(_, c) => CheckCallProper(scope, pc, c, outer);
  }

  lemma {:induction false} CheckProper(seqnum: int, depth: int, scope: Scope, pc: Sym, s: Stmt<()>, outer: set<TempId>)
    requires ScopeProper(scope, outer) && Proper(pc, {}, outer) && Check(seqnum, depth, scope, pc, s).Some?
    ensures var r := Check(seqnum, depth, scope, pc, s).value; AllProper(LabelsOf(r), BoundLabels(r), outer)
    decreases s, 1
  {
    var r := Check(seqnum, depth, scope, pc, s).value;
    match s
    case Let(_, _, _, _, _) => CheckLetProper(seqnum, depth, scope, pc, s, outer);
    case Assign(_, _, e) =>
      CheckExprProper(scope, e, outer);
      ResolvedMinProper(ExprLabel(r.e), r.target.l, {}, outer);
      ResolvedMinProper(ResolvedMin(ExprLabel(r.e), r.target.l), pc, {}, outer);
    case Perform(_, c) => CheckCallProper(scope, pc, c, outer);
    case Return(_, e) => CheckExprProper(scope, e, outer);
    case If(_, cond, a, b) =>
      CheckExprProper(scope, cond, outer);
      ResolvedMinProper(ExprLabel(r.cond), pc, {}, outer);
      ResolvedMinProper(pc, ExprLabel(r.cond), {}, outer);
      CheckProper(seqnum + 1, depth + 1, scope, ResolvedMin(ExprLabel(r.cond), pc), a, outer);
      CheckProper(seqnum + 2, depth + 1, scope, ResolvedMin(ExprLabel(r.cond), pc), b, outer);
      ProperWiden(LabelsOf(r.thn), BoundLabels(r.thn), outer, BoundLabels(r), outer);
      ProperWiden(LabelsOf(r.els), BoundLabels(r.els), outer, BoundLabels(r), outer);
      ProperWiden([r.l] + ExprOf(r.cond), {}, outer, BoundLabels(r), outer);
    case While(_, cond, body, _) =>
      CheckExprProper(scope, cond, outer);
      ResolvedMinProper(ExprLabel(r.cond), pc, {}, outer);
      ResolvedMinProper(pc, ExprLabel(r.cond), {}, outer);
      CheckProper(seqnum + 1, depth + 1, scope, ResolvedMin(ExprLabel(r.cond), pc), body, outer);
      ProperWiden([r.l] + ExprOf(r.cond), {}, outer, BoundLabels(r), outer);
    case Skip(_) =>
    case Seq(_, a, b) =>
      CheckProper(seqnum, depth, scope, pc, a, outer);
      CheckProper(seqnum + 1, depth, scope, pc, b, outer);
      ProperWiden(LabelsOf(r.first), BoundLabels(r.first), outer, BoundLabels(r), outer);
      ProperWiden(LabelsOf(r.rest), BoundLabels(r.rest), outer, BoundLabels(r), outer);
      ProperWiden([r.l], {}, outer, BoundLabels(r), outer);
  }

  lemma {:induction false} CheckLetProper(seqnum: int, depth: int, scope: Scope, pc: Sym, s: Stmt<()>, outer: set<TempId>)
    requires s.Let? && ScopeProper(scope, outer) && Proper(pc, {}, outer) && Check(seqnum, depth, scope, pc, s).Some?
    ensures var r := Check(seqnum, depth, scope, pc, s).value; AllProper(LabelsOf(r), BoundLabels(r), outer)
    decreases s, 0
  {
    var r := Check(seqnum, depth, scope, pc, s).value;
    var t := TempId(seqnum, depth);
    CheckRhsProper(scope, pc, s.rhs, outer);
    ResolvedMinProper(RhsLabel(r.rhs), pc, {}, outer);
    ProperWiden([pc], {}, outer, {}, outer + {t});
    CheckProper(seqnum + 1, depth + 1, scope[s.x := r.bl], pc, s.body, outer + {t});
    ProperWiden(LabelsOf(r.body), BoundLabels(r.body), outer + {t}, BoundLabels(r), outer);
    ProperWiden([r.l] + RhsOf(r.rhs), {}, outer, BoundLabels(r), outer);
  }

  /** No constraint of a checked program targets a minimum. */
  lemma {:induction false} CheckTargets(seqnum: int, depth: int, scope: Scope, pc: Sym, qc: Sym, s: Stmt<()>, outer: set<TempId>)
    requires ScopeProper(scope, outer) && Check(seqnum, depth, scope, pc, s).Some?
    ensures forall c | c in Collect(qc, Check(seqnum, depth, scope, pc, s).value) :: !c.low.Min?
    decreases s
  {
    var r := Check(seqnum, depth, scope, pc, s).value;
    match s
    case Let(_, _, x, _, body) =>
      RhsLabelIn(r.rhs);
      CheckTargets(seqnum + 1, depth + 1, scope[x := r.bl], pc, qc, body, outer + {TempId(seqnum, depth)});
    case Perform(_, _) => FlowsFromIs(CallOf(r.call), Con(r.call.handleLabel));
    case If(_, cond, a, b) =>
      var inner := ResolvedMin(ExprLabel(r.cond), pc);
      CheckTargets(seqnum + 1, depth + 1, scope, inner, Min(qc, r.l), a, outer);
      CheckTargets(seqnum + 2, depth + 1, scope, inner, Min(qc, r.l), b, outer);
    case While(_, _, body, _) =>
      CheckTargets(seqnum + 1, depth + 1, scope, ResolvedMin(ExprLabel(r.cond), pc), Min(qc, r.l), body, outer);
    case Seq(_, a, b) =>
      CheckTargets(seqnum, depth, scope, pc, qc, a, outer);
      CheckTargets(seqnum + 1, depth, scope, pc, qc, b, outer);
    case _ =>
  }

  /** In the outermost scope everything readable is labelled `top`. */
  lemma {:induction false} RootExprTop(env: Env, e: Expr<()>)
    requires CheckExpr(RootScope(env), e).Some?
    ensures Con(TOP) in ExprOf(CheckExpr(RootScope(env), e).value)
  {
    match e
    case Bin(_, _, a, _) => RootExprTop(env, a);
    case _ =>
  }

  lemma RootTop(env: Env, s: Stmt<()>)
    requires Check(1, 1, RootScope(env), Con(TOP), s).Some?
    ensures TOP in AllConcretes(LabelsOf(Check(1, 1, RootScope(env), Con(TOP), s).value))
  {
    var r := Check(1, 1, RootScope(env), Con(TOP), s).value;
    match s {
      case Let(_, _, _, rhs, _) => if rhs.Pure? { RootExprTop(env, rhs.e); }
      case Return(_, e) => RootExprTop(env, e);
      case If(_, cond, _, _) => RootExprTop(env, cond);
      case While(_, cond, _, _) => RootExprTop(env, cond);
      case _ =>
    }
    assert Con(TOP) in LabelsOf(r);
    assert TOP in Concretes(Con(TOP));
  }

  /** The known labels of a checked program, weakest first. */
  ghost predicate KnownLabels(labels: seq<Label>, s: Stmt<Sym>) {
    Solver.Ascending(labels) && (set k | k in labels) == AllConcretes(LabelsOf(s))
  }

  /** Checking prepares a program for inference. */
  lemma CheckedProgram(env: Env, labels: seq<Label>, s: Stmt<()>)
    requires Check(1, 1, RootScope(env), Con(TOP), s).Some?
    requires KnownLabels(labels, Check(1, 1, RootScope(env), Con(TOP), s).value)
    ensures var r := Check(1, 1, RootScope(env), Con(TOP), s).value; Checked(labels, r) && PlainTargets(r)
    ensures forall k | k in LabelsOf(Check(1, 1, RootScope(env), Con(TOP), s).value) :: Absorbed(k)
  {
    var r := Check(1, 1, RootScope(env), Con(TOP), s).value;
    CheckProper(1, 1, RootScope(env), Con(TOP), s, {});
    CheckTargets(1, 1, RootScope(env), Con(TOP), Con(TOP), s, {});
    RootTop(env, s);
    assert forall k | k in AllConcretes(LabelsOf(r)) :: k in (set j | j in labels);
  }

  /** The labelled program the front end produces: checked, then inferred. */
  function FrontEnd(env: Env, labels: seq<Label>, s: Stmt<()>): Option<Stmt<Label>> {
    var c := Check(1, 1, RootScope(env), Con(TOP), s);
    if c.None? then None
    else
      var i := InferLabels(labels, c.value);
      if i.None? then None else Some(Instantiate(t => TOP, i.value))
  }

  lemma FrontEndIs(env: Env, labels: seq<Label>, s: Stmt<()>, c: Stmt<Sym>, q: Stmt<Label>)
    requires Check(1, 1, RootScope(env), Con(TOP), s) == Some(c) && InferLabels(labels, c).Some?
    requires forall any: Assignment :: Instantiate(any, InferLabels(labels, c).value) == q
    ensures FrontEnd(env, labels, s) == Some(q)
  {
  }

  /** Whatever the front end accepts is lexically scoped and labelled as its flows demand. */
  lemma FrontEndFlows(env: Env, labels: seq<Label>, s: Stmt<()>)
    requires Check(1, 1, RootScope(env), Con(TOP), s).Some?
    requires KnownLabels(labels, Check(1, 1, RootScope(env), Con(TOP), s).value)
    requires FrontEnd(env, labels, s).Some?
    ensures F.StmtFlows(env, map[], TOP, FrontEnd(env, labels, s).value)
  {
    var c := Check(1, 1, RootScope(env), Con(TOP), s).value;
    CheckedProgram(env, labels, s);
    InferenceIsGreatest(labels, c);
    var sigma := Solution(labels, c);
    var any: Assignment := t => TOP;
    assert Instantiate(any, InferLabels(labels, c).value) == Instantiate(sigma, c);
    assert FrontEnd(env, labels, s).value == Instantiate(sigma, c);
    CheckFlows(env, map[], 1, 1, RootScope(env), sigma, Con(TOP), Con(TOP), s);
  }

  /** It is well labelled, if one signature describes it and its calls stand in contexts that may
      influence their objects. */
  lemma FrontEndIsWellLabelled(sig: W.Sig, env: Env, labels: seq<Label>, s: Stmt<()>)
    requires Check(1, 1, RootScope(env), Con(TOP), s).Some?
    requires KnownLabels(labels, Check(1, 1, RootScope(env), Con(TOP), s).value)
    requires FrontEnd(env, labels, s).Some?
    requires F.Described(sig, env, FrontEnd(env, labels, s).value) && F.CallsPermitted(TOP, FrontEnd(env, labels, s).value)
    ensures W.StmtOk(sig, env, {}, TOP, FrontEnd(env, labels, s).value)
  {
    FrontEndFlows(env, labels, s);
    F.FlowsIsOk(sig, env, {}, map[], TOP, FrontEnd(env, labels, s).value);
  }
}
