/** What the splitter's assertions say of the phase it makes: they hold exactly if the phase can run with
    what is at hand. */
module SplitterExact {
  import opened Labels
  import opened Syntax
  import opened SplitPhase
  import opened Frame
  import opened Prune
  import S = Splitter

  function RefsOf(rs: seq<Ref<Label>>): set<Ref<Label>> {
    if rs == [] then {} else {rs[0]} + RefsOf(rs[1..])
  }

  function ExprRefs(e: Expr<Label>): set<Ref<Label>> {
    match e
    case Const(_) => {}
    case Var(r) => {r}
    case Bin(_, _, a, b) => ExprRefs(a) + ExprRefs(b)
  }

  function CallRefs(c: Invoke<Label>): set<Ref<Label>> {
    {c.handle} + RefsOf(c.args)
  }

  function RhsRefs(r: Rhs<Label>): set<Ref<Label>> {
    match r
    case Pure(e) => ExprRefs(e)
    case Remote(_, c) => CallRefs(c)
  }

  /** The references in the statements that the phase of `l` runs. */
  function PhaseRefs(l: Label, s: Stmt<Label>): set<Ref<Label>> {
    match s
    case Let(sl, _, _, rhs, body) => (if sl == l then RhsRefs(rhs) else {}) + PhaseRefs(l, body)
    case Assign(sl, r, e) => if sl == l then {r} + ExprRefs(e) else {}
    case Perform(sl, c) => if sl == l then CallRefs(c) else {}
    case Return(sl, e) => if sl == l then ExprRefs(e) else {}
    case If(sl, cond, a, b) => if FlowsTo(sl, l) then ExprRefs(cond) + PhaseRefs(l, a) + PhaseRefs(l, b) else {}
    case While(sl, cond, body, _) =>
      if sl == l then ExprRefs(cond) + PhaseRefs(l, body) else if FlowsTo(sl, l) then PhaseRefs(l, body) else {}
    case Skip(_) => {}
    case Seq(_, a, b) => PhaseRefs(l, a) + PhaseRefs(l, b)
  }

  /** The labels of the variables the phase binds. */
  function PhaseBinds(l: Label, s: Stmt<Label>): set<Label> {
    match s
    case Let(sl, bl, _, _, body) => (if sl == l then {bl} else {}) + PhaseBinds(l, body)
    case If(sl, _, a, b) => if FlowsTo(sl, l) then PhaseBinds(l, a) + PhaseBinds(l, b) else {}
    case While(sl, _, body, _) => if FlowsTo(sl, l) then PhaseBinds(l, body) else {}
    case Seq(_, a, b) => PhaseBinds(l, a) + PhaseBinds(l, b)
    case _ => {}
  }

  /** Every variable but the boolean constants is stronger than the phase or its equal. */
  ghost predicate AllFlow(l: Label, rs: set<Ref<Label>>) {
    forall r | r in rs :: r.x in BUILTINS || FlowsTo(r.l, l)
  }

  ghost predicate BindsFlow(l: Label, bs: set<Label>) {
    forall b | b in bs :: FlowsTo(l, b)
  }

  lemma FlowsJoin(l: Label, a: set<Ref<Label>>, b: set<Ref<Label>>)
    ensures AllFlow(l, a + b) <==> AllFlow(l, a) && AllFlow(l, b)
  {
    forall r | AllFlow(l, a + b) && (r in a || r in b) ensures r.x in BUILTINS || FlowsTo(r.l, l) { assert r in a + b; }
  }

  lemma BindsJoin(l: Label, a: set<Label>, b: set<Label>)
    ensures BindsFlow(l, a + b) <==> BindsFlow(l, a) && BindsFlow(l, b)
  {
    forall k | BindsFlow(l, a + b) && (k in a || k in b) ensures FlowsTo(l, k) { assert k in a + b; }
  }

  /** What is at hand, besides what the phase has bound around the statement, suffices. */
  predicate Suffices(api: S.Api, needs: set<Name>) {
    needs - api.provided - BUILTINS <= api.inherits
  }

  lemma {:induction false} ExprExact(l: Label, api: S.Api, e: Expr<Label>)
    ensures S.ExprAccepted(l, api, e) <==> AllFlow(l, ExprRefs(e)) && Suffices(api, Names(StripExpr(e)))
  {
    match e
    case Const(_) =>
    case Var(r) =>
      assert AllFlow(l, {r}) <==> r.x in BUILTINS || FlowsTo(r.l, l);
      assert Suffices(api, {r.x}) <==> S.Present(api, r.x);
    case Bin(_, _, a, b) =>
      ExprExact(l, api, a);
      ExprExact(l, api, b);
      FlowsJoin(l, ExprRefs(a), ExprRefs(b));
      SufficesJoin(api, Names(StripExpr(a)), Names(StripExpr(b)));
  }

  lemma SufficesJoin(api: S.Api, a: set<Name>, b: set<Name>)
    ensures Suffices(api, a + b) <==> Suffices(api, a) && Suffices(api, b)
  {
  }

  lemma RefExact(l: Label, api: S.Api, r: Ref<Label>)
    ensures S.RefAccepted(l, api, r) <==> AllFlow(l, {r}) && Suffices(api, {r.x})
  {
    assert AllFlow(l, {r}) <==> r.x in BUILTINS || FlowsTo(r.l, l);
    assert Suffices(api, {r.x}) <==> S.Present(api, r.x);
  }

  lemma {:induction false} RefsExact(l: Label, api: S.Api, rs: seq<Ref<Label>>)
    ensures S.RefsAccepted(l, api, rs) <==> AllFlow(l, RefsOf(rs)) && Suffices(api, RefNames(StripRefs(rs)))
  {
    if rs != [] {
      RefExact(l, api, rs[0]);
      RefsExact(l, api, rs[1..]);
      FlowsJoin(l, {rs[0]}, RefsOf(rs[1..]));
      assert StripRefs(rs)[1..] == StripRefs(rs[1..]);
      SufficesJoin(api, {rs[0].x}, RefNames(StripRefs(rs[1..])));
    }
  }

  lemma CallExact(l: Label, api: S.Api, c: Invoke<Label>)
    ensures S.CallAccepted(l, api, c) <==> AllFlow(l, CallRefs(c)) && Suffices(api, CallNames(StripCall(c)))
  {
    RefExact(l, api, c.handle);
    RefsExact(l, api, c.args);
    FlowsJoin(l, {c.handle}, RefsOf(c.args));
    SufficesJoin(api, {c.handle.x}, RefNames(StripRefs(c.args)));
  }

  lemma RhsExact(l: Label, api: S.Api, r: Rhs<Label>)
    ensures S.RhsAccepted(l, api, r) <==> AllFlow(l, RhsRefs(r)) && Suffices(api, RhsNames(StripRhs(r)))
  {
    match r
    case Pure(e) => ExprExact(l, api, e);
    case Remote(_, c) => CallExact(l, api, c);
  }

  /** What the assertions ask of the phase: it refers only to variables that may influence it and are bound
      in it or inherited, binds only variables it may influence, and goes by counters it inherits. */
  ghost predicate CanRun(l: Label, api: S.Api, s: Stmt<Label>) {
    var p := Project(l, s);
    && AllFlow(l, PhaseRefs(l, s)) && BindsFlow(l, PhaseBinds(l, s))
    && Required(p, api.provided) <= api.inherits && Repeats(p) <= api.loops
  }

  /** The splitter accepts a statement exactly then. */
  lemma {:induction false} AcceptsExactly(l: Label, api: S.Api, s: Stmt<Label>)
    ensures S.Accepts(l, api, s) <==> CanRun(l, api, s)
    decreases s, 1
  {
    match s
    case Let(_, _, _, _, _) => LetExactly(l, api, s);
    case Assign(sl, r, e) =>
      if sl == l {
        RefExact(l, api, r);
        ExprExact(l, api, e);
        FlowsJoin(l, {r}, ExprRefs(e));
        SufficesJoin(api, {r.x}, Names(StripExpr(e)));
      }
    case Perform(_, c) => CallExact(l, api, c);
    case Return(_, e) => ExprExact(l, api, e);
    case If(sl, cond, a, b) =>
      if FlowsTo(sl, l) {
        ExprExact(l, api, cond);
        AcceptsExactly(l, api, a);
        AcceptsExactly(l, api, b);
        FlowsJoin(l, ExprRefs(cond), PhaseRefs(l, a));
        FlowsJoin(l, ExprRefs(cond) + PhaseRefs(l, a), PhaseRefs(l, b));
        BindsJoin(l, PhaseBinds(l, a), PhaseBinds(l, b));
      }
    case While(_, _, _, _) => WhileExactly(l, api, s);
    case Skip(_) =>
    case Seq(_, a, b) =>
      AcceptsExactly(l, api, a);
      AcceptsExactly(l, api, b);
      FlowsJoin(l, PhaseRefs(l, a), PhaseRefs(l, b));
      BindsJoin(l, PhaseBinds(l, a), PhaseBinds(l, b));
  }

  lemma {:induction false} LetExactly(l: Label, api: S.Api, s: Stmt<Label>)
    requires s.Let?
    ensures S.Accepts(l, api, s) <==> CanRun(l, api, s)
    decreases s, 0
  {
    if s.l == l {
      RhsExact(l, api, s.rhs);
      AcceptsExactly(l, api.(provided := api.provided + {s.x}), s.body);
      FlowsJoin(l, RhsRefs(s.rhs), PhaseRefs(l, s.body));
      BindsJoin(l, {s.bl}, PhaseBinds(l, s.body));
      assert BindsFlow(l, {s.bl}) <==> FlowsTo(l, s.bl);
    } else {
      AcceptsExactly(l, api, s.body);
      var p := Project(l, s.body);
      assert Required(PIncrement(s.x), api.provided) == {} && Required(PSeq(PIncrement(s.x), p), api.provided) == Required(p, api.provided);
      assert Repeats(PIncrement(s.x)) == {} && Repeats(PSeq(PIncrement(s.x), p)) == Repeats(p);
      assert {} + PhaseRefs(l, s.body) == PhaseRefs(l, s.body) && {} + PhaseBinds(l, s.body) == PhaseBinds(l, s.body);
    }
  }

  lemma {:induction false} WhileExactly(l: Label, api: S.Api, s: Stmt<Label>)
    requires s.While?
    ensures S.Accepts(l, api, s) <==> CanRun(l, api, s)
    decreases s, 0
  {
    if s.l == l {
      ExprExact(l, api, s.cond);
      AcceptsExactly(l, api, s.body);
      FlowsJoin(l, ExprRefs(s.cond), PhaseRefs(l, s.body));
    } else if FlowsTo(s.l, l) {
      AcceptsExactly(l, api, s.body);
    }
  }
}
