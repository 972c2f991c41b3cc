/** What the front end accepts: a program that is lexically scoped and meets the constraints that are
    collected from it. Nothing is asked of names that are bound more than once, or of where calls stand. */
module Flows {
  import opened Labels
  import opened Syntax
  import opened Semantics
  import opened WellLabelled

  /** The label of a binding and the label of the statement that makes it. */
  datatype Place = Place(level: Label, birth: Label)

  type Places = map<Name, Place>

  /** What is not in scope is an argument or a boolean constant. */
  predicate RefFlows(env: Env, scope: Places, r: Ref<Label>) {
    if r.x in scope then r.l == scope[r.x].level else IsInput(env, r.x) && r.l == TOP
  }

  predicate RefsFlow(env: Env, scope: Places, rs: seq<Ref<Label>>) {
    rs == [] || (RefFlows(env, scope, rs[0]) && RefsFlow(env, scope, rs[1..]))
  }

  predicate ExprFlows(env: Env, scope: Places, e: Expr<Label>) {
    match e
    case Const(_) => true
    case Var(r) => RefFlows(env, scope, r)
    case Bin(l, _, a, b) =>
      ExprFlows(env, scope, a) && ExprFlows(env, scope, b) && l == MinOf(ExprLabel(a), ExprLabel(b))
  }

  /** The handle and the arguments may influence the object. */
  predicate CallFlows(env: Env, scope: Places, c: Invoke<Label>) {
    && RefFlows(env, scope, c.handle) && RefsFlow(env, scope, c.args)
    && FlowsTo(c.handle.l, c.handleLabel) && FlowsTo(RefsLabel(c.args), c.handleLabel)
  }

  predicate RhsFlows(env: Env, scope: Places, pc: Label, r: Rhs<Label>) {
    match r
    case Pure(e) => ExprFlows(env, scope, e)
    case Remote(l, c) => CallFlows(env, scope, c) && l == CallLabel(pc, c)
  }

  /** `s` is labelled as the type checker labels it, in a context of label `pc`, and meets the
      collected constraints. */
  predicate StmtFlows(env: Env, scope: Places, pc: Label, s: Stmt<Label>)
    decreases s
  {
    match s
    case Let(l, bl, x, rhs, body) =>
      && RhsFlows(env, scope, pc, rhs)
      && l == MinOf(RhsLabel(rhs), pc)
      && FlowsTo(RhsLabel(rhs), bl) && FlowsTo(pc, bl)
      && StmtFlows(env, scope[x := Place(bl, l)], pc, body)
    case Assign(l, r, e) =>
      && RefFlows(env, scope, r) && ExprFlows(env, scope, e)
      && l == MinOf(MinOf(ExprLabel(e), r.l), pc)
      && FlowsTo(ExprLabel(e), r.l) && FlowsTo(pc, r.l)
    case Perform(l, c) => CallFlows(env, scope, c) && l == CallLabel(pc, c)
    case Return(l, e) => ExprFlows(env, scope, e) && l == BOTTOM
    case If(l, cond, a, b) =>
      && ExprFlows(env, scope, cond) && l == MinOf(pc, ExprLabel(cond))
      && StmtFlows(env, scope, l, a) && StmtFlows(env, scope, l, b)
    case While(l, cond, body, _) =>
      ExprFlows(env, scope, cond) && l == MinOf(pc, ExprLabel(cond)) && StmtFlows(env, scope, l, body)
    case Skip(l) => l == pc
    case Seq(l, a, b) => l == pc && StmtFlows(env, scope, pc, a) && StmtFlows(env, scope, pc, b)
  }

  // --- and what splitting asks for on top of it ---

  /** `sig` records the labels the program itself carries; names bound more than once carry the
      same ones, and only late variables are assigned by weaker statements than their binding. */
  predicate Described(sig: Sig, env: Env, s: Stmt<Label>) {
    match s
    case Let(l, bl, x, _, body) =>
      !IsInput(env, x) && bl == sig.level(x) && l == sig.birth(x) && Described(sig, env, body)
    case Assign(_, r, _) =>
      !IsInput(env, r.x) && (sig.birth(r.x) == sig.level(r.x) || sig.late(r.x))
    case If(_, _, a, b) => Described(sig, env, a) && Described(sig, env, b)
    case While(l, _, body, n) => l == sig.loop(n) && Described(sig, env, body)
    case Seq(_, a, b) => Described(sig, env, a) && Described(sig, env, b)
    case _ => true
  }

  /** Every call on an object of label `from` or stronger is made in a context of label `from` or
      stronger. */
  predicate CallsFrom(from: Label, pc: Label, s: Stmt<Label>)
    decreases s
  {
    match s
    case Let(_, _, _, rhs, body) =>
      (rhs.Remote? && rhs.call.handleLabel >= from ==> pc >= from) && CallsFrom(from, pc, body)
    case Perform(_, c) => c.handleLabel >= from ==> pc >= from
    case If(l, _, a, b) => CallsFrom(from, l, a) && CallsFrom(from, l, b)
    case While(l, _, body, _) => CallsFrom(from, l, body)
    case Seq(_, a, b) => CallsFrom(from, pc, a) && CallsFrom(from, pc, b)
    case _ => true
  }

  /** Every call is made in a context that may influence its object. */
  predicate CallsPermitted(pc: Label, s: Stmt<Label>)
    decreases s
  {
    match s
    case Let(_, _, _, rhs, body) =>
      (rhs.Remote? ==> FlowsTo(pc, rhs.call.handleLabel)) && CallsPermitted(pc, body)
    case Perform(_, c) => FlowsTo(pc, c.handleLabel)
    case If(l, _, a, b) => CallsPermitted(l, a) && CallsPermitted(l, b)
    case While(l, _, body, _) => CallsPermitted(l, body)
    case Seq(_, a, b) => CallsPermitted(pc, a) && CallsPermitted(pc, b)
    case _ => true
  }

  lemma {:induction false} PermittedFrom(from: Label, pc: Label, s: Stmt<Label>)
    requires CallsPermitted(pc, s)
    ensures CallsFrom(from, pc, s)
    decreases s
  {
    match s
    case Let(_, _, _, _, body) => PermittedFrom(from, pc, body);
    case If(l, _, a, b) =>
      PermittedFrom(from, l, a);
      PermittedFrom(from, l, b);
    case While(l, _, body, _) => PermittedFrom(from, l, body);
    case Seq(_, a, b) =>
      PermittedFrom(from, pc, a);
      PermittedFrom(from, pc, b);
    case _ =>
  }

  /** Calls that are permitted from every label on are permitted. */
  lemma {:induction false} PermittedEverywhere(pc: Label, s: Stmt<Label>)
    requires forall from: Label :: CallsFrom(from, pc, s)
    ensures CallsPermitted(pc, s)
    decreases s
  {
    match s
    case Let(_, _, _, rhs, body) =>
      forall from: Label ensures CallsFrom(from, pc, body) { assert CallsFrom(from, pc, s); }
      PermittedEverywhere(pc, body);
      assert rhs.Remote? ==> CallsFrom(rhs.call.handleLabel, pc, s);
    case Perform(_, c) => assert CallsFrom(c.handleLabel, pc, s);
    case If(l, _, a, b) =>
      forall from: Label ensures CallsFrom(from, l, a) && CallsFrom(from, l, b) { assert CallsFrom(from, pc, s); }
      PermittedEverywhere(l, a);
      PermittedEverywhere(l, b);
    case While(l, _, body, _) =>
      forall from: Label ensures CallsFrom(from, l, body) { assert CallsFrom(from, pc, s); }
      PermittedEverywhere(l, body);
    case Seq(_, a, b) =>
      forall from: Label ensures CallsFrom(from, pc, a) && CallsFrom(from, pc, b) { assert CallsFrom(from, pc, s); }
      PermittedEverywhere(pc, a);
      PermittedEverywhere(pc, b);
    case _ =>
  }

  /** The names in scope are those of `names`, with the labels `sig` gives them. */
  ghost predicate ScopeIs(sig: Sig, env: Env, names: set<Name>, scope: Places) {
    scope.Keys == names && forall x | x in scope :: !IsInput(env, x) && scope[x].level == sig.level(x)
  }

  lemma {:induction false} ExprIsOk(sig: Sig, env: Env, names: set<Name>, scope: Places, e: Expr<Label>)
    requires ScopeIs(sig, env, names, scope) && ExprFlows(env, scope, e)
    ensures ExprOk(sig, env, names, e)
  {
    if e.Bin? {
      ExprIsOk(sig, env, names, scope, e.left);
      ExprIsOk(sig, env, names, scope, e.right);
    }
  }

  lemma {:induction false} RefsAreOk(sig: Sig, env: Env, names: set<Name>, scope: Places, rs: seq<Ref<Label>>)
    requires ScopeIs(sig, env, names, scope) && RefsFlow(env, scope, rs)
    ensures RefsOk(sig, env, names, rs)
  {
    if rs != [] { RefsAreOk(sig, env, names, scope, rs[1..]); }
  }

  /** A described program with permitted calls is well labelled. */
  lemma {:induction false} FlowsIsOk(sig: Sig, env: Env, names: set<Name>, scope: Places, pc: Label, s: Stmt<Label>)
    requires ScopeIs(sig, env, names, scope) && StmtFlows(env, scope, pc, s)
    requires Described(sig, env, s) && CallsPermitted(pc, s)
    ensures StmtOk(sig, env, names, pc, s)
    decreases s
  {
    match s
    case Let(l, bl, x, rhs, body) =>
      match rhs {
        case Pure(e) => ExprIsOk(sig, env, names, scope, e);
        case Remote(_, c) => RefsAreOk(sig, env, names, scope, c.args);
      }
      FlowsIsOk(sig, env, names + {x}, scope[x := Place(bl, l)], pc, body);
    case Assign(_, _, e) => ExprIsOk(sig, env, names, scope, e);
    case Perform(_, c) => RefsAreOk(sig, env, names, scope, c.args);
    case Return(_, e) => ExprIsOk(sig, env, names, scope, e);
    case If(l, cond, a, b) =>
      ExprIsOk(sig, env, names, scope, cond);
      FlowsIsOk(sig, env, names, scope, l, a);
      FlowsIsOk(sig, env, names, scope, l, b);
    case While(l, cond, body, _) =>
      ExprIsOk(sig, env, names, scope, cond);
      FlowsIsOk(sig, env, names, scope, l, body);
    case Skip(_) =>
    case Seq(_, a, b) =>
      FlowsIsOk(sig, env, names, scope, pc, a);
      FlowsIsOk(sig, env, names, scope, pc, b);
  }

  lemma {:induction false} OkExprFlows(sig: Sig, env: Env, names: set<Name>, scope: Places, e: Expr<Label>)
    requires ScopeIs(sig, env, names, scope) && ExprOk(sig, env, names, e)
    ensures ExprFlows(env, scope, e)
  {
    if e.Bin? {
      OkExprFlows(sig, env, names, scope, e.left);
      OkExprFlows(sig, env, names, scope, e.right);
    }
  }

  lemma {:induction false} OkRefsFlow(sig: Sig, env: Env, names: set<Name>, scope: Places, rs: seq<Ref<Label>>)
    requires ScopeIs(sig, env, names, scope) && RefsOk(sig, env, names, rs)
    ensures RefsFlow(env, scope, rs)
  {
    if rs != [] { OkRefsFlow(sig, env, names, scope, rs[1..]); }
  }

  /** And nothing else is. */
  lemma {:induction false} OkIsFlows(sig: Sig, env: Env, names: set<Name>, scope: Places, pc: Label, s: Stmt<Label>)
    requires ScopeIs(sig, env, names, scope) && StmtOk(sig, env, names, pc, s)
    ensures StmtFlows(env, scope, pc, s) && Described(sig, env, s) && CallsPermitted(pc, s)
    decreases s
  {
    match s
    case Let(l, bl, x, rhs, body) =>
      match rhs {
        case Pure(e) => OkExprFlows(sig, env, names, scope, e);
        case Remote(_, c) => OkRefsFlow(sig, env, names, scope, c.args);
      }
      OkIsFlows(sig, env, names + {x}, scope[x := Place(bl, l)], pc, body);
    case Assign(_, _, e) => OkExprFlows(sig, env, names, scope, e);
    case Perform(_, c) => OkRefsFlow(sig, env, names, scope, c.args);
    case Return(_, e) => OkExprFlows(sig, env, names, scope, e);
    case If(l, cond, a, b) =>
      OkExprFlows(sig, env, names, scope, cond);
      OkIsFlows(sig, env, names, scope, l, a);
      OkIsFlows(sig, env, names, scope, l, b);
    case While(l, cond, body, _) =>
      OkExprFlows(sig, env, names, scope, cond);
      OkIsFlows(sig, env, names, scope, l, body);
    case Skip(_) =>
    case Seq(_, a, b) =>
      OkIsFlows(sig, env, names, scope, pc, a);
      OkIsFlows(sig, env, names, scope, pc, b);
  }
}
