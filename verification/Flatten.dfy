/** Desugaring of loops and A-normal form. */
module Flatten {
  import opened Syntax

  const DEPTH_LIMIT := 1000

  function Use(x: Name): Expr<()> {
    Var(Ref((), x))
  }

  // --- loops ---

  /** A loop tests a flag, and its condition moves into the body, where it is evaluated again on
      every round. */
  function DesugarWhile(seqnum: int, depth: int, s: Stmt<()>): Stmt<()>
    decreases s
  {
    match s
    case Let(l, bl, x, rhs, body) => Let(l, bl, x, rhs, DesugarWhile(seqnum, depth + 1, body))
    case If(l, cond, a, b) => If(l, cond, DesugarWhile(seqnum, depth + 1, a), DesugarWhile(seqnum + 1, depth + 1, b))
    case While(l, cond, body, name) =>
      var flag := Flag(seqnum, depth);
      Let(l, l, flag, Pure(Use(True)),
          While(l, Use(flag), If(l, cond, DesugarWhile(seqnum, depth + 1, body), Assign(l, Ref(l, flag), Use(False))), name))
    case Seq(l, a, b) => Seq(l, DesugarWhile(seqnum, depth, a), DesugarWhile(seqnum + 1, depth, b))
    case _ => s
  }

  // --- expressions ---

  /** How many subexpressions of `e` are not variables. */
  function Unnamed(e: Expr<()>): nat {
    match e
    case Const(_) => 1
    case Var(_) => 0
    case Bin(_, _, a, b) => 1 + Unnamed(a) + Unnamed(b)
  }

  /** Takes the leftmost innermost operation out of `e`, leaving the name `n` in its place. */
  function RemoveLayer(n: Name, e: Expr<()>): (Expr<()>, Expr<()>)
    requires !e.Var?
  {
    match e
    case Const(_) => (e, Use(n))
    case Bin(l, op, a, b) =>
      if a.Var? && b.Var? then (e, Use(n))
      else if a.Var? then
        var r := RemoveLayer(n, b);
        (r.0, Bin(l, op, a, r.1))
      else
        var r := RemoveLayer(n, a);
        (r.0, Bin(l, op, r.1, b))
  }

  /** The expression of a statement that has to become flat. */
  function Header(s: Stmt<()>): Option<Expr<()>> {
    match s
    case Let(_, _, _, Pure(e), _) => Some(e)
    case Assign(_, _, e) => Some(e)
    case Return(_, e) => Some(e)
    case If(_, cond, _, _) => Some(cond)
    case While(_, cond, _, _) => Some(cond)
    case _ => None
  }

  function WithHeader(s: Stmt<()>, e: Expr<()>): Stmt<()>
    requires Header(s).Some?
  {
    match s
    case Let(l, bl, x, _, body) => Let(l, bl, x, Pure(e), body)
    case Assign(l, r, _) => Assign(l, r, e)
    case Return(l, _) => Return(l, e)
    case If(l, _, a, b) => If(l, e, a, b)
    case While(l, _, body, name) => While(l, e, body, name)
  }

  /** A binding may keep one operation on variables; any other statement only names a variable. */
  predicate FlatHeader(s: Stmt<()>) {
    Header(s).Some? ==> Unnamed(Header(s).value) <= (if s.Let? then 1 else 0)
  }

  /** One operation of the header, named in front of the statement. */
  function Partial(n: Name, s: Stmt<()>): Stmt<()>
    requires !FlatHeader(s)
  {
    var r := RemoveLayer(n, Header(s).value);
    Let((), (), n, Pure(r.0), WithHeader(s, r.1))
  }

  /** Names the operations of a statement one by one, then goes on below it. Past the depth limit
      statements stay as they are. */
  function FlattenExprs(seqnum: int, depth: int, s: Stmt<()>): Stmt<()>
    decreases DEPTH_LIMIT - depth, s
  {
    if depth >= DEPTH_LIMIT then s
    else if !FlatHeader(s) then FlattenExprs(seqnum, depth + 1, Partial(Anorm(seqnum, depth), s))
    else
      match s
      case Let(l, bl, x, rhs, body) => Let(l, bl, x, rhs, FlattenExprs(seqnum, depth + 1, body))
      case If(l, cond, a, b) => If(l, cond, FlattenExprs(seqnum, depth + 1, a), FlattenExprs(seqnum + 1, depth + 1, b))
      case While(l, cond, body, name) => While(l, cond, FlattenExprs(seqnum, depth + 1, body), name)
      case Seq(l, a, b) => Seq(l, FlattenExprs(seqnum, depth, a), FlattenExprs(seqnum + 1, depth, b))
      case _ => s
  }

  function FlattenExpressions(s: Stmt<()>): Stmt<()> {
    FlattenExprs(1, 1, DesugarWhile(1, 1, s))
  }

  // --- the shape of the result ---

  /** A-normal form. */
  predicate InAnf(s: Stmt<()>) {
    FlatHeader(s) &&
    match s
    case Let(_, _, _, _, body) => InAnf(body)
    case If(_, _, a, b) => InAnf(a) && InAnf(b)
    case While(_, _, body, _) => InAnf(body)
    case Seq(_, a, b) => InAnf(a) && InAnf(b)
    case _ => true
  }

  function Max(a: nat, b: nat): nat {
    if a >= b then a else b
  }

  /** How much depth flattening a statement takes: two for every operation it names, one for
      every statement it enters. */
  function Work(s: Stmt<()>): nat {
    var own: nat := if FlatHeader(s) then 0 else 2 * (Unnamed(Header(s).value) - if s.Let? then 1 else 0);
    match s
    case Let(_, _, _, _, body) => own + 1 + Work(body)
    case If(_, _, a, b) => own + 1 + Max(Work(a), Work(b))
    case While(_, _, body, _) => own + 1 + Work(body)
    case Seq(_, a, b) => Max(Work(a), Work(b))
    case _ => own
  }

  lemma {:induction false} RemoveLayerShrinks(n: Name, e: Expr<()>)
    requires !e.Var?
    ensures var r := RemoveLayer(n, e); Unnamed(r.0) == 1 && Unnamed(r.1) == Unnamed(e) - 1
  {
    if e.Bin? && !(e.left.Var? && e.right.Var?) {
      RemoveLayerShrinks(n, if e.left.Var? then e.right else e.left);
    }
  }

  /** Flattening comes to an end within the limit, and what it leaves is in A-normal form. */
  lemma {:induction false} FlattenIsAnf(seqnum: int, depth: int, s: Stmt<()>)
    requires depth + Work(s) <= DEPTH_LIMIT
    ensures InAnf(FlattenExprs(seqnum, depth, s))
    decreases Work(s), s
  {
    if depth >= DEPTH_LIMIT {
      NoWork(s);
    } else if !FlatHeader(s) {
      var n, e := Anorm(seqnum, depth), Header(s).value;
      RemoveLayerShrinks(n, e);
      var r := RemoveLayer(n, e);
      var p, rest := Partial(n, s), WithHeader(s, r.1);
      assert FlatHeader(p) && Work(rest) == Work(s) - 2;
      if depth + 1 < DEPTH_LIMIT {
        FlattenIsAnf(seqnum, depth + 2, rest);
        assert FlattenExprs(seqnum, depth + 1, p) == Let((), (), n, Pure(r.0), FlattenExprs(seqnum, depth + 2, rest));
      }
    } else {
      match s
      case Let(_, _, _, _, body) => FlattenIsAnf(seqnum, depth + 1, body);
      case If(_, _, a, b) =>
        FlattenIsAnf(seqnum, depth + 1, a);
        FlattenIsAnf(seqnum + 1, depth + 1, b);
      case While(_, _, body, _) => FlattenIsAnf(seqnum, depth + 1, body);
      case Seq(_, a, b) =>
        FlattenIsAnf(seqnum, depth, a);
        FlattenIsAnf(seqnum + 1, depth, b);
      case _ =>
    }
  }

  lemma {:induction false} NoWork(s: Stmt<()>)
    requires Work(s) == 0
    ensures InAnf(s)
  {
    if s.Seq? {
      NoWork(s.first);
      NoWork(s.rest);
    }
  }

  /** A generated name that flattening at depth `d` or deeper may introduce. */
  predicate Deep(d: int, x: Name) {
    x.Anorm? && x.depth >= d
  }

  /** No binder reuses a generated name that is in scope. */
  predicate NoCapture(scope: set<Name>, s: Stmt<()>)
    decreases s
  {
    match s
    case Let(_, _, x, _, body) => (x.Anorm? ==> x !in scope) && NoCapture(scope + {x}, body)
    case If(_, _, a, b) => NoCapture(scope, a) && NoCapture(scope, b)
    case While(_, _, body, _) => NoCapture(scope, body)
    case Seq(_, a, b) => NoCapture(scope, a) && NoCapture(scope, b)
    case _ => true
  }

  predicate BindsNoAnorm(s: Stmt<()>) {
    match s
    case Let(_, _, x, _, body) => !x.Anorm? && BindsNoAnorm(body)
    case If(_, _, a, b) => BindsNoAnorm(a) && BindsNoAnorm(b)
    case While(_, _, body, _) => BindsNoAnorm(body)
    case Seq(_, a, b) => BindsNoAnorm(a) && BindsNoAnorm(b)
    case _ => true
  }

  lemma {:induction false} NothingCaptured(scope: set<Name>, s: Stmt<()>)
    requires BindsNoAnorm(s)
    ensures NoCapture(scope, s)
    decreases s
  {
    match s
    case Let(_, _, x, _, body) => NothingCaptured(scope + {x}, body);
    case If(_, _, a, b) =>
      NothingCaptured(scope, a);
      NothingCaptured(scope, b);
    case While(_, _, body, _) => NothingCaptured(scope, body);
    case Seq(_, a, b) =>
      NothingCaptured(scope, a);
      NothingCaptured(scope, b);
    case _ =>
  }

  /** Flattening never binds a generated name that is in scope: under each binder it only uses
      names of greater depth. */
  lemma {:induction false} FlattenCapturesNothing(scope: set<Name>, seqnum: int, depth: int, s: Stmt<()>)
    requires BindsNoAnorm(s) && forall x | x in scope :: !Deep(depth, x)
    ensures NoCapture(scope, FlattenExprs(seqnum, depth, s))
    decreases DEPTH_LIMIT - depth, s
  {
    if depth >= DEPTH_LIMIT {
      NothingCaptured(scope, s);
    } else if !FlatHeader(s) {
      var n := Anorm(seqnum, depth);
      var r := RemoveLayer(n, Header(s).value);
      var rest := WithHeader(s, r.1);
      RemoveLayerShrinks(n, Header(s).value);
      if depth + 1 < DEPTH_LIMIT {
        FlattenCapturesNothing(scope + {n}, seqnum, depth + 2, rest);
        assert FlattenExprs(seqnum, depth + 1, Partial(n, s)) == Let((), (), n, Pure(r.0), FlattenExprs(seqnum, depth + 2, rest));
      } else {
        NothingCaptured(scope + {n}, rest);
      }
    } else {
      match s
      case Let(_, _, x, _, body) => FlattenCapturesNothing(scope + {x}, seqnum, depth + 1, body);
      case If(_, _, a, b) =>
        FlattenCapturesNothing(scope, seqnum, depth + 1, a);
        FlattenCapturesNothing(scope, seqnum + 1, depth + 1, b);
      case While(_, _, body, _) => FlattenCapturesNothing(scope, seqnum, depth + 1, body);
      case Seq(_, a, b) =>
        FlattenCapturesNothing(scope, seqnum, depth, a);
        FlattenCapturesNothing(scope, seqnum + 1, depth, b);
      case _ =>
    }
  }
}
