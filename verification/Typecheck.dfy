/** Type checking: attaching labels, some of them still to be inferred, to a parsed program. */
module Typecheck {
  import opened Labels
  import opened Syntax
  import opened Symbolic

  /** The labels of the variables in scope. */
  type Scope = map<Name, Sym>

  function CheckRef(scope: Scope, r: Ref<()>): Option<Ref<Sym>> {
    if r.x in scope then Some(Ref(scope[r.x], r.x)) else None
  }

  function CheckRefs(scope: Scope, rs: seq<Ref<()>>): Option<seq<Ref<Sym>>> {
    if rs == [] then Some([])
    else
      var r, rest := CheckRef(scope, rs[0]), CheckRefs(scope, rs[1..]);
      if r.None? || rest.None? then None else Some([r.value] + rest.value)
  }

  function CheckExpr(scope: Scope, e: Expr<()>): Option<Expr<Sym>> {
    match e
    case Const(i) => Some(Const(i))
    case Var(r) =>
      var v := CheckRef(scope, r);
      if v.None? then None else Some(Var(v.value))
    case Bin(_, op, a, b) =>
      var x, y := CheckExpr(scope, a), CheckExpr(scope, b);
      if x.None? || y.None? then None
      else Some(Bin(ResolvedMin(ExprLabel(x.value), ExprLabel(y.value)), op, x.value, y.value))
  }

  function CheckCall(scope: Scope, c: Invoke<()>): Option<Invoke<Sym>> {
    var h, args := CheckRef(scope, c.handle), CheckRefs(scope, c.args);
    if h.None? || args.None? then None
    else Some(Invoke(c.handleLabel, c.name, h.value, args.value))
  }

  function ArgsMin(l: Sym, rs: seq<Ref<Sym>>): Sym
    decreases rs
  {
    if rs == [] then l else ArgsMin(ResolvedMin(l, rs[0].l), rs[1..])
  }

  /** The label a call executes at: no stronger than the handle, the context, the object and the
      arguments. */
  function ExecutionLabel(pc: Sym, c: Invoke<Sym>): Sym {
    var h := Con(c.handleLabel);
    ResolvedMin(c.handle.l, ResolvedMin(pc, ArgsMin(ResolvedMin(h, h), c.args)))
  }

  function CheckRhs(scope: Scope, pc: Sym, r: Rhs<()>): Option<Rhs<Sym>> {
    match r
    case Pure(e) =>
      var v := CheckExpr(scope, e);
      if v.None? then None else Some(Pure(v.value))
    case Remote(_, c) =>
      var v := CheckCall(scope, c);
      if v.None? then None else Some(Remote(ExecutionLabel(pc, v.value), v.value))
  }

  /** The checked form of `s` in a context of label `pc`; a variable bound here gets the label
      `(seqnum, depth)`, to be inferred. */
  function Check(seqnum: int, depth: int, scope: Scope, pc: Sym, s: Stmt<()>): Option<Stmt<Sym>>
    decreases s
  {
    match s
    case Let(_, _, x, rhs, body) =>
      var r := CheckRhs(scope, pc, rhs);
      if r.None? then None
      else
        var bl := Temp(TempId(seqnum, depth));
        var b := Check(seqnum + 1, depth + 1, scope[x := bl], pc, body);
        if b.None? then None
        else Some(Let(ResolvedMin(RhsLabel(r.value), pc), bl, x, r.value, b.value))
    case Assign(_, target, e) =>
      var t, v := CheckRef(scope, target), CheckExpr(scope, e);
      if t.None? || v.None? then None
      else Some(Assign(ResolvedMin(ResolvedMin(ExprLabel(v.value), t.value.l), pc), t.value, v.value))
    case Perform(_, c) =>
      var v := CheckCall(scope, c);
      if v.None? then None else Some(Perform(ExecutionLabel(pc, v.value), v.value))
    case Return(_, e) =>
      var v := CheckExpr(scope, e);
      if v.None? then None else Some(Return(Con(BOTTOM), v.value))
    case If(_, cond, thn, els) =>
      var c := CheckExpr(scope, cond);
      if c.None? then None
      else
        var inner := ResolvedMin(ExprLabel(c.value), pc);
        var a := Check(seqnum + 1, depth + 1, scope, inner, thn);
        var b := Check(seqnum + 2, depth + 1, scope, inner, els);
        if a.None? || b.None? then None
        else Some(If(ResolvedMin(pc, ExprLabel(c.value)), c.value, a.value, b.value))
    case While(_, cond, body, name) =>
      var c := CheckExpr(scope, cond);
      if c.None? then None
      else
        var b := Check(seqnum + 1, depth + 1, scope, ResolvedMin(ExprLabel(c.value), pc), body);
        if b.None? then None
        else Some(While(ResolvedMin(pc, ExprLabel(c.value)), c.value, b.value, name))
    case Skip(_) => Some(Skip(pc))
    case Seq(_, first, rest) =>
      var a, b := Check(seqnum, depth, scope, pc, first), Check(seqnum + 1, depth, scope, pc, rest);
      if a.None? || b.None? then None else Some(Seq(pc, a.value, b.value))
  }
}
