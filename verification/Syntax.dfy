/** The statement language shared by the compiler passes, over an arbitrary type of labels:
    `()` before type checking, symbolic labels until inference, concrete labels after it. */
module Syntax {
  import opened Labels

  datatype Option<+T> = None | Some(value: T)

  /** Variable names. `User` names never collide with the names the compiler generates. */
  datatype Name =
    | User(id: string)
    | True
    | False
    | Anorm(seqnum: int, depth: int)
    | Flag(seqnum: int, depth: int)

  /** The name of a loop counter. */
  datatype LoopName = Loop(seqnum: int, depth: int)

  datatype Op = Add | Sub | Mul | Div | Eq | And | Or | Gt | Lt

  datatype Ref<L> = Ref(l: L, x: Name)

  datatype Expr<L> =
    | Const(i: int)
    | Var(ref: Ref<L>)
    | Bin(l: L, op: Op, left: Expr<L>, right: Expr<L>)

  /** A method call on a remote object. The label of the object is part of the handle's type. */
  datatype Invoke<L> = Invoke(handleLabel: Label, name: string, handle: Ref<L>, args: seq<Ref<L>>)

  datatype Rhs<L> =
    | Pure(e: Expr<L>)
    | Remote(l: L, call: Invoke<L>)

  /** `Skip` and `Seq` are the empty and the non-empty statement list. */
  datatype Stmt<L> =
    | Let(l: L, bl: L, x: Name, rhs: Rhs<L>, body: Stmt<L>)
    | Assign(l: L, target: Ref<L>, e: Expr<L>)
    | Perform(l: L, call: Invoke<L>)
    | Return(l: L, e: Expr<L>)
    | If(l: L, cond: Expr<L>, thn: Stmt<L>, els: Stmt<L>)
    | While(l: L, cond: Expr<L>, body: Stmt<L>, name: LoopName)
    | Skip(l: L)
    | Seq(l: L, first: Stmt<L>, rest: Stmt<L>)

  function Names<L>(e: Expr<L>): set<Name> {
    match e
    case Const(_) => {}
    case Var(r) => {r.x}
    case Bin(_, _, a, b) => Names(a) + Names(b)
  }

  function RefNames<L>(rs: seq<Ref<L>>): set<Name> {
    if rs == [] then {} else {rs[0].x} + RefNames(rs[1..])
  }

  function CallNames<L>(c: Invoke<L>): set<Name> {
    {c.handle.x} + RefNames(c.args)
  }

  function RhsNames<L>(r: Rhs<L>): set<Name> {
    match r
    case Pure(e) => Names(e)
    case Remote(_, c) => CallNames(c)
  }

  // Forgetting labels.

  function StripRef<L>(r: Ref<L>): Ref<()> {
    Ref((), r.x)
  }

  function StripExpr<L>(e: Expr<L>): Expr<()> {
    match e
    case Const(i) => Const(i)
    case Var(r) => Var(StripRef(r))
    case Bin(_, op, a, b) => Bin((), op, StripExpr(a), StripExpr(b))
  }

  function StripRefs<L>(rs: seq<Ref<L>>): seq<Ref<()>> {
    if rs == [] then [] else [StripRef(rs[0])] + StripRefs(rs[1..])
  }

  function StripCall<L>(c: Invoke<L>): Invoke<()> {
    Invoke(c.handleLabel, c.name, StripRef(c.handle), StripRefs(c.args))
  }

  function StripRhs<L>(r: Rhs<L>): Rhs<()> {
    match r
    case Pure(e) => Pure(StripExpr(e))
    case Remote(_, c) => Remote((), StripCall(c))
  }

  function StripStmt<L>(s: Stmt<L>): Stmt<()> {
    match s
    case Let(_, _, x, rhs, body) => Let((), (), x, StripRhs(rhs), StripStmt(body))
    case Assign(_, r, e) => Assign((), StripRef(r), StripExpr(e))
    case Perform(_, c) => Perform((), StripCall(c))
    case Return(_, e) => Return((), StripExpr(e))
    case If(_, cond, a, b) => If((), StripExpr(cond), StripStmt(a), StripStmt(b))
    case While(_, cond, body, n) => While((), StripExpr(cond), StripStmt(body), n)
    case Skip(_) => Skip(())
    case Seq(_, a, b) => Seq((), StripStmt(a), StripStmt(b))
  }
}
