/** Splitting: the part of a labelled program that one phase runs. */
module SplitPhase {
  import opened Labels
  import opened Syntax

  /** The statement language of a single phase. */
  datatype PStmt =
    | PLet(bl: Label, x: Name, rhs: Rhs<()>, body: PStmt)
    | PIncrement(x: Name)
    | PAssign(x: Name, e: Expr<()>)
    | PPerform(call: Invoke<()>)
    | PReturn(e: Expr<()>)
    | PIf(cond: Expr<()>, thn: PStmt, els: PStmt)
    | PWhile(cond: Expr<()>, body: PStmt, name: LoopName)
    | PForEach(body: PStmt, name: LoopName)
    | PSkip
    | PSeq(first: PStmt, rest: PStmt)

  /** The projection of `s` onto label `l`. Statements of label `l` are kept; an assignment of a
      stronger label, and any foreign binding, leaves a cursor move; a stronger loop becomes a
      counted one; a conditional is entered by every phase its condition may influence. */
  function Project(l: Label, s: Stmt<Label>): PStmt {
    match s
    case Let(sl, bl, x, rhs, body) =>
      if sl == l then PLet(bl, x, StripRhs(rhs), Project(l, body))
      else PSeq(PIncrement(x), Project(l, body))
    case Assign(sl, target, e) =>
      if sl == l then PAssign(target.x, StripExpr(e))
      else if FlowsTo(sl, l) then PIncrement(target.x)
      else PSkip
    case Perform(sl, c) =>
      if sl == l then PPerform(StripCall(c)) else PSkip
    case Return(sl, e) =>
      if sl == l then PReturn(StripExpr(e)) else PSkip
    case If(sl, cond, thn, els) =>
      if FlowsTo(sl, l) then PIf(StripExpr(cond), Project(l, thn), Project(l, els)) else PSkip
    case While(sl, cond, body, name) =>
      if sl == l then PWhile(StripExpr(cond), Project(l, body), name)
      else if FlowsTo(sl, l) then PForEach(Project(l, body), name)
      else PSkip
    case Skip(_) => PSkip
    case Seq(_, a, b) => PSeq(Project(l, a), Project(l, b))
  }
}
