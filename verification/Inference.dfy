/** Label inference: collecting flow constraints from a program, and solving them. */
module Inference {
  import opened Labels
  import opened Syntax
  import opened Symbolic
  import opened Solver

  // --- labels of a program ---

  function RefsOf(rs: seq<Ref<Sym>>): seq<Sym> {
    if rs == [] then [] else [rs[0].l] + RefsOf(rs[1..])
  }

  function CallOf(c: Invoke<Sym>): seq<Sym> {
    [c.handle.l] + RefsOf(c.args)
  }

  function ExprOf(e: Expr<Sym>): seq<Sym> {
    match e
    case Const(_) => [Con(TOP)]
    case Var(r) => [r.l]
    case Bin(l, _, a, b) => [l] + ExprOf(a) + ExprOf(b)
  }

  function RhsOf(r: Rhs<Sym>): seq<Sym> {
    match r
    case Pure(e) => ExprOf(e)
    case Remote(l, c) => [l] + CallOf(c)
  }

  /** All labels a program mentions. */
  function LabelsOf(s: Stmt<Sym>): seq<Sym> {
    match s
    case Let(l, bl, _, rhs, body) => [l, bl] + RhsOf(rhs) + LabelsOf(body)
    case Assign(l, r, e) => [l, r.l] + ExprOf(e)
    case Perform(l, c) => [l] + CallOf(c)
    case Return(l, e) => [l] + ExprOf(e)
    case If(l, cond, a, b) => [l] + ExprOf(cond) + (LabelsOf(a) + LabelsOf(b))
    case While(l, cond, body, _) => [l] + ExprOf(cond) + LabelsOf(body)
    case Skip(l) => [l]
    case Seq(l, a, b) => [l] + LabelsOf(a) + LabelsOf(b)
  }

  function AllTemps(ls: seq<Sym>): set<TempId> {
    set l, t | l in ls && t in Temps(l) :: t
  }

  function AllConcretes(ls: seq<Sym>): set<Label> {
    set l, c | l in ls && c in Concretes(l) :: c
  }

  // --- constraints ---

  function FlowsFrom(hs: seq<Sym>, low: Sym): seq<Constraint> {
    if hs == [] then [] else [Constraint(hs[0], low)] + FlowsFrom(hs[1..], low)
  }

  /** The handle and the arguments flow to the object; where the call stands is not asked about. */
  function CollectCall(c: Invoke<Sym>): seq<Constraint> {
    FlowsFrom(CallOf(c), Con(c.handleLabel))
  }

  function CollectRhs(r: Rhs<Sym>): seq<Constraint> {
    match r
    case Pure(_) => []
    case Remote(_, c) => CollectCall(c)
  }

  /** The flows of a program in a context of label `pc`. */
  function Collect(pc: Sym, s: Stmt<Sym>): seq<Constraint>
    decreases s
  {
    match s
    case Let(_, bl, _, rhs, body) =>
      [Constraint(RhsLabel(rhs), bl), Constraint(pc, bl)] + CollectRhs(rhs) + Collect(pc, body)
    case Assign(_, r, e) =>
      [Constraint(ExprLabel(e), r.l), Constraint(pc, r.l)]
    case Perform(_, c) => CollectCall(c)
    case Return(_, _) => []
    case If(l, _, a, b) => Collect(Min(pc, l), a) + Collect(Min(pc, l), b)
    case While(l, _, body, _) => Collect(Min(pc, l), body)
    case Skip(_) => []
    case Seq(_, a, b) => Collect(pc, a) + Collect(pc, b)
  }

  function PickMin(a: Option<Label>, b: Option<Label>): Option<Label> {
    if a.None? then b
    else if b.None? then a
    else Some(MinOf(a.value, b.value))
  }

  /** The weakest known label inside a label, if there is one. */
  function FindConcrete(s: Sym): Option<Label> {
    match s
    case Con(c) => Some(c)
    case Temp(_) => None
    case Min(a, b) => PickMin(FindConcrete(a), FindConcrete(b))
  }

  /** A target the collapser can deal with: every minimum in it has a known label inside. */
  predicate Findable(s: Sym) {
    s.Min? ==> Findable(s.a) && Findable(s.b) && FindConcrete(s).Some?
  }

  function Size(s: Sym): nat {
    if s.Min? then 1 + Size(s.a) + Size(s.b) else 1
  }

  function TotalSize(cs: seq<Constraint>): nat {
    if cs == [] then 0 else Size(cs[0].high) + TotalSize(cs[1..])
  }

  /** A source that is a minimum becomes two sources; a target that is a minimum is replaced by
      the known label inside it, and there must be one in every minimum. */
  function Collapse(cs: seq<Constraint>): Option<seq<Constraint>>
    decreases TotalSize(cs)
  {
    if cs == [] then Some([])
    else if cs[0].high.Min? then
      var split := [Constraint(cs[0].high.a, cs[0].low)] + ([Constraint(cs[0].high.b, cs[0].low)] + cs[1..]);
      assert split[1..] == [Constraint(cs[0].high.b, cs[0].low)] + cs[1..] && split[1..][1..] == cs[1..];
      assert TotalSize(split) == Size(cs[0].high.a) + (Size(cs[0].high.b) + TotalSize(cs[1..]));
      Collapse(split)
    else if !Findable(cs[0].low) then None
    else
      var low := if cs[0].low.Min? then Con(FindConcrete(cs[0].low).value) else cs[0].low;
      var rest := Collapse(cs[1..]);
      if rest.None? then None else Some([Constraint(cs[0].high, low)] + rest.value)
  }

  // --- replacing a label in a program ---

  function ReplaceRef(r: Ref<Sym>, t: TempId, l: Label): Ref<Sym> {
    r.(l := ReplaceIn(r.l, t, l))
  }

  function ReplaceRefs(rs: seq<Ref<Sym>>, t: TempId, l: Label): seq<Ref<Sym>> {
    if rs == [] then [] else [ReplaceRef(rs[0], t, l)] + ReplaceRefs(rs[1..], t, l)
  }

  function ReplaceCall(c: Invoke<Sym>, t: TempId, l: Label): Invoke<Sym> {
    c.(handle := ReplaceRef(c.handle, t, l), args := ReplaceRefs(c.args, t, l))
  }

  function ReplaceExpr(e: Expr<Sym>, t: TempId, l: Label): Expr<Sym> {
    match e
    case Const(_) => e
    case Var(r) => Var(ReplaceRef(r, t, l))
    case Bin(k, op, a, b) => Bin(ReplaceIn(k, t, l), op, ReplaceExpr(a, t, l), ReplaceExpr(b, t, l))
  }

  function ReplaceRhs(r: Rhs<Sym>, t: TempId, l: Label): Rhs<Sym> {
    match r
    case Pure(e) => Pure(ReplaceExpr(e, t, l))
    case Remote(k, c) => Remote(ReplaceIn(k, t, l), ReplaceCall(c, t, l))
  }

  function ReplaceLabel(s: Stmt<Sym>, t: TempId, l: Label): Stmt<Sym> {
    match s
    case Let(k, bl, x, rhs, body) => Let(ReplaceIn(k, t, l), ReplaceIn(bl, t, l), x, ReplaceRhs(rhs, t, l), ReplaceLabel(body, t, l))
    case Assign(k, r, e) => Assign(ReplaceIn(k, t, l), ReplaceRef(r, t, l), ReplaceExpr(e, t, l))
    case Perform(k, c) => Perform(ReplaceIn(k, t, l), ReplaceCall(c, t, l))
    case Return(k, e) => Return(ReplaceIn(k, t, l), ReplaceExpr(e, t, l))
    case If(k, cond, a, b) => If(ReplaceIn(k, t, l), ReplaceExpr(cond, t, l), ReplaceLabel(a, t, l), ReplaceLabel(b, t, l))
    case While(k, cond, body, n) => While(ReplaceIn(k, t, l), ReplaceExpr(cond, t, l), ReplaceLabel(body, t, l), n)
    case Skip(k) => Skip(ReplaceIn(k, t, l))
    case Seq(k, a, b) => Seq(ReplaceIn(k, t, l), ReplaceLabel(a, t, l), ReplaceLabel(b, t, l))
  }

  function ReplaceEach(s: Stmt<Sym>, ts: seq<TempId>, l: Label): Stmt<Sym>
    decreases ts
  {
    if ts == [] then s else ReplaceEach(ReplaceLabel(s, ts[0], l), ts[1..], l)
  }

  // --- inference ---

  /** One round per label, weakest first, each rewriting the program as it goes. */
  function InferHelper(labels: seq<Label>, s: Stmt<Sym>, cs: seq<Constraint>): Option<Stmt<Sym>>
    decreases labels
  {
    if labels == [] then Some(s)
    else
      var r := ReplaceAllLessThan(labels[0], Sort(cs));
      if r.None? then None
      else InferHelper(labels[1..], ReplaceEach(s, r.value.replaced, labels[0]), r.value.cs)
  }

  /** `labels` are the program's known labels, weakest first. */
  function InferLabels(labels: seq<Label>, s: Stmt<Sym>): Option<Stmt<Sym>> {
    var cs := Collapse(Collect(Con(TOP), s));
    if cs.None? then None else InferHelper(labels, s, Minimize(cs.value))
  }

  /** The program with every label evaluated under a labelling. */
  function InstRef(sigma: Assignment, r: Ref<Sym>): Ref<Label> {
    Ref(Value(sigma, r.l), r.x)
  }

  function InstRefs(sigma: Assignment, rs: seq<Ref<Sym>>): seq<Ref<Label>> {
    if rs == [] then [] else [InstRef(sigma, rs[0])] + InstRefs(sigma, rs[1..])
  }

  function InstCall(sigma: Assignment, c: Invoke<Sym>): Invoke<Label> {
    Invoke(c.handleLabel, c.name, InstRef(sigma, c.handle), InstRefs(sigma, c.args))
  }

  function InstExpr(sigma: Assignment, e: Expr<Sym>): Expr<Label> {
    match e
    case Const(i) => Const(i)
    case Var(r) => Var(InstRef(sigma, r))
    case Bin(l, op, a, b) => Bin(Value(sigma, l), op, InstExpr(sigma, a), InstExpr(sigma, b))
  }

  function InstRhs(sigma: Assignment, r: Rhs<Sym>): Rhs<Label> {
    match r
    case Pure(e) => Pure(InstExpr(sigma, e))
    case Remote(l, c) => Remote(Value(sigma, l), InstCall(sigma, c))
  }

  function Instantiate(sigma: Assignment, s: Stmt<Sym>): Stmt<Label> {
    match s
    case Let(l, bl, x, rhs, body) => Let(Value(sigma, l), Value(sigma, bl), x, InstRhs(sigma, rhs), Instantiate(sigma, body))
    case Assign(l, r, e) => Assign(Value(sigma, l), InstRef(sigma, r), InstExpr(sigma, e))
    case Perform(l, c) => Perform(Value(sigma, l), InstCall(sigma, c))
    case Return(l, e) => Return(Value(sigma, l), InstExpr(sigma, e))
    case If(l, cond, a, b) => If(Value(sigma, l), InstExpr(sigma, cond), Instantiate(sigma, a), Instantiate(sigma, b))
    case While(l, cond, body, n) => While(Value(sigma, l), InstExpr(sigma, cond), Instantiate(sigma, body), n)
    case Skip(l) => Skip(Value(sigma, l))
    case Seq(l, a, b) => Seq(Value(sigma, l), Instantiate(sigma, a), Instantiate(sigma, b))
  }
}
