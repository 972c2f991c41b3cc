/** Labels before inference, and flow constraints between them. */
module Symbolic {
  import opened Labels
  import opened Syntax

  datatype TempId = TempId(seqnum: int, depth: int)

  /** A label that is known, still to be inferred, or the weaker of two others. */
  datatype Sym = Con(c: Label) | Temp(t: TempId) | Min(a: Sym, b: Sym)

  type Assignment = TempId -> Label

  function Value(sigma: Assignment, s: Sym): Label {
    match s
    case Con(c) => c
    case Temp(t) => sigma(t)
    case Min(a, b) => MinOf(Value(sigma, a), Value(sigma, b))
  }

  function Temps(s: Sym): set<TempId> {
    match s
    case Con(_) => {}
    case Temp(t) => {t}
    case Min(a, b) => Temps(a) + Temps(b)
  }

  function Concretes(s: Sym): set<Label> {
    match s
    case Con(c) => {c}
    case Temp(_) => {}
    case Min(a, b) => Concretes(a) + Concretes(b)
  }

  /** A minimum is computed as soon as both its parts are known. */
  function Resolve(a: Sym, b: Sym): Sym {
    if a.Con? && b.Con? then Con(MinOf(a.c, b.c)) else Min(a, b)
  }

  /** `bottom` absorbs, even against a label that is not known yet. */
  function ResolvedMin(a: Sym, b: Sym): Sym {
    if a == Con(BOTTOM) || b == Con(BOTTOM) then Con(BOTTOM) else Resolve(a, b)
  }

  lemma ResolvedMinValue(sigma: Assignment, a: Sym, b: Sym)
    ensures Value(sigma, ResolvedMin(a, b)) == MinOf(Value(sigma, a), Value(sigma, b))
  {
  }

  /** No minimum of two known labels is left unevaluated. */
  predicate Reduced(s: Sym) {
    s.Min? ==> Reduced(s.a) && Reduced(s.b) && !(s.a.Con? && s.b.Con?)
  }

  /** `bottom` is in no minimum. */
  predicate Absorbed(s: Sym) {
    s.Min? ==> Absorbed(s.a) && Absorbed(s.b) && s.a != Con(BOTTOM) && s.b != Con(BOTTOM)
  }

  function ReplaceIn(s: Sym, t: TempId, l: Label): Sym {
    match s
    case Con(_) => s
    case Temp(u) => if u == t then Con(l) else s
    case Min(a, b) => Resolve(ReplaceIn(a, t, l), ReplaceIn(b, t, l))
  }

  lemma {:induction false} ReplaceInValue(sigma: Assignment, s: Sym, t: TempId, l: Label)
    requires sigma(t) == l
    ensures Value(sigma, ReplaceIn(s, t, l)) == Value(sigma, s)
  {
    if s.Min? {
      ReplaceInValue(sigma, s.a, t, l);
      ReplaceInValue(sigma, s.b, t, l);
    }
  }

  lemma {:induction false} ReplaceInReduced(s: Sym, t: TempId, l: Label)
    requires Reduced(s)
    ensures Reduced(ReplaceIn(s, t, l)) && Temps(ReplaceIn(s, t, l)) == Temps(s) - {t}
  {
    if s.Min? {
      ReplaceInReduced(s.a, t, l);
      ReplaceInReduced(s.b, t, l);
    }
  }

  lemma {:induction false} ReducedKnown(s: Sym)
    requires Reduced(s) && Temps(s) == {}
    ensures s.Con?
  {
    if s.Min? {
      ReducedKnown(s.a);
      ReducedKnown(s.b);
    }
  }

  function ExprLabel(e: Expr<Sym>): Sym {
    match e
    case Const(_) => Con(TOP)
    case Var(r) => r.l
    case Bin(l, _, _, _) => l
  }

  function RhsLabel(r: Rhs<Sym>): Sym {
    match r
    case Pure(e) => ExprLabel(e)
    case Remote(l, _) => l
  }

  datatype Constraint = Constraint(high: Sym, low: Sym)

  predicate Sat(sigma: Assignment, c: Constraint) {
    FlowsTo(Value(sigma, c.high), Value(sigma, c.low))
  }

  ghost predicate SatAll(sigma: Assignment, cs: seq<Constraint>) {
    forall c | c in cs :: Sat(sigma, c)
  }
}
