/** Naming loop counters, just before a program is split. */
module NameLoops {
  import opened Labels
  import opened Syntax
  import opened Symbolic
  import opened Typecheck
  import opened Inference
  import W = WellLabelled

  predicate IsList<L>(s: Stmt<L>) {
    s.Seq? || s.Skip?
  }

  /** A loop is named by its place in the innermost list around it and by how many loops it lies
      in. A list inside a statement is numbered from the place of that statement on. */
  function NameIn<L>(seqnum: int, depth: int, s: Stmt<L>): Stmt<L>
    decreases s, if IsList(s) then 2 else 0
  {
    match s
    case Let(l, bl, x, rhs, body) => Let(l, bl, x, rhs, NameIn(seqnum, depth, body))
    case If(l, cond, a, b) => If(l, cond, NameIn(seqnum, depth, a), NameIn(seqnum, depth, b))
    case While(l, cond, body, _) => While(l, cond, NameIn(seqnum, depth + 1, body), Loop(seqnum, depth))
    case Seq(_, _, _) => NameList(seqnum + 1, depth, s)
    case _ => s
  }

  function NameList<L>(seqnum: int, depth: int, s: Stmt<L>): Stmt<L>
    decreases s, 1
  {
    match s
    case Seq(l, a, b) => Seq(l, NameIn(seqnum, depth, a), NameList(seqnum + 1, depth, b))
    case Skip(_) => s
    case _ => NameIn(seqnum, depth, s)
  }

  function Named<L>(s: Stmt<L>): Stmt<L> {
    NameIn(1, 1, s)
  }

  // --- naming leaves everything else alone ---

  /** Equal up to the names of loops. */
  predicate SameButLoops<L(==)>(s: Stmt<L>, t: Stmt<L>) {
    match s
    case Let(l, bl, x, rhs, body) => t.Let? && t.l == l && t.bl == bl && t.x == x && t.rhs == rhs && SameButLoops(body, t.body)
    case If(l, cond, a, b) => t.If? && t.l == l && t.cond == cond && SameButLoops(a, t.thn) && SameButLoops(b, t.els)
    case While(l, cond, body, _) => t.While? && t.l == l && t.cond == cond && SameButLoops(body, t.body)
    case Seq(l, a, b) => t.Seq? && t.l == l && SameButLoops(a, t.first) && SameButLoops(b, t.rest)
    case _ => t == s
  }

  lemma {:induction false} NamedIs<L>(seqnum: int, depth: int, s: Stmt<L>)
    ensures SameButLoops(s, NameIn(seqnum, depth, s)) && SameButLoops(s, NameList(seqnum, depth, s))
    decreases s
  {
    match s
    case Let(_, _, _, _, body) => NamedIs(seqnum, depth, body);
    case If(_, _, a, b) =>
      NamedIs(seqnum, depth, a);
      NamedIs(seqnum, depth, b);
    case While(_, _, body, _) => NamedIs(seqnum, depth + 1, body);
    case Seq(_, a, b) =>
      NamedIs(seqnum, depth, a);
      NamedIs(seqnum + 1, depth, a);
      NamedIs(seqnum + 1, depth, b);
      NamedIs(seqnum + 2, depth, b);
    case _ =>
  }

  /** The checker and the collector of constraints do not look at loop names: checking a program
      and then naming its loops is the same as checking the named program. */
  lemma {:induction false} CheckNamed(place: int, loops: int, list: bool, seqnum: int, depth: int, scope: Scope, pc: Sym, s: Stmt<()>)
    requires Check(seqnum, depth, scope, pc, s).Some?
    ensures var t := if list then NameList(place, loops, s) else NameIn(place, loops, s);
            var c := Check(seqnum, depth, scope, pc, s).value;
            Check(seqnum, depth, scope, pc, t) == Some(if list then NameList(place, loops, c) else NameIn(place, loops, c))
    decreases s
  {
    match s
    case Let(_, _, x, _, body) => CheckNamed(place, loops, false, seqnum + 1, depth + 1, scope[x := Temp(TempId(seqnum, depth))], pc, body);
    case If(_, cond, a, b) =>
      var inner := ResolvedMin(ExprLabel(CheckExpr(scope, cond).value), pc);
      CheckNamed(place, loops, false, seqnum + 1, depth + 1, scope, inner, a);
      CheckNamed(place, loops, false, seqnum + 2, depth + 1, scope, inner, b);
    case While(_, cond, body, _) =>
      CheckNamed(place, loops + 1, false, seqnum + 1, depth + 1, scope, ResolvedMin(ExprLabel(CheckExpr(scope, cond).value), pc), body);
    case Seq(_, a, b) =>
      var at := if list then place else place + 1;
      CheckNamed(at, loops, false, seqnum, depth, scope, pc, a);
      CheckNamed(at + 1, loops, true, seqnum + 1, depth, scope, pc, b);
    case _ =>
  }

  lemma {:induction false} CollectNamed(s: Stmt<Sym>, t: Stmt<Sym>, pc: Sym)
    requires SameButLoops(s, t)
    ensures Collect(pc, t) == Collect(pc, s)
    decreases s
  {
    match s
    case Let(_, _, _, _, body) => CollectNamed(body, t.body, pc);
    case If(l, _, a, b) =>
      CollectNamed(a, t.thn, Min(pc, l));
      CollectNamed(b, t.els, Min(pc, l));
    case While(l, _, body, _) => CollectNamed(body, t.body, Min(pc, l));
    case Seq(_, a, b) =>
      CollectNamed(a, t.first, pc);
      CollectNamed(b, t.rest, pc);
    case _ =>
  }

  lemma {:induction false} InstantiateNamed(sigma: Assignment, place: int, loops: int, list: bool, s: Stmt<Sym>)
    ensures (if list then NameList(place, loops, Instantiate(sigma, s)) else NameIn(place, loops, Instantiate(sigma, s)))
         == Instantiate(sigma, if list then NameList(place, loops, s) else NameIn(place, loops, s))
    decreases s
  {
    match s
    case Let(_, _, _, _, body) => InstantiateNamed(sigma, place, loops, false, body);
    case If(_, _, a, b) =>
      InstantiateNamed(sigma, place, loops, false, a);
      InstantiateNamed(sigma, place, loops, false, b);
    case While(_, _, body, _) => InstantiateNamed(sigma, place, loops + 1, false, body);
    case Seq(_, a, b) =>
      var at := if list then place else place + 1;
      InstantiateNamed(sigma, at, loops, false, a);
      InstantiateNamed(sigma, at + 1, loops, true, b);
    case _ =>
  }

  // --- when names are distinct ---

  /** Loops that are not inside another list of the statement. */
  predicate Bare<L>(s: Stmt<L>) {
    match s
    case Let(_, _, _, _, body) => Bare(body)
    case If(_, _, a, b) => Bare(a) && Bare(b)
    case Seq(_, _, _) => W.Loops(s) == {}
    case _ => true
  }

  /** No loop lies in another, and in every list only the last statement that holds a loop may
      hold it in a list of its own. */
  predicate Tidy<L>(s: Stmt<L>) {
    match s
    case Let(_, _, _, _, body) => Tidy(body)
    case If(_, _, a, b) => Tidy(a) && Tidy(b)
    case While(_, _, body, _) => W.Loops(body) == {}
    case Seq(_, a, b) => Tidy(a) && Tidy(b) && (Bare(a) || W.Loops(b) == {})
    case _ => true
  }

  lemma {:induction false} NamesFrom<L>(seqnum: int, depth: int, list: bool, s: Stmt<L>)
    requires Tidy(s)
    ensures var t := if list then NameList(seqnum, depth, s) else NameIn(seqnum, depth, s);
            && (W.Loops(s) == {} ==> W.Loops(t) == {})
            && (forall n | n in W.Loops(t) :: n.depth == depth && n.seqnum >= seqnum)
            && (Bare(s) && !list ==> W.Loops(t) <= {Loop(seqnum, depth)})
    decreases s
  {
    match s
    case Let(_, _, _, _, body) => NamesFrom(seqnum, depth, false, body);
    case If(_, _, a, b) =>
      NamesFrom(seqnum, depth, false, a);
      NamesFrom(seqnum, depth, false, b);
    case While(_, _, body, _) =>
      LooplessTidy(body);
      NamesFrom(seqnum, depth + 1, false, body);
    case Seq(_, a, b) =>
      var at := if list then seqnum else seqnum + 1;
      NamesFrom(at, depth, false, a);
      NamesFrom(at + 1, depth, true, b);
    case _ =>
  }

  lemma {:induction false} LooplessTidy<L>(s: Stmt<L>)
    requires W.Loops(s) == {}
    ensures Tidy(s) && Bare(s)
  {
    match s
    case Let(_, _, _, _, body) => LooplessTidy(body);
    case If(_, _, a, b) =>
      LooplessTidy(a);
      LooplessTidy(b);
    case Seq(_, a, b) =>
      LooplessTidy(a);
      LooplessTidy(b);
    case _ =>
  }

  /** Naming gives a tidy program counters that no run reuses. */
  lemma {:induction false} TidyNamesOnce(sig: W.Sig, weakest: Label, seqnum: int, depth: int, list: bool, s: Stmt<Label>)
    requires Tidy(s)
    ensures W.LoopsOnce(sig, weakest, if list then NameList(seqnum, depth, s) else NameIn(seqnum, depth, s))
    decreases s
  {
    match s
    case Let(_, _, _, _, body) => TidyNamesOnce(sig, weakest, seqnum, depth, false, body);
    case If(_, _, a, b) =>
      TidyNamesOnce(sig, weakest, seqnum, depth, false, a);
      TidyNamesOnce(sig, weakest, seqnum, depth, false, b);
    case While(_, _, body, _) =>
      LooplessTidy(body);
      TidyNamesOnce(sig, weakest, seqnum, depth + 1, false, body);
      NamesFrom(seqnum, depth + 1, false, body);
    case Seq(_, a, b) =>
      var at := if list then seqnum else seqnum + 1;
      TidyNamesOnce(sig, weakest, at, depth, false, a);
      TidyNamesOnce(sig, weakest, at + 1, depth, true, b);
      NamesFrom(at, depth, false, a);
      NamesFrom(at + 1, depth, true, b);
    case _ =>
  }

  // --- names of nested loops ---

  /** The counter of every loop says how many loops, counted from `depth`, it lies in. */
  predicate Deepening<L>(depth: int, s: Stmt<L>)
    decreases s
  {
    match s
    case Let(_, _, _, _, body) => Deepening(depth, body)
    case If(_, _, a, b) => Deepening(depth, a) && Deepening(depth, b)
    case While(_, _, body, n) => n.depth == depth && Deepening(depth + 1, body)
    case Seq(_, a, b) => Deepening(depth, a) && Deepening(depth, b)
    case _ => true
  }

  /** No loop has the counter of a loop inside it. */
  predicate NestedDiffer<L>(s: Stmt<L>) {
    match s
    case Let(_, _, _, _, body) => NestedDiffer(body)
    case If(_, _, a, b) => NestedDiffer(a) && NestedDiffer(b)
    case While(_, _, body, n) => n !in W.Loops(body) && NestedDiffer(body)
    case Seq(_, a, b) => NestedDiffer(a) && NestedDiffer(b)
    case _ => true
  }

  lemma {:induction false} NamedDeepens<L>(seqnum: int, depth: int, s: Stmt<L>)
    ensures Deepening(depth, NameIn(seqnum, depth, s)) && Deepening(depth, NameList(seqnum, depth, s))
    decreases s
  {
    match s
    case Let(_, _, _, _, body) => NamedDeepens(seqnum, depth, body);
    case If(_, _, a, b) =>
      NamedDeepens(seqnum, depth, a);
      NamedDeepens(seqnum, depth, b);
    case While(_, _, body, _) => NamedDeepens(seqnum, depth + 1, body);
    case Seq(_, a, b) =>
      NamedDeepens(seqnum, depth, a);
      NamedDeepens(seqnum + 1, depth, a);
      NamedDeepens(seqnum + 1, depth, b);
      NamedDeepens(seqnum + 2, depth, b);
    case _ =>
  }

  lemma {:induction false} DeepeningDiffers<L>(depth: int, s: Stmt<L>)
    requires Deepening(depth, s)
    ensures NestedDiffer(s) && forall n | n in W.Loops(s) :: n.depth >= depth
    decreases s
  {
    match s
    case Let(_, _, _, _, body) => DeepeningDiffers(depth, body);
    case If(_, _, a, b) =>
      DeepeningDiffers(depth, a);
      DeepeningDiffers(depth, b);
    case While(_, _, body, _) => DeepeningDiffers(depth + 1, body);
    case Seq(_, a, b) =>
      DeepeningDiffers(depth, a);
      DeepeningDiffers(depth, b);
    case _ =>
  }

  /** Naming never gives two loops, one inside the other, the same counter. */
  lemma NamedNestedDiffer<L>(s: Stmt<L>)
    ensures NestedDiffer(Named(s))
  {
    NamedDeepens(1, 1, s);
    DeepeningDiffers(1, Named(s));
  }
}
