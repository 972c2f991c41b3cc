/** From a parsed program to its phases. */
module EndToEnd {
  import opened Labels
  import opened Syntax
  import opened Semantics
  import opened PhaseRun
  import opened Symbolic
  import opened Typecheck
  import opened Inference
  import opened InferenceCorrect
  import opened TypecheckCorrect
  import opened Flatten
  import opened FlattenCorrect
  import opened DesugarCorrect
  import opened NameLoops
  import opened Compile
  import opened Phases
  import R = Returns
  import F = Flows
  import S = Splitter
  import N = Noninterference
  import W = WellLabelled

  // --- labels and loop names do not matter to a run ---

  /** The program without labels and loop names. */
  function Plain<L>(s: Stmt<L>): Stmt<()> {
    match s
    case Let(_, _, x, rhs, body) => Let((), (), x, StripRhs(rhs), Plain(body))
    case If(_, cond, a, b) => If((), StripExpr(cond), Plain(a), Plain(b))
    case While(_, cond, body, _) => While((), StripExpr(cond), Plain(body), Loop(0, 0))
    case Seq(_, a, b) => Seq((), Plain(a), Plain(b))
    case _ => StripStmt(s)
  }

  ghost predicate SameButCounters(w: World, v: World) {
    w.hist == v.hist && w.remote == v.remote && w.ret == v.ret
  }

  ghost predicate SameRun(a: Outcome<World>, b: Outcome<World>) {
    match a
    case Done(w) => b.Done? && SameButCounters(w, b.s)
    case Fault => b.Fault?
    case Timeout => b.Timeout?
  }

  lemma {:induction false} EvalPlain<L>(e: Expr<L>, rd: Reader)
    ensures Eval(StripExpr(e), rd) == Eval(e, rd)
  {
    if e.Bin? {
      EvalPlain(e.left, rd);
      EvalPlain(e.right, rd);
    }
  }

  lemma {:induction false} EvalRefsPlain<L>(rs: seq<Ref<L>>, rd: Reader)
    ensures EvalRefs(StripRefs(rs), rd) == EvalRefs(rs, rd)
  {
    if rs != [] { EvalRefsPlain(rs[1..], rd); }
  }

  lemma ValuePlain<L>(e: Expr<L>, env: Env, w: World, v: World)
    requires SameButCounters(w, v)
    ensures Eval(StripExpr(e), Reads(env, v)) == Eval(e, Reads(env, w))
  {
    EvalPlain(e, Reads(env, v));
    EvalAgree(e, Reads(env, w), Reads(env, v));
  }

  lemma EventPlain<L>(c: Invoke<L>, env: Env, w: World, v: World)
    requires SameButCounters(w, v)
    ensures EventOf(StripCall(c), Reads(env, v)) == EventOf(c, Reads(env, w))
  {
    EvalRefsPlain(c.args, Reads(env, v));
    RefsAgree(c.args, Reads(env, w), Reads(env, v));
  }

  lemma {:induction false} ExecPlain<L>(s: Stmt<L>, env: Env, w: World, v: World, fuel: nat)
    requires SameButCounters(w, v)
    ensures SameRun(Exec(s, env, w, fuel), Exec(Plain(s), env, v, fuel))
    decreases fuel, s, 1
  {
    match s
    case Let(_, _, x, rhs, body) =>
      match rhs {
        case Pure(e) => ValuePlain(e, env, w, v);
        case Remote(_, c) => EventPlain(c, env, w, v);
      }
      var a, b := ExecRhs(rhs, env, w), ExecRhs(StripRhs(rhs), env, v);
      if a.Some? { ExecPlain(body, env, Write(a.value.0, x, a.value.1), Write(b.value.0, x, b.value.1), fuel); }
    case Assign(_, _, e) => ValuePlain(e, env, w, v);
    case Perform(_, c) => EventPlain(c, env, w, v);
    case Return(_, e) => ValuePlain(e, env, w, v);
    case If(_, cond, a, b) =>
      ValuePlain(cond, env, w, v);
      ExecPlain(a, env, w, v, fuel);
      ExecPlain(b, env, w, v, fuel);
    case While(_, _, _, n) =>
      IteratePlain(s, env, w.(loops := w.loops[n := 0]), v.(loops := v.loops[Loop(0, 0) := 0]), 0, fuel);
    case Skip(_) =>
    case Seq(_, a, b) =>
      ExecPlain(a, env, w, v, fuel);
      var o, p := Exec(a, env, w, fuel), Exec(Plain(a), env, v, fuel);
      if o.Done? { ExecPlain(b, env, o.s, p.s, fuel); }
  }

  lemma {:induction false} IteratePlain<L>(s: Stmt<L>, env: Env, w: World, v: World, i: nat, fuel: nat)
    requires s.While? && SameButCounters(w, v)
    ensures SameRun(Iterate(s, env, w, i, fuel), Iterate(Plain(s), env, v, i, fuel))
    decreases fuel, s, 0
  {
    ValuePlain(s.cond, env, w, v);
    var c := Eval(s.cond, Reads(env, w));
    if c.Some? && c.value != 0 && fuel > 0 {
      var w1, v1 := w.(loops := w.loops[s.name := i + 1]), v.(loops := v.loops[Loop(0, 0) := i + 1]);
      ExecPlain(s.body, env, w1, v1, fuel - 1);
      var o, p := Exec(s.body, env, w1, fuel - 1), Exec(Plain(s.body), env, v1, fuel - 1);
      if o.Done? { IteratePlain(s, env, o.s, p.s, i + 1, fuel - 1); }
    }
  }

  /** Programs that differ only in labels and loop names have the same runs. */
  lemma PlainRuns<L, M>(s: Stmt<L>, t: Stmt<M>, env: Env, w: World, fuel: nat)
    requires Plain(s) == Plain(t)
    ensures SameRun(Exec(s, env, w, fuel), Exec(t, env, w, fuel))
  {
    ExecPlain(s, env, w, w, fuel);
    ExecPlain(t, env, w, w, fuel);
  }

  // --- the front end keeps the plain program ---

  lemma {:induction false} CheckExprStrip(sigma: Assignment, scope: Scope, e: Expr<()>)
    requires CheckExpr(scope, e).Some?
    ensures StripExpr(InstExpr(sigma, CheckExpr(scope, e).value)) == e
  {
    match e
    case Const(_) =>
    case Var(r) => assert r.l == ();
    case Bin(l, _, a, b) =>
      assert l == ();
      CheckExprStrip(sigma, scope, a);
      CheckExprStrip(sigma, scope, b);
  }

  lemma {:induction false} CheckRefsStrip(sigma: Assignment, scope: Scope, rs: seq<Ref<()>>)
    requires CheckRefs(scope, rs).Some?
    ensures StripRefs(InstRefs(sigma, CheckRefs(scope, rs).value)) == rs
  {
    if rs != [] {
      CheckRefsStrip(sigma, scope, rs[1..]);
      assert CheckRefs(scope, rs).value[1..] == CheckRefs(scope, rs[1..]).value;
      var r := InstRefs(sigma, CheckRefs(scope, rs).value);
      assert r[1..] == InstRefs(sigma, CheckRefs(scope, rs[1..]).value);
      assert rs[0].l == ();
    }
  }

  lemma CheckCallStrip(sigma: Assignment, scope: Scope, c: Invoke<()>)
    requires CheckCall(scope, c).Some?
    ensures StripCall(InstCall(sigma, CheckCall(scope, c).value)) == c
  {
    CheckRefsStrip(sigma, scope, c.args);
    assert c.handle.l == ();
  }

  lemma CheckRhsStrip(sigma: Assignment, scope: Scope, pc: Sym, r: Rhs<()>)
    requires CheckRhs(scope, pc, r).Some?
    ensures StripRhs(InstRhs(sigma, CheckRhs(scope, pc, r).value)) == r
  {
    match r
    case Pure(e) => CheckExprStrip(sigma, scope, e);
    case Remote(l, c) =>
      assert l == ();
      CheckCallStrip(sigma, scope, c);
  }

  /** Checking and inference only add labels. */
  lemma {:induction false} CheckStrip(sigma: Assignment, seqnum: int, depth: int, scope: Scope, pc: Sym, s: Stmt<()>)
    requires Check(seqnum, depth, scope, pc, s).Some?
    ensures StripStmt(Instantiate(sigma, Check(seqnum, depth, scope, pc, s).value)) == s
    decreases s
  {
    assert s.l == ();
    match s
    case Let(_, bl, x, rhs, body) =>
      assert bl == ();
      CheckRhsStrip(sigma, scope, pc, rhs);
      CheckStrip(sigma, seqnum + 1, depth + 1, scope[x := Temp(TempId(seqnum, depth))], pc, body);
    case Assign(_, r, e) =>
      assert r.l == ();
      CheckExprStrip(sigma, scope, e);
    case Perform(_, c) => CheckCallStrip(sigma, scope, c);
    case Return(_, e) => CheckExprStrip(sigma, scope, e);
    case If(_, cond, a, b) =>
      CheckExprStrip(sigma, scope, cond);
      var inner := ResolvedMin(ExprLabel(CheckExpr(scope, cond).value), pc);
      CheckStrip(sigma, seqnum + 1, depth + 1, scope, inner, a);
      CheckStrip(sigma, seqnum + 2, depth + 1, scope, inner, b);
    case While(_, cond, body, _) =>
      CheckExprStrip(sigma, scope, cond);
      CheckStrip(sigma, seqnum + 1, depth + 1, scope, ResolvedMin(ExprLabel(CheckExpr(scope, cond).value), pc), body);
    case Skip(_) =>
    case Seq(_, a, b) =>
      CheckStrip(sigma, seqnum, depth, scope, pc, a);
      CheckStrip(sigma, seqnum + 1, depth, scope, pc, b);
  }

  lemma {:induction false} StripRefsTwice<L>(rs: seq<Ref<L>>)
    ensures StripRefs(StripRefs(rs)) == StripRefs(rs)
  {
    if rs != [] { StripRefsTwice(rs[1..]); }
  }

  lemma {:induction false} StripExprTwice<L>(e: Expr<L>)
    ensures StripExpr(StripExpr(e)) == StripExpr(e)
  {
    if e.Bin? {
      StripExprTwice(e.left);
      StripExprTwice(e.right);
    }
  }

  lemma StripRhsTwice<L>(r: Rhs<L>)
    ensures StripRhs(StripRhs(r)) == StripRhs(r)
  {
    match r
    case Pure(e) => StripExprTwice(e);
    case Remote(_, c) => StripRefsTwice(c.args);
  }

  lemma {:induction false} PlainStrip<L>(q: Stmt<L>)
    ensures Plain(StripStmt(q)) == Plain(q)
  {
    match q
    case Let(_, _, _, rhs, body) =>
      StripRhsTwice(rhs);
      PlainStrip(body);
    case Assign(_, _, e) => StripExprTwice(e);
    case Perform(_, c) => StripRefsTwice(c.args);
    case Return(_, e) => StripExprTwice(e);
    case If(_, cond, a, b) =>
      StripExprTwice(cond);
      PlainStrip(a);
      PlainStrip(b);
    case While(_, cond, body, _) =>
      StripExprTwice(cond);
      PlainStrip(body);
    case Skip(_) =>
    case Seq(_, a, b) =>
      PlainStrip(a);
      PlainStrip(b);
  }

  lemma {:induction false} SameButLoopsPlain<L>(s: Stmt<L>, t: Stmt<L>)
    requires SameButLoops(s, t)
    ensures Plain(s) == Plain(t)
  {
    match s
    case Let(_, _, _, _, body) => SameButLoopsPlain(body, t.body);
    case If(_, _, a, b) =>
      SameButLoopsPlain(a, t.thn);
      SameButLoopsPlain(b, t.els);
    case While(_, _, body, _) => SameButLoopsPlain(body, t.body);
    case Seq(_, a, b) =>
      SameButLoopsPlain(a, t.first);
      SameButLoopsPlain(b, t.rest);
    case _ =>
  }

  // --- desugaring and flattening keep the arrangement of loops ---

  lemma {:induction false} DesugarTidy(seqnum: int, depth: int, s: Stmt<()>)
    ensures var t := DesugarWhile(seqnum, depth, s); W.Loops(t) == W.Loops(s) && Bare(t) == Bare(s) && Tidy(t) == Tidy(s)
    decreases s
  {
    match s
    case Let(_, _, _, _, body) => DesugarTidy(seqnum, depth + 1, body);
    case If(_, _, a, b) =>
      DesugarTidy(seqnum, depth + 1, a);
      DesugarTidy(seqnum + 1, depth + 1, b);
    case While(_, _, body, _) =>
      DesugarTidy(seqnum, depth + 1, body);
      assert W.Loops(Inner(seqnum, depth, s).body) == W.Loops(body);
    case Seq(_, a, b) =>
      DesugarTidy(seqnum, depth, a);
      DesugarTidy(seqnum + 1, depth, b);
    case _ =>
  }

  lemma {:induction false} FlattenTidy(seqnum: int, depth: int, s: Stmt<()>)
    ensures var t := FlattenExprs(seqnum, depth, s); W.Loops(t) == W.Loops(s) && Bare(t) == Bare(s) && Tidy(t) == Tidy(s)
    decreases DEPTH_LIMIT - depth, s
  {
    if depth >= DEPTH_LIMIT {
    } else if !FlatHeader(s) {
      FlattenTidy(seqnum, depth + 1, Partial(Anorm(seqnum, depth), s));
    } else {
      match s
      case Let(_, _, _, _, body) => FlattenTidy(seqnum, depth + 1, body);
      case If(_, _, a, b) =>
        FlattenTidy(seqnum, depth + 1, a);
        FlattenTidy(seqnum + 1, depth + 1, b);
      case While(_, _, body, _) => FlattenTidy(seqnum, depth + 1, body);
      case Seq(_, a, b) =>
        FlattenTidy(seqnum, depth, a);
        FlattenTidy(seqnum + 1, depth, b);
      case _ =>
    }
  }

  lemma {:induction false} InstantiateTidy(sigma: Assignment, seqnum: int, depth: int, scope: Scope, pc: Sym, s: Stmt<()>)
    requires Check(seqnum, depth, scope, pc, s).Some?
    ensures var t := Instantiate(sigma, Check(seqnum, depth, scope, pc, s).value);
            W.Loops(t) == W.Loops(s) && Bare(t) == Bare(s) && Tidy(t) == Tidy(s)
    decreases s
  {
    match s
    case Let(_, _, x, rhs, body) =>
      InstantiateTidy(sigma, seqnum + 1, depth + 1, scope[x := Temp(TempId(seqnum, depth))], pc, body);
    case If(_, cond, a, b) =>
      var inner := ResolvedMin(ExprLabel(CheckExpr(scope, cond).value), pc);
      InstantiateTidy(sigma, seqnum + 1, depth + 1, scope, inner, a);
      InstantiateTidy(sigma, seqnum + 2, depth + 1, scope, inner, b);
    case While(_, cond, body, _) =>
      InstantiateTidy(sigma, seqnum + 1, depth + 1, scope, ResolvedMin(ExprLabel(CheckExpr(scope, cond).value), pc), body);
    case Seq(_, a, b) =>
      InstantiateTidy(sigma, seqnum, depth, scope, pc, a);
      InstantiateTidy(sigma, seqnum + 1, depth, scope, pc, b);
    case _ =>
  }

  // --- they keep the places of returns ---

  lemma {:induction false} DesugarReturns(seqnum: int, depth: int, s: Stmt<()>)
    ensures var t := DesugarWhile(seqnum, depth, s); R.HasReturn(t) == R.HasReturn(s) && R.ReturnsLast(t) == R.ReturnsLast(s)
    decreases s
  {
    match s
    case Let(_, _, _, _, body) => DesugarReturns(seqnum, depth + 1, body);
    case If(_, _, a, b) =>
      DesugarReturns(seqnum, depth + 1, a);
      DesugarReturns(seqnum + 1, depth + 1, b);
    case While(_, _, body, _) =>
      DesugarReturns(seqnum, depth + 1, body);
      assert R.HasReturn(Inner(seqnum, depth, s).body) == R.HasReturn(body);
    case Seq(_, a, b) =>
      DesugarReturns(seqnum, depth, a);
      DesugarReturns(seqnum + 1, depth, b);
    case _ =>
  }

  lemma {:induction false} FlattenSkips(seqnum: int, depth: int, s: Stmt<()>)
    ensures FlattenExprs(seqnum, depth, s).Skip? <==> s.Skip?
    decreases DEPTH_LIMIT - depth, s
  {
    if depth < DEPTH_LIMIT && !FlatHeader(s) { FlattenSkips(seqnum, depth + 1, Partial(Anorm(seqnum, depth), s)); }
  }

  lemma {:induction false} FlattenReturns(seqnum: int, depth: int, s: Stmt<()>)
    ensures var t := FlattenExprs(seqnum, depth, s); R.HasReturn(t) == R.HasReturn(s) && R.ReturnsLast(t) == R.ReturnsLast(s)
    decreases DEPTH_LIMIT - depth, s
  {
    if depth >= DEPTH_LIMIT {
    } else if !FlatHeader(s) {
      FlattenReturns(seqnum, depth + 1, Partial(Anorm(seqnum, depth), s));
    } else {
      match s
      case Let(_, _, _, _, body) => FlattenReturns(seqnum, depth + 1, body);
      case If(_, _, a, b) =>
        FlattenReturns(seqnum, depth + 1, a);
        FlattenReturns(seqnum + 1, depth + 1, b);
      case While(_, _, body, _) => FlattenReturns(seqnum, depth + 1, body);
      case Seq(_, a, b) =>
        FlattenReturns(seqnum, depth, a);
        FlattenReturns(seqnum + 1, depth, b);
        FlattenSkips(seqnum + 1, depth, b);
      case _ =>
    }
  }

  lemma {:induction false} PlainReturns<L>(s: Stmt<L>)
    ensures R.HasReturn(Plain(s)) == R.HasReturn(s) && R.ReturnsLast(Plain(s)) == R.ReturnsLast(s)
  {
    match s
    case Let(_, _, _, _, body) => PlainReturns(body);
    case If(_, _, a, b) =>
      PlainReturns(a);
      PlainReturns(b);
    case While(_, _, body, _) => PlainReturns(body);
    case Seq(_, a, b) =>
      PlainReturns(a);
      PlainReturns(b);
    case _ =>
  }

  // --- the whole pipeline ---

  /** Flattened, checked, inferred, and its loops named: what the splitter is given. */
  function Compiled(env: Env, labels: seq<Label>, p: Stmt<()>): Option<Stmt<Label>> {
    var q := FrontEnd(env, labels, FlattenExpressions(p));
    if q.None? then None else Some(Named(q.value))
  }

  /** The passes before splitting accept the program; `labels` are its known labels. */
  ghost predicate Accepted(env: Env, labels: seq<Label>, p: Stmt<()>) {
    var c := Check(1, 1, RootScope(env), Con(TOP), FlattenExpressions(p));
    c.Some? && KnownLabels(labels, c.value) && Compiled(env, labels, p).Some?
  }

  /** The instance of a checked program that inference gives, with its loops named. */
  lemma CompiledInstance(env: Env, labels: seq<Label>, p: Stmt<()>) returns (sigma: Assignment)
    requires Accepted(env, labels, p)
    ensures var f := FlattenExpressions(p);
            var c := Check(1, 1, RootScope(env), Con(TOP), f).value;
            && SatAll(sigma, Collect(Con(TOP), c))
            && Compiled(env, labels, p).value == Named(Instantiate(sigma, c)) == Instantiate(sigma, Named(c))
            && Check(1, 1, RootScope(env), Con(TOP), Named(f)) == Some(Named(c))
  {
    var f := FlattenExpressions(p);
    var c := Check(1, 1, RootScope(env), Con(TOP), f).value;
    CheckedProgram(env, labels, f);
    InferenceIsGreatest(labels, c);
    sigma := Solution(labels, c);
    var any: Assignment := t => TOP;
    assert FrontEnd(env, labels, f).value == Instantiate(any, InferLabels(labels, c).value) == Instantiate(sigma, c);
    InstantiateNamed(sigma, 1, 1, false, c);
    CheckNamed(1, 1, false, 1, 1, RootScope(env), Con(TOP), f);
  }

  /** Every accepted program is lexically scoped and labelled as its flows demand, and is the flattened
      program with labels and loop names. */
  lemma CompiledFlows(env: Env, labels: seq<Label>, p: Stmt<()>)
    requires Accepted(env, labels, p)
    ensures var q := Compiled(env, labels, p).value;
            F.StmtFlows(env, map[], TOP, q) && Plain(q) == Plain(FlattenExpressions(p))
  {
    var f := FlattenExpressions(p);
    var c := Check(1, 1, RootScope(env), Con(TOP), f).value;
    var sigma := CompiledInstance(env, labels, p);
    NamedIs(1, 1, c);
    NamedIs(1, 1, f);
    CollectNamed(c, Named(c), Con(TOP));
    CheckFlows(env, map[], 1, 1, RootScope(env), sigma, Con(TOP), Con(TOP), Named(f));
    CheckStrip(sigma, 1, 1, RootScope(env), Con(TOP), Named(f));
    PlainStrip(Compiled(env, labels, p).value);
    SameButLoopsPlain(f, Named(f));
  }

  /** No phase of an accepted program trips an assertion of the splitter. */
  lemma AcceptedNeverTrips(env: Env, labels: seq<Label>, phases: seq<Label>, p: Stmt<()>)
    requires Accepted(env, labels, p) && Descending(phases)
    requires forall l | l in Collected(Compiled(env, labels, p).value) :: l in phases
    ensures S.SplitsCleanly(phases, env.inputs.Keys, {}, Compiled(env, labels, p).value)
  {
    CompiledFlows(env, labels, p);
    S.SplitterNeverTrips(env, phases, Compiled(env, labels, p).value);
  }

  /** Of an accepted program, two terminating runs that start alike at a label end alike at it, if no
      name is bound on both sides of the label and calls on objects at least as strong stand in
      contexts at least as strong. */
  lemma AcceptedNoninterferes(c: N.View, env: Env, labels: seq<Label>, p: Stmt<()>, w: World, v: World, w': World, v': World, f: nat, g: nat)
    requires Accepted(env, labels, p)
    requires var q := Compiled(env, labels, p).value;
             && N.Sides(c, q) && F.CallsFrom(c.l, TOP, q) && N.Alike(c, w, v)
             && Exec(q, env, w, f) == Done(w') && Exec(q, env, v, g) == Done(v')
    ensures N.Alike(c, w', v')
  {
    CompiledFlows(env, labels, p);
    N.Noninterferes(c, env, map[], TOP, Compiled(env, labels, p).value, w, v, w', v', f, g);
  }

  /** Nothing follows a return in a compiled program exactly if nothing does in the parsed one. */
  lemma CompiledReturns(env: Env, labels: seq<Label>, p: Stmt<()>)
    requires Accepted(env, labels, p)
    ensures R.ReturnsLast(Compiled(env, labels, p).value) <==> R.ReturnsLast(p)
  {
    CompiledFlows(env, labels, p);
    DesugarReturns(1, 1, p);
    FlattenReturns(1, 1, DesugarWhile(1, 1, p));
    PlainReturns(FlattenExpressions(p));
    PlainReturns(Compiled(env, labels, p).value);
  }

  /** Of a program whose compiled form passes the check of return positions, nothing follows a return
      exactly if no block with a return is followed by statements in the compiled form. Flattening puts
      a return of anything but a variable into such a block. */
  lemma CheckedReturns(env: Env, labels: seq<Label>, p: Stmt<()>)
    requires Accepted(env, labels, p) && R.Accepted(true, Compiled(env, labels, p).value)
    ensures R.ReturnsLast(p) <==> R.BlocksLast(Compiled(env, labels, p).value)
  {
    CompiledReturns(env, labels, p);
    R.AcceptedReturnsLast(Compiled(env, labels, p).value);
  }

  /** A tidy program is compiled to one whose counters no run reuses, whatever its labels. */
  lemma TidyCompiles(sig: W.Sig, weakest: Label, env: Env, labels: seq<Label>, p: Stmt<()>)
    requires Accepted(env, labels, p) && Tidy(p)
    ensures W.LoopsOnce(sig, weakest, Compiled(env, labels, p).value)
  {
    var f := FlattenExpressions(p);
    var sigma := CompiledInstance(env, labels, p);
    DesugarTidy(1, 1, p);
    FlattenTidy(1, 1, DesugarWhile(1, 1, p));
    InstantiateTidy(sigma, 1, 1, RootScope(env), Con(TOP), f);
    TidyNamesOnce(sig, weakest, 1, 1, false, Instantiate(sigma, Check(1, 1, RootScope(env), Con(TOP), f).value));
  }

  /** What is left to ask of a compiled program. */
  ghost predicate Compilable(sig: W.Sig, env: Env, labels: seq<Label>, phases: seq<Label>, p: Stmt<()>) {
    && Parsed(p) && UserInputs(env) && Accepted(env, labels, p)
    && var q := Compiled(env, labels, p).value;
       && phases != [] && Descending(phases) && (forall l | l in Collected(q) :: l in phases)
       && F.Described(sig, env, q) && F.CallsPermitted(TOP, q)
       && W.LateOnce(sig, q) && W.LoopsOnce(sig, phases[|phases| - 1], q)
  }

  lemma CompiledIs(sig: W.Sig, env: Env, labels: seq<Label>, phases: seq<Label>, p: Stmt<()>)
    requires Compilable(sig, env, labels, phases, p)
    ensures var q := Compiled(env, labels, p).value;
            Plain(q) == Plain(FlattenExpressions(p)) && Splittable(sig, env, phases, q)
  {
    CompiledFlows(env, labels, p);
    F.FlowsIsOk(sig, env, {}, map[], TOP, Compiled(env, labels, p).value);
  }

  /** The store holds what the program did: the histories of its own variables, the calls each
      remote store received, and the result. */
  ghost predicate Realizes(w: World, st: Store) {
    && (forall x :: Written(x) ==> At(st, x).log == Hist(w, x))
    && (forall k: Label :: Received(st.remote, k) == Received(w.remote, k))
    && st.ret == w.ret
  }

  /** The compiled program runs as the parsed one does. */
  lemma CompiledRuns(sig: W.Sig, env: Env, labels: seq<Label>, phases: seq<Label>, p: Stmt<()>, remote: map<Label, seq<Event>>, fuel: nat)
    requires Compilable(sig, env, labels, phases, p)
    requires Exec(p, env, Start(remote), fuel).Done?
    ensures var q := Compiled(env, labels, p).value;
            && Splittable(sig, env, phases, q)
            && Exec(q, env, Start(remote), fuel + 1).Done?
            && SameForUser(Exec(p, env, Start(remote), fuel).s, Exec(q, env, Start(remote), fuel + 1).s)
  {
    FlatteningPreservesMeaning(env, p, Start(remote), fuel);
    CompiledIs(sig, env, labels, phases, p);
    PlainRuns(FlattenExpressions(p), Compiled(env, labels, p).value, env, Start(remote), fuel + 1);
  }

  /** Compiling preserves meaning: if a parsed program in which nothing follows a return terminates, the
      phases it is compiled to terminate, run strongest first on an empty store, and do what the
      program does. */
  lemma CompilingPreservesMeaning(sig: W.Sig, env: Env, labels: seq<Label>, phases: seq<Label>, p: Stmt<()>, remote: map<Label, seq<Event>>, fuel: nat)
    requires Compilable(sig, env, labels, phases, p) && R.ReturnsLast(p)
    requires R.ExecStops(p, env, Start(remote), fuel).Done?
    ensures var r := RunPhasesStops(phases, Compiled(env, labels, p).value, env, Launch(remote), fuel + 1);
            r.Done? && Realizes(R.ExecStops(p, env, Start(remote), fuel).s, r.s)
  {
    var q := Compiled(env, labels, p).value;
    R.StopsIsExec(p, env, Start(remote), fuel);
    CompiledRuns(sig, env, labels, phases, p, remote, fuel);
    CompiledReturns(env, labels, p);
    R.StopsIsExec(q, env, Start(remote), fuel + 1);
    SplittingPreservesMeaning(sig, env, phases, q, remote, fuel + 1);
  }
}
