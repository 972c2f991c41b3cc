/** Desugaring and flattening preserve what a program does to its own variables. */
module FlattenCorrect {
  import opened Syntax
  import opened Semantics
  import opened Flatten

  // --- statements that mention no deep generated name ---

  predicate ExprBelow(d: int, e: Expr<()>) {
    forall x | x in Names(e) :: !Deep(d, x)
  }

  /** No name of the statement is one flattening may introduce at depth `d`. */
  predicate Below(d: int, s: Stmt<()>) {
    match s
    case Let(_, _, x, rhs, body) => !Deep(d, x) && (forall y | y in RhsNames(rhs) :: !Deep(d, y)) && Below(d, body)
    case Assign(_, r, e) => !Deep(d, r.x) && ExprBelow(d, e)
    case Perform(_, c) => forall y | y in CallNames(c) :: !Deep(d, y)
    case Return(_, e) => ExprBelow(d, e)
    case If(_, cond, a, b) => ExprBelow(d, cond) && Below(d, a) && Below(d, b)
    case While(_, cond, body, _) => ExprBelow(d, cond) && Below(d, body)
    case Skip(_) => true
    case Seq(_, a, b) => Below(d, a) && Below(d, b)
  }

  lemma {:induction false} BelowMore(d: int, s: Stmt<()>)
    requires Below(d, s)
    ensures Below(d + 1, s)
  {
    match s
    case Let(_, _, _, _, body) => BelowMore(d, body);
    case If(_, _, a, b) =>
      BelowMore(d, a);
      BelowMore(d, b);
    case While(_, _, body, _) => BelowMore(d, body);
    case Seq(_, a, b) =>
      BelowMore(d, a);
      BelowMore(d, b);
    case _ =>
  }

  /** The worlds differ at most in the histories of deep generated names. */
  ghost predicate Agree(d: int, w: World, v: World) {
    && (forall x :: !Deep(d, x) ==> Hist(w, x) == Hist(v, x))
    && w.loops == v.loops && w.remote == v.remote && w.ret == v.ret
  }

  ghost predicate OutcomesAgree(d: int, a: Outcome<World>, b: Outcome<World>) {
    match a
    case Done(w) => b.Done? && Agree(d, w, b.s)
    case Fault => b.Fault?
    case Timeout => b.Timeout?
  }

  lemma AgreeWrite(d: int, w: World, v: World, x: Name, i: int)
    requires Agree(d, w, v)
    ensures Agree(d, Write(w, x, i), Write(v, x, i))
  {
    forall y | !Deep(d, y) ensures Hist(Write(w, x, i), y) == Hist(Write(v, x, i), y) {
      assert Hist(w, y) == Hist(v, y);
    }
  }

  lemma AgreeTrans(d: int, u: World, v: World, w: World)
    requires Agree(d, u, v) && Agree(d, v, w)
    ensures Agree(d, u, w)
  {
  }

  lemma EvalBelow(d: int, env: Env, e: Expr<()>, w: World, v: World)
    requires Agree(d, w, v) && ExprBelow(d, e)
    ensures Eval(e, Reads(env, w)) == Eval(e, Reads(env, v))
  {
    EvalAgree(e, Reads(env, w), Reads(env, v));
  }

  lemma EventBelow(d: int, env: Env, c: Invoke<()>, w: World, v: World)
    requires Agree(d, w, v) && forall y | y in CallNames(c) :: !Deep(d, y)
    ensures EventOf(c, Reads(env, w)) == EventOf(c, Reads(env, v))
  {
    CallAgrees(c, Reads(env, w), Reads(env, v));
  }

  /** A statement does not see names it does not mention. */
  lemma {:induction false} ExecBelow(d: int, env: Env, s: Stmt<()>, w: World, v: World, fuel: nat)
    requires Agree(d, w, v) && Below(d, s)
    ensures OutcomesAgree(d, Exec(s, env, w, fuel), Exec(s, env, v, fuel))
    decreases fuel, s, 1
  {
    match s
    case Let(_, _, x, rhs, body) =>
      match rhs {
        case Pure(e) => EvalBelow(d, env, e, w, v);
        case Remote(_, c) => EventBelow(d, env, c, w, v);
      }
      var a, b := ExecRhs(rhs, env, w), ExecRhs(rhs, env, v);
      if a.Some? {
        AgreeWrite(d, a.value.0, b.value.0, x, a.value.1);
        ExecBelow(d, env, body, Write(a.value.0, x, a.value.1), Write(b.value.0, x, b.value.1), fuel);
      }
    case Assign(_, r, e) =>
      EvalBelow(d, env, e, w, v);
      if Eval(e, Reads(env, w)).Some? { AgreeWrite(d, w, v, r.x, Eval(e, Reads(env, w)).value); }
    case Perform(_, c) => EventBelow(d, env, c, w, v);
    case Return(_, e) => EvalBelow(d, env, e, w, v);
    case If(_, cond, a, b) =>
      EvalBelow(d, env, cond, w, v);
      var c := Eval(cond, Reads(env, w));
      if c.Some? { ExecBelow(d, env, if c.value != 0 then a else b, w, v, fuel); }
    case While(_, _, _, name) =>
      IterateBelow(d, env, s, w.(loops := w.loops[name := 0]), v.(loops := v.loops[name := 0]), 0, fuel);
    case Skip(_) =>
    case Seq(_, a, b) =>
      ExecBelow(d, env, a, w, v, fuel);
      if Exec(a, env, w, fuel).Done? { ExecBelow(d, env, b, Exec(a, env, w, fuel).s, Exec(a, env, v, fuel).s, fuel); }
  }

  lemma {:induction false} IterateBelow(d: int, env: Env, s: Stmt<()>, w: World, v: World, i: nat, fuel: nat)
    requires s.While? && Agree(d, w, v) && Below(d, s)
    ensures OutcomesAgree(d, Iterate(s, env, w, i, fuel), Iterate(s, env, v, i, fuel))
    decreases fuel, s, 0
  {
    EvalBelow(d, env, s.cond, w, v);
    var c := Eval(s.cond, Reads(env, w));
    if c.Some? && c.value != 0 && fuel > 0 {
      var w1, v1 := w.(loops := w.loops[s.name := i + 1]), v.(loops := v.loops[s.name := i + 1]);
      ExecBelow(d, env, s.body, w1, v1, fuel - 1);
      var a, b := Exec(s.body, env, w1, fuel - 1), Exec(s.body, env, v1, fuel - 1);
      if a.Done? { IterateBelow(d, env, s, a.s, b.s, i + 1, fuel - 1); }
    }
  }

  // --- one named operation ---

  lemma {:induction false} RemoveLayerNames(n: Name, e: Expr<()>)
    requires !e.Var?
    ensures var r := RemoveLayer(n, e); Names(r.0) <= Names(e) && Names(r.1) <= Names(e) + {n}
  {
    if e.Bin? && !(e.left.Var? && e.right.Var?) {
      RemoveLayerNames(n, if e.left.Var? then e.right else e.left);
    }
  }

  /** Naming a subexpression does not change the value of an expression. */
  lemma {:induction false} RemoveLayerValue(n: Name, e: Expr<()>, rd: Reader, rd': Reader)
    requires !e.Var? && n !in Names(e)
    requires forall x | x in Names(e) :: rd'(x) == rd(x)
    requires rd'(n) == Eval(RemoveLayer(n, e).0, rd)
    ensures Eval(RemoveLayer(n, e).0, rd).Some? ==> Eval(RemoveLayer(n, e).1, rd') == Eval(e, rd)
    ensures Eval(RemoveLayer(n, e).0, rd).None? ==> Eval(e, rd).None?
  {
    if e.Bin? && !(e.left.Var? && e.right.Var?) {
      if e.left.Var? {
        RemoveLayerValue(n, e.right, rd, rd');
        assert e.left.ref.x in Names(e);
      } else {
        RemoveLayerValue(n, e.left, rd, rd');
        EvalAgree(e.right, rd, rd');
      }
    }
  }

  /** Arguments are not given generated names. */
  predicate UserInputs(env: Env) {
    forall x | x in env.inputs :: x.User?
  }

  /** Loop conditions are variables, as desugaring leaves them. */
  predicate LoopsFlat(s: Stmt<()>) {
    match s
    case Let(_, _, _, _, body) => LoopsFlat(body)
    case If(_, _, a, b) => LoopsFlat(a) && LoopsFlat(b)
    case While(_, cond, body, _) => cond.Var? && LoopsFlat(body)
    case Seq(_, a, b) => LoopsFlat(a) && LoopsFlat(b)
    case _ => true
  }

  /** A statement whose header has the value `e` had runs as before, in a world that has one more
      deep name. */
  lemma HeaderSame(d: int, env: Env, s: Stmt<()>, e: Expr<()>, w: World, v: World, fuel: nat)
    requires Header(s).Some? && !s.While? && Below(d, s) && Agree(d, w, v)
    requires Eval(e, Reads(env, v)) == Eval(Header(s).value, Reads(env, w))
    ensures OutcomesAgree(d, Exec(s, env, w, fuel), Exec(WithHeader(s, e), env, v, fuel))
  {
    var c := Eval(e, Reads(env, v));
    match s
    case Let(_, _, x, _, body) =>
      if c.Some? {
        AgreeWrite(d, w, v, x, c.value);
        ExecBelow(d, env, body, Write(w, x, c.value), Write(v, x, c.value), fuel);
      }
    case Assign(_, r, _) =>
      if c.Some? { AgreeWrite(d, w, v, r.x, c.value); }
    case Return(_, _) =>
    case If(_, _, a, b) =>
      if c.Some? { ExecBelow(d, env, if c.value != 0 then a else b, w, v, fuel); }
  }

  /** Naming one operation in front of a statement changes nothing it can see. */
  lemma PartialMeans(seqnum: int, d: int, env: Env, s: Stmt<()>, w: World, fuel: nat)
    requires UserInputs(env) && Below(d, s) && LoopsFlat(s) && !FlatHeader(s)
    ensures OutcomesAgree(d, Exec(s, env, w, fuel), Exec(Partial(Anorm(seqnum, d), s), env, w, fuel))
  {
    var n, e := Anorm(seqnum, d), Header(s).value;
    var r := RemoveLayer(n, e);
    assert ExprBelow(d, e) && n !in Names(e);
    RemoveLayerNames(n, e);
    var c := Eval(r.0, Reads(env, w));
    if c.None? {
      RemoveLayerValue(n, e, Reads(env, w), x => if x == n then None else Read(env, w, x));
    } else {
      var v := Write(w, n, c.value);
      RemoveLayerValue(n, e, Reads(env, w), Reads(env, v));
      HeaderSame(d, env, s, r.1, w, v, fuel);
    }
  }

  lemma PartialBelow(seqnum: int, d: int, s: Stmt<()>)
    requires Below(d, s) && LoopsFlat(s) && !FlatHeader(s)
    ensures Below(d + 1, Partial(Anorm(seqnum, d), s)) && LoopsFlat(Partial(Anorm(seqnum, d), s))
  {
    var n, e := Anorm(seqnum, d), Header(s).value;
    RemoveLayerNames(n, e);
    BelowMore(d, s);
    assert ExprBelow(d, e);
    var r := RemoveLayer(n, e);
    assert ExprBelow(d + 1, r.0) && ExprBelow(d + 1, r.1);
    assert Below(d + 1, WithHeader(s, r.1));
  }

  lemma AgreeWeaken(d: int, a: Outcome<World>, b: Outcome<World>)
    requires OutcomesAgree(d + 1, a, b)
    ensures OutcomesAgree(d, a, b)
  {
  }

  lemma OutcomesTrans(d: int, a: Outcome<World>, b: Outcome<World>, c: Outcome<World>)
    requires OutcomesAgree(d, a, b) && OutcomesAgree(d, b, c)
    ensures OutcomesAgree(d, a, c)
  {
    if a.Done? { AgreeTrans(d, a.s, b.s, c.s); }
  }

  /** Flattening preserves every outcome, on any fuel: final values, remote calls, faults, and
      running out of fuel. */
  lemma {:induction false} FlattenMeans(seqnum: int, d: int, env: Env, s: Stmt<()>, w: World, fuel: nat)
    requires UserInputs(env) && Below(d, s) && LoopsFlat(s)
    ensures OutcomesAgree(d, Exec(s, env, w, fuel), Exec(FlattenExprs(seqnum, d, s), env, w, fuel))
    decreases fuel, DEPTH_LIMIT - d, s, 1
  {
    if d >= DEPTH_LIMIT {
    } else if !FlatHeader(s) {
      var p := Partial(Anorm(seqnum, d), s);
      PartialMeans(seqnum, d, env, s, w, fuel);
      PartialBelow(seqnum, d, s);
      FlattenMeans(seqnum, d + 1, env, p, w, fuel);
      AgreeWeaken(d, Exec(p, env, w, fuel), Exec(FlattenExprs(seqnum, d + 1, p), env, w, fuel));
      OutcomesTrans(d, Exec(s, env, w, fuel), Exec(p, env, w, fuel), Exec(FlattenExprs(seqnum, d, s), env, w, fuel));
    } else {
      match s
      case Let(_, _, x, rhs, body) =>
        var a := ExecRhs(rhs, env, w);
        if a.Some? { FlattenInner(seqnum, d, env, body, Write(a.value.0, x, a.value.1), fuel); }
      case If(_, cond, a, b) =>
        FlattenInner(seqnum, d, env, a, w, fuel);
        FlattenInner(seqnum + 1, d, env, b, w, fuel);
      case While(_, _, _, name) =>
        FlattenLoop(seqnum, d, env, s, w.(loops := w.loops[name := 0]), 0, fuel);
      case Seq(_, a, b) =>
        FlattenMeans(seqnum, d, env, a, w, fuel);
        var o, p := Exec(a, env, w, fuel), Exec(FlattenExprs(seqnum, d, a), env, w, fuel);
        if o.Done? {
          ExecBelow(d, env, b, o.s, p.s, fuel);
          FlattenMeans(seqnum + 1, d, env, b, p.s, fuel);
          OutcomesTrans(d, Exec(b, env, o.s, fuel), Exec(b, env, p.s, fuel), Exec(FlattenExprs(seqnum + 1, d, b), env, p.s, fuel));
        }
      case _ =>
    }
  }

  lemma {:induction false} FlattenInner(seqnum: int, d: int, env: Env, s: Stmt<()>, w: World, fuel: nat)
    requires UserInputs(env) && Below(d, s) && LoopsFlat(s) && d < DEPTH_LIMIT
    ensures OutcomesAgree(d, Exec(s, env, w, fuel), Exec(FlattenExprs(seqnum, d + 1, s), env, w, fuel))
    decreases fuel, DEPTH_LIMIT - d, s, 0
  {
    BelowMore(d, s);
    FlattenMeans(seqnum, d + 1, env, s, w, fuel);
    AgreeWeaken(d, Exec(s, env, w, fuel), Exec(FlattenExprs(seqnum, d + 1, s), env, w, fuel));
  }

  lemma {:induction false} FlattenLoop(seqnum: int, d: int, env: Env, s: Stmt<()>, w: World, i: nat, fuel: nat)
    requires s.While? && UserInputs(env) && Below(d, s) && LoopsFlat(s) && d < DEPTH_LIMIT
    ensures OutcomesAgree(d, Iterate(s, env, w, i, fuel), Iterate(FlattenExprs(seqnum, d, s), env, w, i, fuel))
    decreases fuel, DEPTH_LIMIT - d, s, 0
  {
    var c := Eval(s.cond, Reads(env, w));
    if c.Some? && c.value != 0 && fuel > 0 {
      var t := FlattenExprs(seqnum, d, s);
      var w1 := w.(loops := w.loops[s.name := i + 1]);
      FlattenInner(seqnum, d, env, s.body, w1, fuel - 1);
      var a, b := Exec(s.body, env, w1, fuel - 1), Exec(t.body, env, w1, fuel - 1);
      if a.Done? {
        IterateBelow(d, env, s, a.s, b.s, i + 1, fuel - 1);
        FlattenLoop(seqnum, d, env, s, b.s, i + 1, fuel - 1);
        OutcomesTrans(d, Iterate(s, env, a.s, i + 1, fuel - 1), Iterate(s, env, b.s, i + 1, fuel - 1), Iterate(t, env, b.s, i + 1, fuel - 1));
      }
    }
  }
}
