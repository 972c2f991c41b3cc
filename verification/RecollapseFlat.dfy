/** Recollapsing and flattening. */
module RecollapseFlat {
  import opened Labels
  import opened Syntax
  import opened SplitPhase
  import opened Flatten
  import opened FlattenCorrect
  import opened DesugarCorrect
  import opened Frame
  import opened Recollapse
  import opened Semantics
  import E = EndToEnd
  import W = WellLabelled

  // --- recollapsing undoes flattening ---

  /** A program as one phase. */
  function Whole(s: Stmt<()>): PStmt {
    match s
    case Let(_, _, x, rhs, body) => PLet(Labels.BOTTOM, x, rhs, Whole(body))
    case Assign(_, r, e) => PAssign(r.x, e)
    case Perform(_, c) => PPerform(c)
    case Return(_, e) => PReturn(e)
    case If(_, cond, a, b) => PIf(cond, Whole(a), Whole(b))
    case While(_, cond, body, n) => PWhile(cond, Whole(body), n)
    case Skip(_) => PSkip
    case Seq(_, a, b) => PSeq(Whole(a), Whole(b))
  }

  lemma {:induction false} PutNothing(e: Expr<()>)
    ensures Put(map[], e) == e
  {
    if e.Bin? {
      PutNothing(e.left);
      PutNothing(e.right);
    }
  }

  lemma {:induction false} RecollapseNothing(p: PStmt)
    ensures PutBack({}, map[], p) == p
  {
    match p
    case PLet(_, _, rhs, body) =>
      if rhs.Pure? { PutNothing(rhs.e); }
      RecollapseNothing(body);
    case PAssign(_, e) => PutNothing(e);
    case PReturn(e) => PutNothing(e);
    case PIf(cond, a, b) =>
      PutNothing(cond);
      RecollapseNothing(a);
      RecollapseNothing(b);
    case PWhile(cond, body, _) =>
      PutNothing(cond);
      RecollapseNothing(body);
    case PForEach(body, _) => RecollapseNothing(body);
    case PSeq(a, b) =>
      RecollapseNothing(a);
      RecollapseNothing(b);
    case _ =>
  }

  lemma {:induction false} PutOther(m: Subst, n: Name, v: Expr<()>, e: Expr<()>)
    requires n !in Names(e)
    ensures Put(m[n := v], e) == Put(m, e)
  {
    match e
    case Const(_) =>
    case Var(r) => assert r.x in Names(e);
    case Bin(_, _, a, b) =>
      PutOther(m, n, v, a);
      PutOther(m, n, v, b);
  }

  /** Putting a named operation back gives the expression it was taken from. */
  lemma {:induction false} PutLayer(m: Subst, n: Name, e: Expr<()>)
    requires !e.Var? && n !in Names(e) && n !in m
    ensures var r := RemoveLayer(n, e); Put(m[n := Put(m, r.0)], r.1) == Put(m, e)
  {
    if e.Bin? && !(e.left.Var? && e.right.Var?) {
      var r := RemoveLayer(n, e);
      if e.left.Var? {
        PutLayer(m, n, e.right);
        PutOther(m, n, Put(m, r.0), e.left);
      } else {
        PutLayer(m, n, e.left);
        PutOther(m, n, Put(m, r.0), e.right);
      }
    }
  }

  /** Nothing is put in place of a name that does not occur. */
  lemma {:induction false} RecollapseOther(cs: set<Name>, m: Subst, d: int, n: Name, v: Expr<()>, s: Stmt<()>)
    requires Below(d, s) && Deep(d, n) && BindsNoAnorm(s) && forall x | x in cs :: x.Anorm?
    ensures PutBack(cs, m[n := v], Whole(s)) == PutBack({}, m, Whole(s))
  {
    match s
    case Let(_, _, _, rhs, body) =>
      if rhs.Pure? { PutOther(m, n, v, rhs.e); }
      RecollapseOther(cs, m, d, n, v, body);
    case Assign(_, _, e) => PutOther(m, n, v, e);
    case Return(_, e) => PutOther(m, n, v, e);
    case If(_, cond, a, b) =>
      PutOther(m, n, v, cond);
      RecollapseOther(cs, m, d, n, v, a);
      RecollapseOther(cs, m, d, n, v, b);
    case While(_, cond, body, _) =>
      PutOther(m, n, v, cond);
      RecollapseOther(cs, m, d, n, v, body);
    case Seq(_, a, b) =>
      RecollapseOther(cs, m, d, n, v, a);
      RecollapseOther(cs, m, d, n, v, b);
    case _ =>
  }

  /** All generated names the statement binds are in `cs`. */
  predicate Covers(cs: set<Name>, s: Stmt<()>) {
    forall x | x in W.Bound(s) :: x.Anorm? ==> x in cs
  }

  lemma HeaderBack(cs: set<Name>, m: Subst, d: int, n: Name, s: Stmt<()>)
    requires !FlatHeader(s) && Below(d, s) && Deep(d, n) && BindsNoAnorm(s) && n !in m && forall x | x in cs :: x.Anorm?
    ensures var r := RemoveLayer(n, Header(s).value);
            PutBack(cs, m[n := Put(m, r.0)], Whole(WithHeader(s, r.1))) == PutBack({}, m, Whole(s))
  {
    var e := Header(s).value;
    var v := Put(m, RemoveLayer(n, e).0);
    PutLayer(m, n, e);
    match s
    case Let(_, _, _, _, body) => RecollapseOther(cs, m, d, n, v, body);
    case If(_, _, a, b) =>
      RecollapseOther(cs, m, d, n, v, a);
      RecollapseOther(cs, m, d, n, v, b);
    case While(_, _, body, _) => RecollapseOther(cs, m, d, n, v, body);
    case _ =>
  }

  lemma {:induction false} PutBackUndoes(cs: set<Name>, m: Subst, seqnum: int, d: int, s: Stmt<()>)
    requires Below(d, s) && BindsNoAnorm(s) && Covers(cs, FlattenExprs(seqnum, d, s))
    requires (forall x | x in cs :: x.Anorm?) && forall y | y in m :: !Deep(d, y)
    ensures PutBack(cs, m, Whole(FlattenExprs(seqnum, d, s))) == PutBack({}, m, Whole(s))
    decreases DEPTH_LIMIT - d, s, 1
  {
    if d >= DEPTH_LIMIT {
      NoGenerated(cs, m, s);
    } else if !FlatHeader(s) {
      PutBackLayer(cs, m, seqnum, d, s);
    } else {
      BelowMore(d, s);
      match s
      case Let(_, _, _, _, body) => PutBackUndoes(cs, m, seqnum, d + 1, body);
      case If(_, _, a, b) =>
        PutBackUndoes(cs, m, seqnum, d + 1, a);
        PutBackUndoes(cs, m, seqnum + 1, d + 1, b);
      case While(_, _, body, _) => PutBackUndoes(cs, m, seqnum, d + 1, body);
      case Seq(_, a, b) =>
        PutBackUndoes(cs, m, seqnum, d, a);
        PutBackUndoes(cs, m, seqnum + 1, d, b);
      case _ =>
    }
  }

  lemma {:induction false} PutBackLayer(cs: set<Name>, m: Subst, seqnum: int, d: int, s: Stmt<()>)
    requires !FlatHeader(s) && d < DEPTH_LIMIT
    requires Below(d, s) && BindsNoAnorm(s) && Covers(cs, FlattenExprs(seqnum, d, s))
    requires (forall x | x in cs :: x.Anorm?) && forall y | y in m :: !Deep(d, y)
    ensures PutBack(cs, m, Whole(FlattenExprs(seqnum, d, s))) == PutBack({}, m, Whole(s))
    decreases DEPTH_LIMIT - d, s, 0
  {
    var n, e := Anorm(seqnum, d), Header(s).value;
    var r := RemoveLayer(n, e);
    var rest := WithHeader(s, r.1);
    var m1 := m[n := Put(m, r.0)];
    RemoveLayerShrinks(n, e);
    HeaderBack(cs, m, d, n, s);
    HeaderBack({}, m, d, n, s);
    RestBelow(seqnum, d, s);
    var f := if d + 1 < DEPTH_LIMIT then FlattenExprs(seqnum, d + 2, rest) else rest;
    assert FlattenExprs(seqnum, d, s) == Let((), (), n, Pure(r.0), f);
    assert n in W.Bound(FlattenExprs(seqnum, d, s));
    if d + 1 < DEPTH_LIMIT { PutBackUndoes(cs, m1, seqnum, d + 2, rest); }
  }

  lemma {:induction false} NoGenerated(cs: set<Name>, m: Subst, s: Stmt<()>)
    requires BindsNoAnorm(s) && forall x | x in cs :: x.Anorm?
    ensures PutBack(cs, m, Whole(s)) == PutBack({}, m, Whole(s))
  {
    match s
    case Let(_, _, _, _, body) => NoGenerated(cs, m, body);
    case If(_, _, a, b) =>
      NoGenerated(cs, m, a);
      NoGenerated(cs, m, b);
    case While(_, _, body, _) => NoGenerated(cs, m, body);
    case Seq(_, a, b) =>
      NoGenerated(cs, m, a);
      NoGenerated(cs, m, b);
    case _ =>
  }

  lemma RestBelow(seqnum: int, d: int, s: Stmt<()>)
    requires !FlatHeader(s) && Below(d, s) && BindsNoAnorm(s)
    ensures var rest := WithHeader(s, RemoveLayer(Anorm(seqnum, d), Header(s).value).1); Below(d + 2, rest) && BindsNoAnorm(rest)
  {
    var n, e := Anorm(seqnum, d), Header(s).value;
    RemoveLayerNames(n, e);
    BelowMore(d, s);
    BelowMore(d + 1, s);
    assert ExprBelow(d, e) && ExprBelow(d + 2, RemoveLayer(n, e).1);
  }

  /** Putting all generated names back turns a flattened program into the one it was made from. */
  lemma RecollapseUndoesFlattening(s: Stmt<()>)
    requires Below(1, s) && BindsNoAnorm(s)
    ensures var f := FlattenExprs(1, 1, s);
            PutBack(set x | x in W.Bound(f) && x.Anorm?, map[], Whole(f)) == Whole(s)
  {
    var f := FlattenExprs(1, 1, s);
    PutBackUndoes(set x | x in W.Bound(f) && x.Anorm?, map[], 1, 1, s);
    RecollapseNothing(Whole(s));
  }

  /** In particular, both passes together are undone where there are no loops. */
  lemma RecollapseUndoesBoth(s: Stmt<()>)
    requires Parsed(s)
    ensures var f := FlattenExpressions(s);
            PutBack(set x | x in W.Bound(f) && x.Anorm?, map[], Whole(f)) == Whole(DesugarWhile(1, 1, s))
    ensures W.Loops(s) == {} ==> DesugarWhile(1, 1, s) == s
  {
    DesugaredIs(1, 1, 1, s);
    RecollapseUndoesFlattening(DesugarWhile(1, 1, s));
    if W.Loops(s) == {} { DesugarNothing(1, 1, s); }
  }

  lemma {:induction false} DesugarNothing(seqnum: int, depth: int, s: Stmt<()>)
    requires W.Loops(s) == {}
    ensures DesugarWhile(seqnum, depth, s) == s
    decreases s
  {
    match s
    case Let(_, _, _, _, body) => DesugarNothing(seqnum, depth + 1, body);
    case If(_, _, a, b) =>
      DesugarNothing(seqnum, depth + 1, a);
      DesugarNothing(seqnum + 1, depth + 1, b);
    case Seq(_, a, b) =>
      DesugarNothing(seqnum, depth, a);
      DesugarNothing(seqnum + 1, depth, b);
    case _ =>
  }

  // --- flattened code is safe to recollapse ---

  function Anorms(xs: set<Name>): set<Name> {
    set x | x in xs && x.Anorm?
  }

  /** Generated names are bound right in front of the one statement that refers to them: `front`
      are those bound there. */
  predicate InFront(front: set<Name>, s: Stmt<()>)
    decreases s
  {
    match s
    case Let(_, _, x, Pure(e), body) =>
      Anorms(Names(e)) <= front && if x.Anorm? then x !in front && InFront(front + {x}, body) else InFront({}, body)
    case Let(_, _, x, Remote(_, c), body) => !x.Anorm? && Anorms(CallNames(c)) == {} && InFront({}, body)
    case Assign(_, r, e) => !r.x.Anorm? && Anorms(Names(e)) <= front
    case Perform(_, c) => Anorms(CallNames(c)) == {}
    case Return(_, e) => Anorms(Names(e)) <= front
    case If(_, cond, a, b) => Anorms(Names(cond)) <= front && InFront({}, a) && InFront({}, b)
    case While(_, cond, body, _) => Anorms(Names(cond)) == {} && InFront({}, body)
    case Skip(_) => true
    case Seq(_, a, b) => InFront({}, a) && InFront({}, b)
  }

  /** No generated name occurs. */
  predicate Clean(s: Stmt<()>) {
    match s
    case Let(_, _, x, rhs, body) => !x.Anorm? && Anorms(RhsNames(rhs)) == {} && Clean(body)
    case Assign(_, r, e) => !r.x.Anorm? && Anorms(Names(e)) == {}
    case Perform(_, c) => Anorms(CallNames(c)) == {}
    case Return(_, e) => Anorms(Names(e)) == {}
    case If(_, cond, a, b) => Anorms(Names(cond)) == {} && Clean(a) && Clean(b)
    case While(_, cond, body, _) => Anorms(Names(cond)) == {} && Clean(body)
    case Skip(_) => true
    case Seq(_, a, b) => Clean(a) && Clean(b)
  }

  /** No generated name occurs but `front`, and those only in the header of a statement that is not
      a loop. */
  predicate CleanBelow(front: set<Name>, s: Stmt<()>) {
    match s
    case Let(_, _, x, Pure(e), body) => !x.Anorm? && Anorms(Names(e)) <= front && Clean(body)
    case Assign(_, r, e) => !r.x.Anorm? && Anorms(Names(e)) <= front
    case Return(_, e) => Anorms(Names(e)) <= front
    case If(_, cond, a, b) => Anorms(Names(cond)) <= front && Clean(a) && Clean(b)
    case _ => Clean(s)
  }

  lemma CleanIs(s: Stmt<()>)
    requires Clean(s)
    ensures CleanBelow({}, s)
  {
    match s
    case Let(_, _, _, rhs, _) => if rhs.Pure? { assert Anorms(Names(rhs.e)) == Anorms(RhsNames(rhs)); }
    case _ =>
  }

  lemma {:induction false} CleanInFront(s: Stmt<()>, front: set<Name>)
    requires CleanBelow(front, s)
    ensures InFront(front, s)
    decreases s
  {
    match s
    case Let(_, _, _, _, body) =>
      CleanIs(body);
      CleanInFront(body, {});
    case If(_, _, a, b) =>
      CleanIs(a);
      CleanIs(b);
      CleanInFront(a, {});
      CleanInFront(b, {});
    case While(_, _, body, _) =>
      CleanIs(body);
      CleanInFront(body, {});
    case Seq(_, a, b) =>
      CleanIs(a);
      CleanIs(b);
      CleanInFront(a, {});
      CleanInFront(b, {});
    case _ =>
  }

  lemma {:induction false} FlattenInFront(seqnum: int, d: int, s: Stmt<()>, front: set<Name>)
    requires CleanBelow(front, s) && LoopsFlat(s) && forall x | x in front :: !Deep(d, x)
    ensures InFront(front, FlattenExprs(seqnum, d, s))
    decreases DEPTH_LIMIT - d, s, 0
  {
    if d >= DEPTH_LIMIT {
      CleanInFront(s, front);
    } else if !FlatHeader(s) {
      var n, e := Anorm(seqnum, d), Header(s).value;
      var r := RemoveLayer(n, e);
      var rest := WithHeader(s, r.1);
      RemoveLayerShrinks(n, e);
      RemoveLayerNames(n, e);
      assert CleanBelow(front + {n}, rest) && LoopsFlat(rest);
      if d + 1 < DEPTH_LIMIT {
        FlattenInFront(seqnum, d + 2, rest, front + {n});
        assert FlattenExprs(seqnum, d, s) == Let((), (), n, Pure(r.0), FlattenExprs(seqnum, d + 2, rest));
      } else {
        CleanInFront(rest, front + {n});
        assert FlattenExprs(seqnum, d, s) == Let((), (), n, Pure(r.0), rest);
      }
    } else {
      match s
      case Let(_, _, _, _, body) => FlattenClean(seqnum, d + 1, body);
      case If(_, _, a, b) =>
        FlattenClean(seqnum, d + 1, a);
        FlattenClean(seqnum + 1, d + 1, b);
      case While(_, _, body, _) => FlattenClean(seqnum, d + 1, body);
      case Seq(_, a, b) =>
        FlattenClean(seqnum, d, a);
        FlattenClean(seqnum + 1, d, b);
      case _ =>
    }
  }

  lemma {:induction false} FlattenClean(seqnum: int, d: int, s: Stmt<()>)
    requires Clean(s) && LoopsFlat(s)
    ensures InFront({}, FlattenExprs(seqnum, d, s))
    decreases DEPTH_LIMIT - d, s, 1
  {
    CleanIs(s);
    FlattenInFront(seqnum, d, s, {});
  }

  lemma {:induction false} StripSame(e: Expr<()>)
    ensures StripExpr(e) == e
  {
    match e
    case Const(_) =>
    case Var(r) => Unit(r.l);
    case Bin(l, _, a, b) =>
      Unit(l);
      StripSame(a);
      StripSame(b);
  }

  lemma Unit(u: ())
    ensures u == ()
  {
    match u
    case () =>
  }

  lemma {:induction false} StripRefsSame(rs: seq<Ref<()>>)
    ensures StripRefs(rs) == rs
  {
    if rs != [] {
      Unit(rs[0].l);
      StripRefsSame(rs[1..]);
    }
  }

  lemma {:induction false} InFrontPlain(front: set<Name>, s: Stmt<()>)
    requires InFront(front, s)
    ensures InFront(front, E.Plain(s))
    decreases s
  {
    match s
    case Let(_, _, x, rhs, body) =>
      match rhs {
        case Pure(e) => StripSame(e);
        case Remote(_, c) =>
          Unit(c.handle.l);
          StripRefsSame(c.args);
      }
      InFrontPlain(if rhs.Pure? && x.Anorm? then front + {x} else {}, body);
    case Assign(_, _, e) => StripSame(e);
    case Perform(_, c) =>
      Unit(c.handle.l);
      StripRefsSame(c.args);
    case Return(_, e) => StripSame(e);
    case If(_, cond, a, b) =>
      StripSame(cond);
      InFrontPlain({}, a);
      InFrontPlain({}, b);
    case While(_, cond, body, _) =>
      StripSame(cond);
      InFrontPlain({}, body);
    case Skip(_) =>
    case Seq(_, a, b) =>
      InFrontPlain({}, a);
      InFrontPlain({}, b);
  }

  /** The names of `cs` are bound by the phase of `l` only. */
  predicate OwnedBy(l: Label, cs: set<Name>, t: Stmt<Label>) {
    match t
    case Let(k, _, x, _, body) => (x in cs ==> k == l) && OwnedBy(l, cs, body)
    case If(_, _, a, b) => OwnedBy(l, cs, a) && OwnedBy(l, cs, b)
    case While(_, _, body, _) => OwnedBy(l, cs, body)
    case Seq(_, a, b) => OwnedBy(l, cs, a) && OwnedBy(l, cs, b)
    case _ => true
  }

  /** The generated names bound in front hold, and stand for expressions over what is in front. */
  ghost predicate Held(cs: set<Name>, m: Subst, ok: set<Name>, front: set<Name>) {
    && (forall x | x in cs :: x.Anorm?) && (forall y | y in m :: y in cs)
    && (forall y | y in front && y in cs :: y in ok && y in m && Anorms(Names(m[y])) <= front)
  }

  lemma {:induction false} PutInFront(cs: set<Name>, m: Subst, ok: set<Name>, front: set<Name>, e: Expr<()>)
    requires Held(cs, m, ok, front) && Anorms(Names(e)) <= front
    ensures Anorms(Names(Put(m, e))) <= front
  {
    match e
    case Const(_) =>
    case Var(r) =>
      if r.x in m { assert r.x in Anorms(Names(e)); }
    case Bin(_, _, a, b) =>
      assert Anorms(Names(a)) <= Anorms(Names(e)) && Anorms(Names(b)) <= Anorms(Names(e));
      PutInFront(cs, m, ok, front, a);
      PutInFront(cs, m, ok, front, b);
  }

  lemma ReadableInFront(cs: set<Name>, m: Subst, ok: set<Name>, front: set<Name>, e: Expr<()>)
    requires Held(cs, m, ok, front) && Anorms(Names(e)) <= front
    ensures Readable(cs, ok, e)
  {
    forall x | x in Names(e) && x in cs ensures x in ok {
      assert x in Anorms(Names(e));
    }
  }

  lemma {:induction false} ProjectSafe(cs: set<Name>, m: Subst, ok: set<Name>, front: set<Name>, l: Label, t: Stmt<Label>)
    requires InFront(front, E.Plain(t)) && OwnedBy(l, cs, t) && Held(cs, m, ok, front)
    ensures Safe(cs, m, ok, Project(l, t))
    decreases t, 1
  {
    match t
    case Let(_, _, _, _, _) => ProjectLetSafe(cs, m, ok, front, l, t);
    case Assign(_, _, e) => ReadableInFront(cs, m, ok, front, StripExpr(e));
    case Perform(_, c) => CallSafe(cs, StripCall(c));
    case Return(_, e) => ReadableInFront(cs, m, ok, front, StripExpr(e));
    case If(_, cond, a, b) =>
      ReadableInFront(cs, m, ok, front, StripExpr(cond));
      ProjectSafe(cs, m, ok, {}, l, a);
      ProjectSafe(cs, m, ok, {}, l, b);
    case While(_, cond, body, _) =>
      var always := Still(m, ok, Touched(Project(l, body)));
      ReadableInFront(cs, m, always, {}, StripExpr(cond));
      ProjectSafe(cs, m, always, {}, l, body);
    case Skip(_) =>
    case Seq(_, a, b) =>
      ProjectSafe(cs, m, ok, {}, l, a);
      ProjectSafe(cs, m, Still(m, ok, Touched(Project(l, a))), {}, l, b);
  }

  lemma CallSafe(cs: set<Name>, c: Invoke<()>)
    requires Anorms(CallNames(c)) == {} && forall x | x in cs :: x.Anorm?
    ensures CallNames(c) !! cs
  {
    forall x | x in CallNames(c) ensures x !in cs {
      assert x !in Anorms(CallNames(c));
    }
  }

  lemma MoveSafe(cs: set<Name>, m: Subst, ok: set<Name>, x: Name, q: PStmt)
    requires x !in cs && Safe(cs, m, Still(m, ok, {x}), q)
    ensures Safe(cs, m, ok, PSeq(PIncrement(x), q))
  {
    assert Safe(cs, m, ok, PIncrement(x)) && Touched(PIncrement(x)) == {x};
  }

  /** A binding of the phase of `l`, kept by it or replayed. */
  lemma KeptSafe(cs: set<Name>, m: Subst, ok: set<Name>, l: Label, t: Stmt<Label>)
    requires t.Let? && t.x !in cs && Safe(cs, m, Still(m, ok, {t.x}), Project(l, t.body))
    requires if t.rhs.Remote? then CallNames(StripCall(t.rhs.call)) !! cs else Readable(cs, ok, StripExpr(t.rhs.e))
    ensures Safe(cs, m, ok, Project(l, t))
  {
    if t.l != l { MoveSafe(cs, m, ok, t.x, Project(l, t.body)); }
  }

  lemma {:induction false} ProjectLetSafe(cs: set<Name>, m: Subst, ok: set<Name>, front: set<Name>, l: Label, t: Stmt<Label>)
    requires t.Let? && InFront(front, E.Plain(t)) && OwnedBy(l, cs, t) && Held(cs, m, ok, front)
    ensures Safe(cs, m, ok, Project(l, t))
    decreases t, 0
  {
    var x := t.x;
    var ok1 := Still(m, ok, {x});
    if t.rhs.Remote? {
      CallSafe(cs, StripCall(t.rhs.call));
      ProjectSafe(cs, m, ok1, {}, l, t.body);
      KeptSafe(cs, m, ok, l, t);
    } else {
      var e := StripExpr(t.rhs.e);
      ReadableInFront(cs, m, ok, front, e);
      if x in cs {
        PutInFront(cs, m, ok, front, e);
        ProjectSafe(cs, m[x := Put(m, e)], ok + {x}, front + {x}, l, t.body);
      } else {
        if x.Anorm? { FrontStill(cs, m, ok, front, x); }
        ProjectSafe(cs, m, ok1, if x.Anorm? then front + {x} else {}, l, t.body);
        KeptSafe(cs, m, ok, l, t);
      }
    }
  }

  lemma FrontStill(cs: set<Name>, m: Subst, ok: set<Name>, front: set<Name>, x: Name)
    requires Held(cs, m, ok, front) && x.Anorm? && x !in front && x !in cs
    ensures Held(cs, m, Still(m, ok, {x}), front + {x})
  {
    forall y | y in front && y in cs ensures y in Still(m, ok, {x}) {
      assert x !in Anorms(Names(m[y]));
    }
  }
}
