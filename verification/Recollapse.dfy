/** Putting generated names back where they are used, inside one phase. */
module Recollapse {
  import opened Syntax
  import opened Semantics
  import opened SplitPhase
  import opened PhaseRun
  import opened Frame

  type Subst = map<Name, Expr<()>>

  function Put(m: Subst, e: Expr<()>): Expr<()> {
    match e
    case Const(_) => e
    case Var(r) => if r.x in m then m[r.x] else e
    case Bin(l, op, a, b) => Bin(l, op, Put(m, a), Put(m, b))
  }

  /** Bindings of `cs` disappear; what they bound is put where they are referred to. Inside later
      bindings this happens as well, so nothing in the map refers to `cs`. */
  function PutBack(cs: set<Name>, m: Subst, p: PStmt): PStmt
    decreases p
  {
    match p
    case PLet(bl, x, Pure(e), body) =>
      if x in cs then PutBack(cs, m[x := Put(m, e)], body)
      else PLet(bl, x, Pure(Put(m, e)), PutBack(cs, m, body))
    case PLet(bl, x, rhs, body) => PLet(bl, x, rhs, PutBack(cs, m, body))
    case PAssign(x, e) => PAssign(x, Put(m, e))
    case PReturn(e) => PReturn(Put(m, e))
    case PIf(cond, a, b) => PIf(Put(m, cond), PutBack(cs, m, a), PutBack(cs, m, b))
    case PWhile(cond, body, n) => PWhile(Put(m, cond), PutBack(cs, m, body), n)
    case PForEach(body, n) => PForEach(PutBack(cs, m, body), n)
    case PSeq(a, b) => PSeq(PutBack(cs, m, a), PutBack(cs, m, b))
    case _ => p
  }

  /** The entries that still hold once `touched` have changed. */
  function Still(m: Subst, ok: set<Name>, touched: set<Name>): set<Name> {
    set y | y in ok && y in m && y !in touched && Names(m[y]) !! touched
  }

  predicate Readable(cs: set<Name>, ok: set<Name>, e: Expr<()>) {
    Names(e) * cs <= ok
  }

  /** A name of `cs` is only read while the expression it stands for has the value it had when the
      name was bound. `ok` are the entries of the map for which that is so. */
  predicate Safe(cs: set<Name>, m: Subst, ok: set<Name>, p: PStmt)
    decreases p
  {
    match p
    case PLet(_, x, Pure(e), body) =>
      && Readable(cs, ok, e)
      && if x in cs then Safe(cs, m[x := Put(m, e)], ok + {x}, body) else Safe(cs, m, Still(m, ok, {x}), body)
    case PLet(_, x, Remote(_, c), body) =>
      x !in cs && CallNames(c) !! cs && Safe(cs, m, Still(m, ok, {x}), body)
    case PIncrement(x) => x !in cs
    case PAssign(x, e) => x !in cs && Readable(cs, ok, e)
    case PPerform(c) => CallNames(c) !! cs
    case PReturn(e) => Readable(cs, ok, e)
    case PIf(cond, a, b) => Readable(cs, ok, cond) && Safe(cs, m, ok, a) && Safe(cs, m, ok, b)
    case PWhile(cond, body, _) =>
      var always := Still(m, ok, Touched(body));
      Readable(cs, always, cond) && Safe(cs, m, always, body)
    case PForEach(body, _) => Safe(cs, m, Still(m, ok, Touched(body)), body)
    case PSkip => true
    case PSeq(a, b) => Safe(cs, m, ok, a) && Safe(cs, m, Still(m, ok, Touched(a)), b)
  }

  // --- what a run leaves alone ---

  lemma {:induction false} RunLeaves(p: PStmt, env: Env, st: Store, st': Store, fuel: nat, x: Name)
    requires Run(p, env, st, fuel) == Done(st') && x !in Touched(p)
    ensures At(st', x) == At(st, x)
    decreases fuel, p, 1, 0
  {
    match p
    case PLet(_, y, rhs, body) =>
      var r := RunRhs(rhs, env, st).value;
      RunLeaves(body, env, Update(r.0, y, Push(At(r.0, y), r.1)), st', fuel, x);
    case PIf(cond, a, b) => RunLeaves(if Eval(cond, Gets(env, st)).value != 0 then a else b, env, st, st', fuel, x);
    case PWhile(_, _, n) => WhileLeaves(p, env, st.(loops := st.loops[n := 0]), st', 0, fuel, x);
    case PForEach(_, n) => TimesLeaves(p, env, st, st', st.loops[n], fuel, x);
    case PSeq(a, b) =>
      var mid := Run(a, env, st, fuel).s;
      RunLeaves(a, env, st, mid, fuel, x);
      RunLeaves(b, env, mid, st', fuel, x);
    case _ =>
  }

  lemma {:induction false} WhileLeaves(p: PStmt, env: Env, st: Store, st': Store, i: nat, fuel: nat, x: Name)
    requires p.PWhile? && RunWhile(p, env, st, i, fuel) == Done(st') && x !in Touched(p)
    ensures At(st', x) == At(st, x)
    decreases fuel, p, 0, 0
  {
    if Eval(p.cond, Gets(env, st)).value != 0 {
      var st1 := st.(loops := st.loops[p.name := i + 1]);
      var mid := Run(p.body, env, st1, fuel - 1).s;
      RunLeaves(p.body, env, st1, mid, fuel - 1, x);
      WhileLeaves(p, env, mid, st', i + 1, fuel - 1, x);
    }
  }

  lemma {:induction false} TimesLeaves(p: PStmt, env: Env, st: Store, st': Store, n: int, fuel: nat, x: Name)
    requires p.PForEach? && RunTimes(p, env, st, n, fuel) == Done(st') && x !in Touched(p)
    ensures At(st', x) == At(st, x)
    decreases fuel, p, 0, n
  {
    if n > 0 {
      var mid := Run(p.body, env, st, fuel).s;
      RunLeaves(p.body, env, st, mid, fuel, x);
      TimesLeaves(p, env, mid, st', n - 1, fuel, x);
    }
  }

  // --- the simulation ---

  /** The stores agree on everything but `cs`, whose cursors stand at the end of their logs. */
  ghost predicate Alike(cs: set<Name>, st: Store, st': Store) {
    && (forall x | x !in cs :: At(st, x) == At(st', x))
    && (forall x | x in cs :: At(st, x).pos == |At(st, x).log| - 1)
    && st.loops == st'.loops && st.remote == st'.remote && st.ret == st'.ret
  }

  /** The names of `ok` have the values of the expressions they stand for. */
  ghost predicate Valid(env: Env, cs: set<Name>, m: Subst, ok: set<Name>, st: Store, st': Store) {
    forall y | y in ok :: y in m && Names(m[y]) !! cs && Get(env, st, y).Some? && Eval(m[y], Gets(env, st')) == Get(env, st, y)
  }

  /** Names that are put back are generated, and stand for expressions without such names. */
  predicate Generated(env: Env, cs: set<Name>, m: Subst) {
    (forall x | x in cs :: Input(env, x).None?) && (forall y | y in m :: y in cs)
  }

  ghost predicate Outcomes(cs: set<Name>, a: Outcome<Store>, b: Outcome<Store>) {
    match a
    case Done(st) => b.Done? && Alike(cs, st, b.s)
    case Fault => true
    case Timeout => b.Timeout?
  }

  lemma {:induction false} PutValue(env: Env, cs: set<Name>, m: Subst, ok: set<Name>, e: Expr<()>, st: Store, st': Store)
    requires Generated(env, cs, m) && Alike(cs, st, st') && Valid(env, cs, m, ok, st, st') && Readable(cs, ok, e)
    ensures Eval(Put(m, e), Gets(env, st')) == Eval(e, Gets(env, st))
  {
    match e
    case Const(_) =>
    case Var(r) =>
      assert r.x in Names(e);
      if r.x in m { assert r.x in ok; } else { assert r.x !in cs; }
    case Bin(_, _, a, b) =>
      PutValue(env, cs, m, ok, a, st, st');
      PutValue(env, cs, m, ok, b, st, st');
  }

  lemma {:induction false} PutNames(cs: set<Name>, m: Subst, ok: set<Name>, e: Expr<()>)
    requires Readable(cs, ok, e) && (forall y | y in ok :: y in m && Names(m[y]) !! cs) && (forall y | y in m :: y in cs)
    ensures Names(Put(m, e)) !! cs
  {
    match e
    case Const(_) =>
    case Var(r) => if r.x !in m { assert r.x !in cs; }
    case Bin(_, _, a, b) =>
      PutNames(cs, m, ok, a);
      PutNames(cs, m, ok, b);
  }

  /** Entries that are not touched stay valid. */
  lemma StillValid(env: Env, cs: set<Name>, m: Subst, ok: set<Name>, st: Store, st': Store, r: Store, r': Store, touched: set<Name>)
    requires Generated(env, cs, m) && Alike(cs, st, st') && Valid(env, cs, m, ok, st, st') && Alike(cs, r, r')
    requires forall x | x !in touched :: At(r, x) == At(st, x)
    ensures Valid(env, cs, m, Still(m, ok, touched), r, r')
  {
    forall y | y in Still(m, ok, touched) ensures Get(env, r, y) == Get(env, st, y) && Eval(m[y], Gets(env, r')) == Eval(m[y], Gets(env, st')) {
      EvalAgree(m[y], Gets(env, r'), Gets(env, st'));
    }
  }

  lemma StillValidRun(env: Env, cs: set<Name>, m: Subst, ok: set<Name>, st: Store, st': Store, r: Store, r': Store, p: PStmt, fuel: nat)
    requires Generated(env, cs, m) && Alike(cs, st, st') && Valid(env, cs, m, ok, st, st') && Alike(cs, r, r')
    requires Run(p, env, st, fuel) == Done(r)
    ensures Valid(env, cs, m, Still(m, ok, Touched(p)), r, r')
  {
    forall x | x !in Touched(p) ensures At(r, x) == At(st, x) {
      RunLeaves(p, env, st, r, fuel, x);
    }
    StillValid(env, cs, m, ok, st, st', r, r', Touched(p));
  }

  ghost predicate Before(env: Env, cs: set<Name>, m: Subst, ok: set<Name>, st: Store, st': Store) {
    Generated(env, cs, m) && Alike(cs, st, st') && Valid(env, cs, m, ok, st, st')
  }

  /** A binding that disappears: from now on its name stands for its expression. */
  lemma Bound(env: Env, cs: set<Name>, m: Subst, ok: set<Name>, x: Name, e: Expr<()>, st: Store, st': Store)
    requires Before(env, cs, m, ok, st, st') && x in cs && Readable(cs, ok, e) && Eval(e, Gets(env, st)).Some?
    ensures var h := Push(At(st, x), Eval(e, Gets(env, st)).value);
            InRange(h) && Before(env, cs, m[x := Put(m, e)], ok + {x}, Update(st, x, h), st')
  {
    var h := Push(At(st, x), Eval(e, Gets(env, st)).value);
    var st1, m1 := Update(st, x, h), m[x := Put(m, e)];
    PutValue(env, cs, m, ok, e, st, st');
    PutNames(cs, m, ok, e);
    forall y ensures At(st1, y) == (if y == x then h else At(st, y)) {}
    forall y | y in ok + {x} ensures Get(env, st1, y).Some? && Eval(m1[y], Gets(env, st')) == Get(env, st1, y) && Names(m1[y]) !! cs {
      if y != x { assert m1[y] == m[y] && Get(env, st1, y) == Get(env, st, y); }
    }
  }

  lemma Written(env: Env, cs: set<Name>, m: Subst, ok: set<Name>, x: Name, h: Holder, st: Store, st': Store)
    requires Before(env, cs, m, ok, st, st') && x !in cs
    ensures Before(env, cs, m, Still(m, ok, {x}), Update(st, x, h), Update(st', x, h))
  {
    var r, r' := Update(st, x, h), Update(st', x, h);
    forall y ensures At(r, y) == (if y == x then h else At(st, y)) && At(r', y) == (if y == x then h else At(st', y)) {}
    StillValid(env, cs, m, ok, st, st', r, r', {x});
  }

  lemma CallSame(env: Env, cs: set<Name>, c: Invoke<()>, st: Store, st': Store)
    requires Alike(cs, st, st') && CallNames(c) !! cs
    ensures EventOf(c, Gets(env, st)) == EventOf(c, Gets(env, st'))
  {
    CallAgrees(c, Gets(env, st), Gets(env, st'));
  }

  /** Runs of a phase and of its recollapsed form. */
  lemma {:induction false} RecollapseRuns(cs: set<Name>, m: Subst, ok: set<Name>, p: PStmt, env: Env, st: Store, st': Store, fuel: nat)
    requires Safe(cs, m, ok, p) && Before(env, cs, m, ok, st, st')
    ensures Outcomes(cs, Run(p, env, st, fuel), Run(PutBack(cs, m, p), env, st', fuel))
    decreases fuel, p, 1, 0
  {
    match p
    case PLet(_, _, _, _) => RecollapseLet(cs, m, ok, p, env, st, st', fuel);
    case PIncrement(x) =>
      forall y ensures At(Update(st, x, Increment(At(st, x))), y) == (if y == x then Increment(At(st, x)) else At(st, y)) {}
      forall y ensures At(Update(st', x, Increment(At(st', x))), y) == (if y == x then Increment(At(st', x)) else At(st', y)) {}
    case PAssign(x, e) =>
      PutValue(env, cs, m, ok, e, st, st');
      if Eval(e, Gets(env, st)).Some? { Written(env, cs, m, ok, x, Push(At(st, x), Eval(e, Gets(env, st)).value), st, st'); }
    case PPerform(c) => CallSame(env, cs, c, st, st');
    case PReturn(e) => PutValue(env, cs, m, ok, e, st, st');
    case PIf(cond, a, b) =>
      PutValue(env, cs, m, ok, cond, st, st');
      RecollapseRuns(cs, m, ok, a, env, st, st', fuel);
      RecollapseRuns(cs, m, ok, b, env, st, st', fuel);
    case PWhile(_, _, n) =>
      CountersValid(env, cs, m, ok, st, st', st.loops[n := 0]);
      RecollapseWhile(cs, m, Still(m, ok, Touched(p.body)), p, env, st.(loops := st.loops[n := 0]), st'.(loops := st'.loops[n := 0]), 0, fuel);
    case PForEach(_, n) =>
      if n in st.loops { RecollapseTimes(cs, m, Still(m, ok, Touched(p.body)), p, env, st, st', st.loops[n], fuel); }
    case PSkip =>
    case PSeq(_, _) => RecollapseSeq(cs, m, ok, p, env, st, st', fuel);
  }

  lemma {:induction false} RecollapseSeq(cs: set<Name>, m: Subst, ok: set<Name>, p: PStmt, env: Env, st: Store, st': Store, fuel: nat)
    requires p.PSeq? && Safe(cs, m, ok, p) && Before(env, cs, m, ok, st, st')
    ensures Outcomes(cs, Run(p, env, st, fuel), Run(PutBack(cs, m, p), env, st', fuel))
    decreases fuel, p, 0, 0
  {
    RecollapseRuns(cs, m, ok, p.first, env, st, st', fuel);
    var r, r' := Run(p.first, env, st, fuel), Run(PutBack(cs, m, p.first), env, st', fuel);
    if r.Done? {
      StillValidRun(env, cs, m, ok, st, st', r.s, r'.s, p.first, fuel);
      RecollapseRuns(cs, m, Still(m, ok, Touched(p.first)), p.rest, env, r.s, r'.s, fuel);
    }
  }

  lemma {:induction false} RecollapseLet(cs: set<Name>, m: Subst, ok: set<Name>, p: PStmt, env: Env, st: Store, st': Store, fuel: nat)
    requires p.PLet? && Safe(cs, m, ok, p) && Before(env, cs, m, ok, st, st')
    ensures Outcomes(cs, Run(p, env, st, fuel), Run(PutBack(cs, m, p), env, st', fuel))
    decreases fuel, p, 0, 1
  {
    if p.rhs.Remote? {
      RecollapseRemote(cs, m, ok, p, env, st, st', fuel);
    } else {
      var e := p.rhs.e;
      PutValue(env, cs, m, ok, e, st, st');
      var i := Eval(e, Gets(env, st));
      if i.Some? {
        var h := Push(At(st, p.x), i.value);
        if p.x in cs {
          Bound(env, cs, m, ok, p.x, e, st, st');
          RecollapseRuns(cs, m[p.x := Put(m, e)], ok + {p.x}, p.body, env, Update(st, p.x, h), st', fuel);
        } else if InRange(h) {
          Written(env, cs, m, ok, p.x, h, st, st');
          RecollapseRuns(cs, m, Still(m, ok, {p.x}), p.body, env, Update(st, p.x, h), Update(st', p.x, h), fuel);
        }
      }
    }
  }

  lemma {:induction false} RecollapseRemote(cs: set<Name>, m: Subst, ok: set<Name>, p: PStmt, env: Env, st: Store, st': Store, fuel: nat)
    requires p.PLet? && p.rhs.Remote? && Safe(cs, m, ok, p) && Before(env, cs, m, ok, st, st')
    ensures Outcomes(cs, Run(p, env, st, fuel), Run(PutBack(cs, m, p), env, st', fuel))
    decreases fuel, p, 0, 0
  {
    CallSame(env, cs, p.rhs.call, st, st');
    var r, r' := RunRhs(p.rhs, env, st), RunRhs(p.rhs, env, st');
    if r.Some? {
      var h := Push(At(r.value.0, p.x), r.value.1);
      if InRange(h) {
        StillValid(env, cs, m, ok, st, st', r.value.0, r'.value.0, {});
        assert Still(m, ok, {}) == ok;
        Written(env, cs, m, ok, p.x, h, r.value.0, r'.value.0);
        RecollapseRuns(cs, m, Still(m, ok, {p.x}), p.body, env, Update(r.value.0, p.x, h), Update(r'.value.0, p.x, h), fuel);
      }
    }
  }

  lemma CountersValid(env: Env, cs: set<Name>, m: Subst, ok: set<Name>, st: Store, st': Store, loops: map<LoopName, int>)
    requires Before(env, cs, m, ok, st, st')
    ensures Before(env, cs, m, ok, st.(loops := loops), st'.(loops := loops))
  {
    var r, r' := st.(loops := loops), st'.(loops := loops);
    forall y | y in ok ensures Get(env, r, y) == Get(env, st, y) && Eval(m[y], Gets(env, r')) == Eval(m[y], Gets(env, st')) {
      EvalAgree(m[y], Gets(env, r'), Gets(env, st'));
    }
  }

  lemma {:induction false} RecollapseWhile(cs: set<Name>, m: Subst, ok: set<Name>, p: PStmt, env: Env, st: Store, st': Store, i: nat, fuel: nat)
    requires p.PWhile? && Readable(cs, ok, p.cond) && Safe(cs, m, ok, p.body) && ok == Still(m, ok, Touched(p.body))
    requires Before(env, cs, m, ok, st, st')
    ensures Outcomes(cs, RunWhile(p, env, st, i, fuel), RunWhile(PutBack(cs, m, p), env, st', i, fuel))
    decreases fuel, p, 0, 0
  {
    PutValue(env, cs, m, ok, p.cond, st, st');
    var c := Eval(p.cond, Gets(env, st));
    if c.Some? && c.value != 0 && fuel > 0 {
      var st1, st1' := st.(loops := st.loops[p.name := i + 1]), st'.(loops := st'.loops[p.name := i + 1]);
      CountersValid(env, cs, m, ok, st, st', st.loops[p.name := i + 1]);
      RecollapseRuns(cs, m, ok, p.body, env, st1, st1', fuel - 1);
      var r, r' := Run(p.body, env, st1, fuel - 1), Run(PutBack(cs, m, p.body), env, st1', fuel - 1);
      if r.Done? {
        StillValidRun(env, cs, m, ok, st1, st1', r.s, r'.s, p.body, fuel - 1);
        RecollapseWhile(cs, m, ok, p, env, r.s, r'.s, i + 1, fuel - 1);
      }
    }
  }

  lemma {:induction false} RecollapseTimes(cs: set<Name>, m: Subst, ok: set<Name>, p: PStmt, env: Env, st: Store, st': Store, n: int, fuel: nat)
    requires p.PForEach? && Safe(cs, m, ok, p.body) && ok == Still(m, ok, Touched(p.body))
    requires Before(env, cs, m, ok, st, st')
    ensures Outcomes(cs, RunTimes(p, env, st, n, fuel), RunTimes(PutBack(cs, m, p), env, st', n, fuel))
    decreases fuel, p, 0, n
  {
    if n > 0 {
      RecollapseRuns(cs, m, ok, p.body, env, st, st', fuel);
      var r, r' := Run(p.body, env, st, fuel), Run(PutBack(cs, m, p.body), env, st', fuel);
      if r.Done? {
        StillValidRun(env, cs, m, ok, st, st', r.s, r'.s, p.body, fuel);
        RecollapseTimes(cs, m, ok, p, env, r.s, r'.s, n - 1, fuel);
      }
    }
  }

  /** Recollapsing preserves what a phase does, but for the variables that disappear: they must be
      its own, so that their logs are empty when it starts. */
  lemma RecollapsePreservesPhase(cs: set<Name>, p: PStmt, env: Env, st: Store, fuel: nat)
    requires Safe(cs, map[], {}, p)
    requires forall x | x in cs :: Input(env, x).None? && At(st, x).log == []
    ensures var a, b := Run(p, env, BeginPhase(st), fuel), Run(PutBack(cs, map[], p), env, BeginPhase(st), fuel);
            Outcomes(cs, a, b)
  {
    forall x | x in cs ensures At(BeginPhase(st), x) == Holder([], -1) {}
    RecollapseRuns(cs, map[], {}, p, env, BeginPhase(st), BeginPhase(st), fuel);
  }
}
