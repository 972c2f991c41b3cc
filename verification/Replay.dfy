/** How a phase's store follows the unsplit run while the phase replays it. */
module Replay {
  import opened Labels
  import opened Syntax
  import opened Semantics
  import opened SplitPhase
  import opened PhaseRun
  import opened WellLabelled

  /** A phase of label `l`, started on store `base`, replaying a run that ends in `fin`. */
  datatype Phase = Phase(sig: Sig, env: Env, l: Label, fin: World, base: Store)

  function First(h: seq<int>): seq<int> {
    if h == [] then [] else [h[0]]
  }

  /** The log of `x` while the unsplit run stands at `w`. Entries stronger phases made are there
      from the start, up to the end of the run; entries of this phase appear as they are made. */
  ghost function LogOf(c: Phase, w: World, x: Name): seq<int> {
    var level, birth, late := c.sig.level(x), c.sig.birth(x), c.sig.late(x);
    if level > c.l then Hist(c.fin, x)
    else if level == c.l then
      if birth <= c.l then Hist(w, x)
      else if !late then Hist(c.fin, x)
      else if Hist(w, x) == [] then First(Hist(c.fin, x))
      else Hist(w, x)
    else
      if birth > c.l then (if late then First(Hist(c.fin, x)) else Hist(c.fin, x))
      else if birth == c.l then (if late then First(Hist(w, x)) else Hist(w, x))
      else []
  }

  /** The replay invariant: a readable variable's cursor stands at the last write the unsplit run
      has made to it so far, counting from zero. */
  ghost predicate Follows(c: Phase, w: World, st: Store) {
    && (forall x :: VarFollows(c, w, st, x))
    && (forall n :: c.sig.loop(n) == c.l ==> KeepsLoop(st.loops, w.loops, n))
    && (forall n :: c.sig.loop(n) > c.l ==> KeepsLoop(st.loops, c.fin.loops, n))
    && (forall k: Label :: Received(st.remote, k) == Received(if k == c.l then w.remote else c.base.remote, k))
    && st.ret == (if c.l == BOTTOM then w.ret else c.base.ret)
  }

  /** A loop that has run has its count in `a`. */
  predicate KeepsLoop(a: map<LoopName, int>, b: map<LoopName, int>, n: LoopName) {
    n in b ==> n in a && a[n] == b[n]
  }

  ghost predicate VarFollows(c: Phase, w: World, st: Store, x: Name) {
    && At(st, x).log == LogOf(c, w, x)
    && (c.sig.level(x) >= c.l ==> At(st, x).pos == |Hist(w, x)| - 1)
    && (c.sig.level(x) < c.l && c.sig.birth(x) == c.l ==> At(st, x).pos == |At(st, x).log| - 1)
  }

  /** `w` lies on the way to the end of the run, with variables in scope already written. */
  ghost predicate OnTheWay(c: Phase, scope: set<Name>, w: World) {
    && (forall x :: Hist(w, x) <= Hist(c.fin, x))
    && (forall x | x in scope :: Hist(w, x) != [])
  }

  /** In the phases a reference may influence, the cursor yields what the unsplit run reads. */
  lemma ReadAgrees(c: Phase, scope: set<Name>, w: World, st: Store, r: Ref<Label>)
    requires Follows(c, w, st) && OnTheWay(c, scope, w)
    requires RefOk(c.sig, c.env, scope, r) && FlowsTo(r.l, c.l)
    ensures Get(c.env, st, r.x) == Read(c.env, w, r.x)
  {
    assert VarFollows(c, w, st, r.x);
    assert Hist(w, r.x) <= Hist(c.fin, r.x);
  }

  lemma {:induction false} EvalAgrees(c: Phase, scope: set<Name>, w: World, st: Store, e: Expr<Label>)
    requires Follows(c, w, st) && OnTheWay(c, scope, w)
    requires ExprOk(c.sig, c.env, scope, e) && FlowsTo(ExprLabel(e), c.l)
    ensures Eval(StripExpr(e), Gets(c.env, st)) == Eval(e, Reads(c.env, w))
  {
    match e
    case Const(_) =>
    case Var(r) => ReadAgrees(c, scope, w, st, r);
    case Bin(_, _, a, b) =>
      EvalAgrees(c, scope, w, st, a);
      EvalAgrees(c, scope, w, st, b);
  }

  lemma {:induction false} RefsAgree(c: Phase, scope: set<Name>, w: World, st: Store, rs: seq<Ref<Label>>)
    requires Follows(c, w, st) && OnTheWay(c, scope, w)
    requires RefsOk(c.sig, c.env, scope, rs) && FlowsTo(RefsLabel(rs), c.l)
    ensures EvalRefs(StripRefs(rs), Gets(c.env, st)) == EvalRefs(rs, Reads(c.env, w))
  {
    if rs != [] {
      ReadAgrees(c, scope, w, st, rs[0]);
      RefsAgree(c, scope, w, st, rs[1..]);
      assert StripRefs(rs)[1..] == StripRefs(rs[1..]);
    }
  }

  lemma EventAgrees(c: Phase, scope: set<Name>, w: World, st: Store, pc: Label, call: Invoke<Label>)
    requires Follows(c, w, st) && OnTheWay(c, scope, w)
    requires CallOk(c.sig, c.env, scope, pc, call) && call.handleLabel == c.l
    ensures EventOf(StripCall(call), Gets(c.env, st)) == EventOf(call, Reads(c.env, w))
  {
    ReadAgrees(c, scope, w, st, call.handle);
    RefsAgree(c, scope, w, st, call.args);
  }

  /** A call made by this phase: its store's history extends as in the unsplit run. */
  lemma OwnCall(c: Phase, w: World, st: Store, ev: Event)
    requires Follows(c, w, st)
    ensures Send(c.env, st.remote, c.l, ev).1 == Send(c.env, w.remote, c.l, ev).1
    ensures Follows(c, w.(remote := Send(c.env, w.remote, c.l, ev).0), st.(remote := Send(c.env, st.remote, c.l, ev).0))
  {
    var w', st' := w.(remote := Send(c.env, w.remote, c.l, ev).0), st.(remote := Send(c.env, st.remote, c.l, ev).0);
    forall x ensures VarFollows(c, w', st', x) {
      assert VarFollows(c, w, st, x);
    }
    forall k: Label ensures Received(st'.remote, k) == Received(if k == c.l then w'.remote else c.base.remote, k) {
      assert Received(st.remote, k) == Received(if k == c.l then w.remote else c.base.remote, k);
      assert Received(st.remote, c.l) == Received(w.remote, c.l);
    }
  }

  lemma ForeignCall(c: Phase, w: World, st: Store, k: Label, ev: Event)
    requires Follows(c, w, st) && k != c.l
    ensures Follows(c, w.(remote := Send(c.env, w.remote, k, ev).0), st)
  {
    var w' := w.(remote := Send(c.env, w.remote, k, ev).0);
    forall x ensures VarFollows(c, w', st, x) {
      assert VarFollows(c, w, st, x);
    }
  }

  /** A variable this phase may write: it binds it for the first time, or it owns it and holds
      all of its history so far. */
  ghost predicate Writable(c: Phase, w: World, x: Name) {
    || (c.sig.birth(x) == c.l && c.sig.level(x) <= c.l && (c.sig.late(x) ==> c.sig.level(x) == c.l || Hist(w, x) == []))
    || (c.sig.level(x) == c.l && Hist(w, x) != [] && (c.sig.birth(x) == c.l || c.sig.late(x)))
  }

  /** A push lands at the cursor. */
  lemma OwnWrite(c: Phase, w: World, st: Store, x: Name, v: int)
    requires Follows(c, w, st) && Writable(c, w, x)
    ensures var h := Push(At(st, x), v); InRange(h) && Follows(c, Write(w, x, v), Update(st, x, h))
  {
    var w', st' := Write(w, x, v), Update(st, x, Push(At(st, x), v));
    assert VarFollows(c, w, st, x);
    forall y ensures VarFollows(c, w', st', y) {
      assert VarFollows(c, w, st, y);
      assert y != x ==> Hist(w', y) == Hist(w, y) && At(st', y) == At(st, y);
    }
  }

  /** A write by a stronger phase is already in the log: the cursor moves past it. */
  lemma StrongerWrite(c: Phase, w: World, st: Store, x: Name, v: int)
    requires Follows(c, w, st) && Hist(Write(w, x, v), x) <= Hist(c.fin, x)
    requires c.sig.level(x) > c.l || (c.sig.birth(x) > c.l && (c.sig.late(x) ==> Hist(w, x) == []))
    ensures Follows(c, Write(w, x, v), Update(st, x, Increment(At(st, x))))
  {
    var w', st' := Write(w, x, v), Update(st, x, Increment(At(st, x)));
    assert VarFollows(c, w, st, x);
    forall y ensures VarFollows(c, w', st', y) {
      assert VarFollows(c, w, st, y);
      assert y != x ==> Hist(w', y) == Hist(w, y) && At(st', y) == At(st, y);
    }
  }

  /** Moving the cursor of a variable bound by a weaker phase makes no difference. */
  lemma WeakerIncrement(c: Phase, w: World, st: Store, x: Name)
    requires Follows(c, w, st) && c.sig.level(x) < c.l && c.sig.birth(x) != c.l
    ensures Follows(c, w, Update(st, x, Increment(At(st, x))))
  {
    var st' := Update(st, x, Increment(At(st, x)));
    forall y ensures VarFollows(c, w, st', y) {
      assert VarFollows(c, w, st, y);
    }
  }

  /** A binding made by a weaker phase is not in any log of this phase. */
  lemma WeakerWrite(c: Phase, w: World, st: Store, x: Name, v: int)
    requires Follows(c, w, st) && c.sig.level(x) < c.l && c.sig.birth(x) < c.l
    ensures Follows(c, Write(w, x, v), st)
  {
    forall y ensures VarFollows(c, Write(w, x, v), st, y) {
      assert VarFollows(c, w, st, y);
      assert y != x ==> Hist(Write(w, x, v), y) == Hist(w, y);
    }
  }

  /** Setting a loop counter, in the run and, if the loop is this phase's, in the store. */
  lemma CounterSet(c: Phase, w: World, st: Store, n: LoopName, i: int)
    requires Follows(c, w, st) && c.sig.loop(n) >= c.l
    ensures var w' := w.(loops := w.loops[n := i]);
            Follows(c, w', if c.sig.loop(n) == c.l then st.(loops := st.loops[n := i]) else st)
  {
    var w' := w.(loops := w.loops[n := i]);
    var st' := if c.sig.loop(n) == c.l then st.(loops := st.loops[n := i]) else st;
    forall y ensures VarFollows(c, w', st', y) {
      assert VarFollows(c, w, st, y);
    }
    forall k: Label ensures Received(st'.remote, k) == Received(if k == c.l then w'.remote else c.base.remote, k) {
      assert Received(st.remote, k) == Received(if k == c.l then w.remote else c.base.remote, k);
    }
  }

  lemma Returned(c: Phase, w: World, st: Store, r: Option<int>)
    requires Follows(c, w, st)
    ensures Follows(c, w.(ret := r), if c.l == BOTTOM then st.(ret := r) else st)
  {
    var w', st' := w.(ret := r), if c.l == BOTTOM then st.(ret := r) else st;
    forall y ensures VarFollows(c, w', st', y) {
      assert VarFollows(c, w, st, y);
    }
    forall k: Label ensures Received(st'.remote, k) == Received(if k == c.l then w'.remote else c.base.remote, k) {
      assert Received(st.remote, k) == Received(if k == c.l then w.remote else c.base.remote, k);
    }
  }

  /** What the unsplit run does in contexts too weak for this phase cannot be seen here. */
  lemma Vanish(c: Phase, scope: set<Name>, pc: Label, bound: set<Name>, loops: set<LoopName>, w: World, w': World, st: Store)
    requires Follows(c, w, st) && OnTheWay(c, scope, w)
    requires Changes(c.sig, scope, pc, bound, loops, w, w') && pc < c.l
    ensures Follows(c, w', st)
  {
    forall x ensures VarFollows(c, w', st, x) {
      assert VarFollows(c, w, st, x) && Hist(w, x) <= Hist(w', x);
      if Hist(w, x) != Hist(w', x) {
        assert MayWrite(c.sig, scope, pc, bound, x);
      }
    }
    forall n | c.sig.loop(n) == c.l ensures KeepsLoop(st.loops, w'.loops, n) {
      assert KeepsLoop(st.loops, w.loops, n) && SameLoop(w.loops, w'.loops, n);
    }
  }
}
