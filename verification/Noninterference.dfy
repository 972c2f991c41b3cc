/** Weaker data never influences stronger data. */
module Noninterference {
  import opened Labels
  import opened Syntax
  import opened Semantics
  import opened WellLabelled
  import opened Flows

  /** Which names and loop counters count as labelled `l` or stronger. */
  datatype View = View(l: Label, high: Name -> bool, counters: LoopName -> bool)

  /** A name is bound on one side of `l` only, and counted loops are on the upper side. */
  predicate Sides(c: View, s: Stmt<Label>) {
    match s
    case Let(_, bl, x, _, body) => (c.high(x) <==> bl >= c.l) && Sides(c, body)
    case If(_, _, a, b) => Sides(c, a) && Sides(c, b)
    case While(k, _, body, n) => (c.counters(n) ==> k >= c.l) && Sides(c, body)
    case Seq(_, a, b) => Sides(c, a) && Sides(c, b)
    case _ => true
  }

  ghost predicate ScopeSides(c: View, scope: Places) {
    forall x | x in scope :: c.high(x) <==> scope[x].level >= c.l
  }

  /** The worlds agree on everything labelled `l` or stronger. */
  ghost predicate Alike(c: View, w: World, v: World) {
    && (forall x | c.high(x) :: Hist(w, x) == Hist(v, x))
    && (forall n | c.counters(n) :: SameLoop(w.loops, v.loops, n))
    && (forall k: Label | k >= c.l :: Received(w.remote, k) == Received(v.remote, k))
  }

  lemma RefAlike(c: View, env: Env, scope: Places, r: Ref<Label>, w: World, v: World)
    requires Alike(c, w, v) && ScopeSides(c, scope) && RefFlows(env, scope, r) && r.l >= c.l
    ensures Read(env, w, r.x) == Read(env, v, r.x)
  {
  }

  lemma {:induction false} ExprAlike(c: View, env: Env, scope: Places, e: Expr<Label>, w: World, v: World)
    requires Alike(c, w, v) && ScopeSides(c, scope) && ExprFlows(env, scope, e) && ExprLabel(e) >= c.l
    ensures Eval(e, Reads(env, w)) == Eval(e, Reads(env, v))
  {
    match e
    case Const(_) =>
    case Var(r) => RefAlike(c, env, scope, r, w, v);
    case Bin(_, _, a, b) =>
      ExprAlike(c, env, scope, a, w, v);
      ExprAlike(c, env, scope, b, w, v);
  }

  lemma {:induction false} RefsAlike(c: View, env: Env, scope: Places, rs: seq<Ref<Label>>, w: World, v: World)
    requires Alike(c, w, v) && ScopeSides(c, scope) && RefsFlow(env, scope, rs) && RefsLabel(rs) >= c.l
    ensures EvalRefs(rs, Reads(env, w)) == EvalRefs(rs, Reads(env, v))
  {
    if rs != [] {
      RefAlike(c, env, scope, rs[0], w, v);
      RefsAlike(c, env, scope, rs[1..], w, v);
    }
  }

  /** A call the runs agree on reaches the stores alike; any other reaches only weaker stores. */
  lemma CallAlike(c: View, env: Env, scope: Places, call: Invoke<Label>, w: World, v: World, e: Event, f: Event)
    requires Alike(c, w, v) && ScopeSides(c, scope) && CallFlows(env, scope, call)
    requires EventOf(call, Reads(env, w)) == Some(e) && EventOf(call, Reads(env, v)) == Some(f)
    ensures var k := call.handleLabel;
            Alike(c, w.(remote := Send(env, w.remote, k, e).0), v.(remote := Send(env, v.remote, k, f).0))
    ensures call.handleLabel >= c.l ==> Send(env, w.remote, call.handleLabel, e).1 == Send(env, v.remote, call.handleLabel, f).1
  {
    if call.handleLabel >= c.l {
      RefAlike(c, env, scope, call.handle, w, v);
      RefsAlike(c, env, scope, call.args, w, v);
      assert Received(w.remote, call.handleLabel) == Received(v.remote, call.handleLabel);
    }
    var w', v' := Send(env, w.remote, call.handleLabel, e).0, Send(env, v.remote, call.handleLabel, f).0;
    forall k: Label | k >= c.l ensures Received(w', k) == Received(v', k) {
      assert Received(w.remote, k) == Received(v.remote, k);
    }
  }

  lemma WriteAlike(c: View, w: World, v: World, x: Name, a: int, b: int)
    requires Alike(c, w, v) && (c.high(x) ==> a == b)
    ensures Alike(c, Write(w, x, a), Write(v, x, b))
  {
    forall y | c.high(y) ensures Hist(Write(w, x, a), y) == Hist(Write(v, x, b), y) {
      assert Hist(w, y) == Hist(v, y);
    }
  }

  lemma RhsAlike(c: View, env: Env, scope: Places, pc: Label, rhs: Rhs<Label>, w: World, v: World)
    requires Alike(c, w, v) && ScopeSides(c, scope) && RhsFlows(env, scope, pc, rhs)
    requires ExecRhs(rhs, env, w).Some? && ExecRhs(rhs, env, v).Some?
    ensures var a, b := ExecRhs(rhs, env, w).value, ExecRhs(rhs, env, v).value;
            Alike(c, a.0, b.0) && (RhsLabel(rhs) >= c.l ==> a.1 == b.1)
  {
    match rhs
    case Pure(e) =>
      if ExprLabel(e) >= c.l { ExprAlike(c, env, scope, e, w, v); }
    case Remote(_, call) =>
      CallAlike(c, env, scope, call, w, v, EventOf(call, Reads(env, w)).value, EventOf(call, Reads(env, v)).value);
  }

  lemma CounterAlike(c: View, w: World, v: World, n: LoopName, i: int)
    requires Alike(c, w, v)
    ensures Alike(c, w.(loops := w.loops[n := i]), v.(loops := v.loops[n := i]))
  {
  }

  /** A counter nobody looks at. */
  lemma CounterHidden(c: View, w: World, n: LoopName, i: int)
    requires !c.counters(n)
    ensures Alike(c, w, w.(loops := w.loops[n := i]))
  {
  }

  lemma AlikeTrans(c: View, u: World, v: World, w: World)
    requires Alike(c, u, v) && Alike(c, v, w)
    ensures Alike(c, u, w)
  {
    forall n | c.counters(n) ensures SameLoop(u.loops, w.loops, n) {
      assert SameLoop(u.loops, v.loops, n) && SameLoop(v.loops, w.loops, n);
    }
    forall k: Label | k >= c.l ensures Received(u.remote, k) == Received(w.remote, k) {
      assert Received(u.remote, k) == Received(v.remote, k);
    }
  }

  lemma AlikeBack(c: View, u: World, v: World)
    requires Alike(c, u, v)
    ensures Alike(c, v, u)
  {
    forall n | c.counters(n) ensures SameLoop(v.loops, u.loops, n) {
      assert SameLoop(u.loops, v.loops, n);
    }
  }

  lemma WeakSend(c: View, env: Env, w: World, k: Label, e: Event)
    requires k < c.l
    ensures Alike(c, w, w.(remote := Send(env, w.remote, k, e).0))
  {
  }

  /** In a context weaker than `l` a statement leaves everything labelled `l` or stronger alone. */
  lemma {:induction false} WeakLeavesAlone(c: View, env: Env, scope: Places, pc: Label, s: Stmt<Label>, w: World, w': World, fuel: nat)
    requires StmtFlows(env, scope, pc, s) && ScopeSides(c, scope) && Sides(c, s) && CallsFrom(c.l, pc, s) && pc < c.l
    requires Exec(s, env, w, fuel) == Done(w')
    ensures Alike(c, w, w')
    decreases fuel, s, 1
  {
    match s
    case Let(_, _, _, _, _) => WeakLetLeavesAlone(c, env, scope, pc, s, w, w', fuel);
    case Assign(_, r, _) =>
    case Perform(_, call) => WeakSend(c, env, w, call.handleLabel, EventOf(call, Reads(env, w)).value);
    case Return(_, _) =>
    case If(k, cond, a, b) =>
      WeakLeavesAlone(c, env, scope, k, if Eval(cond, Reads(env, w)).value != 0 then a else b, w, w', fuel);
    case While(_, _, _, n) =>
      CounterHidden(c, w, n, 0);
      WeakLoopLeavesAlone(c, env, scope, pc, s, w.(loops := w.loops[n := 0]), w', 0, fuel);
      AlikeTrans(c, w, w.(loops := w.loops[n := 0]), w');
    case Skip(_) =>
    case Seq(_, a, b) =>
      var w1 := Exec(a, env, w, fuel).s;
      WeakLeavesAlone(c, env, scope, pc, a, w, w1, fuel);
      WeakLeavesAlone(c, env, scope, pc, b, w1, w', fuel);
      AlikeTrans(c, w, w1, w');
  }

  lemma {:induction false} WeakLetLeavesAlone(c: View, env: Env, scope: Places, pc: Label, s: Stmt<Label>, w: World, w': World, fuel: nat)
    requires s.Let? && StmtFlows(env, scope, pc, s) && ScopeSides(c, scope) && Sides(c, s) && CallsFrom(c.l, pc, s) && pc < c.l
    requires Exec(s, env, w, fuel) == Done(w')
    ensures Alike(c, w, w')
    decreases fuel, s, 0
  {
    var r := ExecRhs(s.rhs, env, w).value;
    if s.rhs.Remote? {
      WeakSend(c, env, w, s.rhs.call.handleLabel, EventOf(s.rhs.call, Reads(env, w)).value);
    }
    var w1 := Write(r.0, s.x, r.1);
    assert !c.high(s.x);
    AlikeTrans(c, w, r.0, w1);
    WeakLeavesAlone(c, env, scope[s.x := Place(s.bl, s.l)], pc, s.body, w1, w', fuel);
    AlikeTrans(c, w, w1, w');
  }

  lemma {:induction false} WeakLoopLeavesAlone(c: View, env: Env, scope: Places, pc: Label, s: Stmt<Label>, w: World, w': World, i: nat, fuel: nat)
    requires s.While? && StmtFlows(env, scope, pc, s) && ScopeSides(c, scope) && Sides(c, s) && CallsFrom(c.l, pc, s) && s.l < c.l
    requires Iterate(s, env, w, i, fuel) == Done(w')
    ensures Alike(c, w, w')
    decreases fuel, s, 0
  {
    if Eval(s.cond, Reads(env, w)).value != 0 {
      var w1 := w.(loops := w.loops[s.name := i + 1]);
      var w2 := Exec(s.body, env, w1, fuel - 1).s;
      CounterHidden(c, w, s.name, i + 1);
      WeakLeavesAlone(c, env, scope, s.l, s.body, w1, w2, fuel - 1);
      WeakLoopLeavesAlone(c, env, scope, pc, s, w2, w', i + 1, fuel - 1);
      AlikeTrans(c, w, w1, w2);
      AlikeTrans(c, w, w2, w');
    }
  }

  lemma BothAlike(c: View, w: World, v: World, w': World, v': World)
    requires Alike(c, w, v) && Alike(c, w, w') && Alike(c, v, v')
    ensures Alike(c, w', v')
  {
    AlikeBack(c, w, w');
    AlikeTrans(c, w', w, v);
    AlikeTrans(c, w', v, v');
  }

  /** Two terminating runs that start alike at `l` end alike at `l`. Of the program it is asked that it
      is lexically scoped and meets its constraints, that no name is bound on both sides of `l`, and
      that calls on objects of label `l` or stronger stand in contexts of label `l` or stronger. */
  lemma {:induction false} Noninterferes(c: View, env: Env, scope: Places, pc: Label, s: Stmt<Label>, w: World, v: World, w': World, v': World, f: nat, g: nat)
    requires StmtFlows(env, scope, pc, s) && ScopeSides(c, scope) && Sides(c, s) && CallsFrom(c.l, pc, s)
    requires Alike(c, w, v) && Exec(s, env, w, f) == Done(w') && Exec(s, env, v, g) == Done(v')
    ensures Alike(c, w', v')
    decreases f, s, 1
  {
    match s
    case Let(_, bl, x, rhs, body) => NoninterferesLet(c, env, scope, pc, s, w, v, w', v', f, g);
    case Assign(_, r, e) =>
      if r.l >= c.l { ExprAlike(c, env, scope, e, w, v); }
      WriteAlike(c, w, v, r.x, Eval(e, Reads(env, w)).value, Eval(e, Reads(env, v)).value);
    case Perform(_, call) =>
      CallAlike(c, env, scope, call, w, v, EventOf(call, Reads(env, w)).value, EventOf(call, Reads(env, v)).value);
    case Return(_, _) =>
    case If(k, cond, a, b) =>
      if k >= c.l {
        ExprAlike(c, env, scope, cond, w, v);
        Noninterferes(c, env, scope, k, if Eval(cond, Reads(env, w)).value != 0 then a else b, w, v, w', v', f, g);
      } else {
        WeakLeavesAlone(c, env, scope, k, if Eval(cond, Reads(env, w)).value != 0 then a else b, w, w', f);
        WeakLeavesAlone(c, env, scope, k, if Eval(cond, Reads(env, v)).value != 0 then a else b, v, v', g);
        BothAlike(c, w, v, w', v');
      }
    case While(_, _, _, n) =>
      CounterAlike(c, w, v, n, 0);
      NoninterferesLoop(c, env, scope, pc, s, w.(loops := w.loops[n := 0]), v.(loops := v.loops[n := 0]), w', v', 0, f, g);
    case Skip(_) =>
    case Seq(_, a, b) =>
      var w1, v1 := Exec(a, env, w, f).s, Exec(a, env, v, g).s;
      Noninterferes(c, env, scope, pc, a, w, v, w1, v1, f, g);
      Noninterferes(c, env, scope, pc, b, w1, v1, w', v', f, g);
  }

  lemma {:induction false} NoninterferesLet(c: View, env: Env, scope: Places, pc: Label, s: Stmt<Label>, w: World, v: World, w': World, v': World, f: nat, g: nat)
    requires s.Let? && StmtFlows(env, scope, pc, s) && ScopeSides(c, scope) && Sides(c, s) && CallsFrom(c.l, pc, s)
    requires Alike(c, w, v) && Exec(s, env, w, f) == Done(w') && Exec(s, env, v, g) == Done(v')
    ensures Alike(c, w', v')
    decreases f, s, 0
  {
    var a, b := ExecRhs(s.rhs, env, w).value, ExecRhs(s.rhs, env, v).value;
    RhsAlike(c, env, scope, pc, s.rhs, w, v);
    WriteAlike(c, a.0, b.0, s.x, a.1, b.1);
    Noninterferes(c, env, scope[s.x := Place(s.bl, s.l)], pc, s.body, Write(a.0, s.x, a.1), Write(b.0, s.x, b.1), w', v', f, g);
  }

  lemma {:induction false} NoninterferesLoop(c: View, env: Env, scope: Places, pc: Label, s: Stmt<Label>, w: World, v: World, w': World, v': World, i: nat, f: nat, g: nat)
    requires s.While? && StmtFlows(env, scope, pc, s) && ScopeSides(c, scope) && Sides(c, s) && CallsFrom(c.l, pc, s)
    requires Alike(c, w, v) && Iterate(s, env, w, i, f) == Done(w') && Iterate(s, env, v, i, g) == Done(v')
    ensures Alike(c, w', v')
    decreases f, s, 0
  {
    if s.l < c.l {
      WeakLoopLeavesAlone(c, env, scope, pc, s, w, w', i, f);
      WeakLoopLeavesAlone(c, env, scope, pc, s, v, v', i, g);
      BothAlike(c, w, v, w', v');
    } else {
      ExprAlike(c, env, scope, s.cond, w, v);
      if Eval(s.cond, Reads(env, w)).value != 0 {
        var w1, v1 := w.(loops := w.loops[s.name := i + 1]), v.(loops := v.loops[s.name := i + 1]);
        var w2, v2 := Exec(s.body, env, w1, f - 1).s, Exec(s.body, env, v1, g - 1).s;
        CounterAlike(c, w, v, s.name, i + 1);
        Noninterferes(c, env, scope, s.l, s.body, w1, v1, w2, v2, f - 1, g - 1);
        NoninterferesLoop(c, env, scope, pc, s, w2, v2, w', v', i + 1, f - 1, g - 1);
      }
    }
  }

  // --- well-labelled programs ---

  /** Labels as a signature gives them, seen from `l`. */
  function ViewFrom(sig: Sig, l: Label): View {
    View(l, (x: Name) => sig.level(x) >= l, (n: LoopName) => sig.loop(n) >= l)
  }

  lemma {:induction false} DescribedSides(sig: Sig, env: Env, l: Label, s: Stmt<Label>)
    requires Described(sig, env, s)
    ensures Sides(ViewFrom(sig, l), s)
  {
    match s
    case Let(_, _, _, _, body) => DescribedSides(sig, env, l, body);
    case If(_, _, a, b) =>
      DescribedSides(sig, env, l, a);
      DescribedSides(sig, env, l, b);
    case While(_, _, body, _) => DescribedSides(sig, env, l, body);
    case Seq(_, a, b) =>
      DescribedSides(sig, env, l, a);
      DescribedSides(sig, env, l, b);
    case _ =>
  }

  /** Where every call is permitted, this holds at every label. */
  lemma WellLabelledNoninterferes(sig: Sig, env: Env, l: Label, s: Stmt<Label>, w: World, v: World, w': World, v': World, f: nat, g: nat)
    requires StmtOk(sig, env, {}, TOP, s) && Alike(ViewFrom(sig, l), w, v)
    requires Exec(s, env, w, f) == Done(w') && Exec(s, env, v, g) == Done(v')
    ensures Alike(ViewFrom(sig, l), w', v')
  {
    OkIsFlows(sig, env, {}, map[], TOP, s);
    DescribedSides(sig, env, l, s);
    PermittedFrom(l, TOP, s);
    Noninterferes(ViewFrom(sig, l), env, map[], TOP, s, w, v, w', v', f, g);
  }
}
