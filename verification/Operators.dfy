/** What operators, calls and single statements compute, by laws that relate one to the other. */
module Operators {
  import opened Labels
  import opened Syntax
  import opened Semantics

  /** Knows no variable. */
  const Nothing: Reader := x => None

  /** An operation on two known values. */
  function Of(op: Op, a: int, b: int): Option<int> {
    Eval(Bin((), op, Const(a), Const(b)), Nothing)
  }

  lemma OfIs(op: Op, a: int, b: int)
    ensures Of(op, a, b) == Apply(op, a, b)
  {
    var u: Expr<()>, v: Expr<()> := Const(a), Const(b);
    assert Eval(u, Nothing) == Some(a) && Eval(v, Nothing) == Some(b);
  }

  /** An operation has a value exactly if its operands have and they are no division by zero, and then it is
      that of the same operation on the operands' values, in order. */
  lemma OperandsDecide<L>(l: L, op: Op, a: Expr<L>, b: Expr<L>, rd: Reader)
    ensures var u, v := Eval(a, rd), Eval(b, rd);
            if u.None? || v.None? then Eval(Bin(l, op, a, b), rd).None?
            else Eval(Bin(l, op, a, b), rd) == Of(op, u.value, v.value)
    ensures forall u, v :: Of(op, u, v).None? <==> op == Div && v == 0
  {
    forall u, v ensures Of(op, u, v).None? <==> op == Div && v == 0 { OfIs(op, u, v); }
    var u, v := Eval(a, rd), Eval(b, rd);
    if u.Some? && v.Some? { OfIs(op, u.value, v.value); }
  }

  /** Adding zero changes nothing, and adding one more gives one more. */
  lemma AddLaws(a: int, b: int)
    ensures Of(Add, a, 0) == Some(a)
    ensures Of(Add, a, b).Some? && Of(Add, a, b + 1) == Some(Of(Add, a, b).value + 1)
  {
    OfIs(Add, a, 0);
    OfIs(Add, a, b);
    OfIs(Add, a, b + 1);
  }

  /** Subtraction undoes addition. */
  lemma SubLaw(a: int, b: int)
    ensures Of(Add, a, b).Some? && Of(Sub, Of(Add, a, b).value, b) == Some(a)
  {
    OfIs(Add, a, b);
    OfIs(Sub, Of(Add, a, b).value, b);
  }

  /** Multiplication distributes over addition, on both sides, and one is its unit. */
  lemma MulLaws(a: int, b: int, c: int)
    ensures Of(Mul, a, 1) == Some(a) == Of(Mul, 1, a)
    ensures Of(Add, b, c).Some? && Of(Mul, a, b).Some? && Of(Mul, a, c).Some?
    ensures Of(Mul, a, Of(Add, b, c).value) == Of(Add, Of(Mul, a, b).value, Of(Mul, a, c).value)
    ensures Of(Mul, b, a).Some? && Of(Mul, c, a).Some?
    ensures Of(Mul, Of(Add, b, c).value, a) == Of(Add, Of(Mul, b, a).value, Of(Mul, c, a).value)
  {
    OfIs(Mul, a, 1);
    OfIs(Mul, 1, a);
    OfIs(Add, b, c);
    OfIs(Mul, a, b);
    OfIs(Mul, a, c);
    OfIs(Mul, b, a);
    OfIs(Mul, c, a);
    OfIs(Mul, a, b + c);
    OfIs(Mul, b + c, a);
    OfIs(Add, a * b, a * c);
    OfIs(Add, b * a, c * a);
    assert a * (b + c) == a * b + a * c && (b + c) * a == b * a + c * a;
  }

  /** Division truncates: what is left over is smaller than the divisor and has the sign of the dividend. */
  lemma DivLaw(a: int, b: int)
    ensures b == 0 ==> Of(Div, a, b).None?
    ensures b != 0 ==>
              Of(Div, a, b).Some? &&
              var r := a - Of(Div, a, b).value * b;
              (if r < 0 then -r else r) < (if b < 0 then -b else b) && (r != 0 ==> (r < 0 <==> a < 0))
  {
    OfIs(Div, a, b);
    if b != 0 {
      QuotientLeaves(a, b);
    }
  }

  lemma QuotientLeaves(a: int, b: int)
    requires b != 0
    ensures Quotient(a, b).Some? &&
            var r := a - Quotient(a, b).value * b;
            (if r < 0 then -r else r) < (if b < 0 then -b else b) && (r != 0 ==> (r < 0 <==> a < 0))
  {
    var m, n := if a < 0 then -a else a, if b < 0 then -b else b;
    assert m == (m / n) * n + m % n && 0 <= m % n < n;
    var q := Quotient(a, b).value;
    assert q == if (a < 0) == (b < 0) then m / n else -(m / n);
    assert q * b == if a < 0 then -((m / n) * n) else (m / n) * n;
  }

  predicate IsTruth(env: Env, v: Option<int>, b: bool) {
    v == Input(env, if b then True else False)
  }

  /** A comparison gives one of the boolean constants. Of `<`, `==` and `>` exactly one holds; `>` is `<`
      the other way round; and `<` holds exactly if the difference is negative. */
  lemma ComparisonLaws(env: Env, a: int, b: int)
    ensures Of(Sub, a, b).Some? && IsTruth(env, Of(Lt, a, b), Of(Sub, a, b).value < 0)
    ensures Of(Gt, a, b) == Of(Lt, b, a)
    ensures IsTruth(env, Of(Eq, a, b), Of(Lt, a, b) == Input(env, False) == Of(Gt, a, b))
    ensures !(Of(Lt, a, b) == Input(env, True) == Of(Gt, a, b))
  {
    OfIs(Sub, a, b);
    OfIs(Lt, a, b);
    OfIs(Gt, a, b);
    OfIs(Lt, b, a);
    OfIs(Eq, a, b);
  }

  /** `&&` and `||` take any value but zero for true. */
  lemma JunctionLaws(env: Env, a: int, b: int)
    ensures IsTruth(env, Of(And, a, b), a != 0 && b != 0) && IsTruth(env, Of(Or, a, b), !(a == 0 && b == 0))
    ensures Input(env, True) == Some(1) && Input(env, False) == Some(0)
  {
    OfIs(And, a, b);
    OfIs(Or, a, b);
  }

  // --- calls ---

  /** Arguments are evaluated in order, and all of them have to have a value. */
  lemma {:induction false} ArgumentsInOrder<L>(rs: seq<Ref<L>>, rd: Reader)
    ensures var r := EvalRefs(rs, rd);
            && (r.Some? <==> forall i | 0 <= i < |rs| :: rd(rs[i].x).Some?)
            && (r.Some? ==> |r.value| == |rs| && forall i | 0 <= i < |rs| :: rd(rs[i].x) == Some(r.value[i]))
    decreases rs
  {
    if rs != [] {
      ArgumentsInOrder(rs[1..], rd);
      var r := EvalRefs(rs, rd);
      assert forall i | 0 <= i < |rs| :: rs[i] == if i == 0 then rs[0] else rs[1..][i - 1];
      if rd(rs[0].x).Some? && forall i | 0 <= i < |rs[1..]| :: rd(rs[1..][i].x).Some? {
        forall i | 0 <= i < |rs| ensures rd(rs[i].x) == Some(r.value[i]) {
          if i > 0 { assert r.value[i] == EvalRefs(rs[1..], rd).value[i - 1]; }
        }
      }
      if forall i | 0 <= i < |rs| :: rd(rs[i].x).Some? {
        assert rd(rs[0].x).Some?;
        forall i | 0 <= i < |rs[1..]| ensures rd(rs[1..][i].x).Some? { assert rs[i + 1] == rs[1..][i]; }
      }
    }
  }

  /** A call sends its name, its handle's value and its arguments' values in order. */
  lemma CallSends<L>(c: Invoke<L>, rd: Reader)
    ensures var e := EventOf(c, rd);
            && (e.Some? <==> rd(c.handle.x).Some? && forall i | 0 <= i < |c.args| :: rd(c.args[i].x).Some?)
            && (e.Some? ==> e.value.op == c.name && rd(c.handle.x) == Some(e.value.handle) && |e.value.args| == |c.args|
                            && forall i | 0 <= i < |c.args| :: rd(c.args[i].x) == Some(e.value.args[i]))
  {
    ArgumentsInOrder(c.args, rd);
  }

  /** It arrives at its object's store behind all earlier ones and nowhere else, and the store answers
      knowing all of them. */
  lemma SendAppends(env: Env, m: map<Label, seq<Event>>, k: Label, e: Event)
    ensures var (n, v) := Send(env, m, k, e);
            && (forall j: Label :: Received(n, j) == if j == k then Received(m, j) + [e] else Received(m, j))
            && v == env.respond(k, Received(n, k))
  {
  }

  // --- statements ---

  /** `e && 1`. */
  function AndOne<L>(l: L, e: Expr<L>): Expr<L> {
    Bin(l, And, e, Const(1))
  }

  /** `e == 0`. */
  function IsZero<L>(l: L, e: Expr<L>): Expr<L> {
    Bin(l, Eq, e, Const(0))
  }

  lemma CondIs<L>(l: L, e: Expr<L>, rd: Reader)
    ensures var v, one, zero := Eval(e, rd), Eval(AndOne(l, e), rd), Eval(IsZero(l, e), rd);
            if v.None? then one == zero == None else one == Some(Truth(v.value != 0)) && zero == Some(Truth(v.value == 0))
  {
    var a: Expr<L>, b: Expr<L> := Const(1), Const(0);
    assert Eval(a, rd) == Some(1) && Eval(b, rd) == Some(0);
  }

  /** A condition is true exactly where `&&` takes it for true, and equality with zero is its negation. */
  lemma ConditionLaws<L>(l: L, cond: Expr<L>, a: Stmt<L>, b: Stmt<L>, env: Env, w: World, fuel: nat)
    ensures Exec(If(l, cond, a, b), env, w, fuel) == Exec(If(l, AndOne(l, cond), a, b), env, w, fuel)
    ensures Exec(If(l, cond, a, b), env, w, fuel) == Exec(If(l, IsZero(l, cond), b, a), env, w, fuel)
  {
    CondIs(l, cond, Reads(env, w));
  }

  lemma {:induction false} LoopCondition<L>(l: L, cond: Expr<L>, body: Stmt<L>, name: LoopName, env: Env, w: World, i: nat, fuel: nat)
    ensures Iterate(While(l, cond, body, name), env, w, i, fuel) == Iterate(While(l, AndOne(l, cond), body, name), env, w, i, fuel)
    decreases fuel
  {
    CondIs(l, cond, Reads(env, w));
    var v := Eval(cond, Reads(env, w));
    if v.Some? && v.value != 0 && fuel > 0 {
      var r := Exec(body, env, w.(loops := w.loops[name := i + 1]), fuel - 1);
      if r.Done? { LoopCondition(l, cond, body, name, env, r.s, i + 1, fuel - 1); }
    }
  }

  /** The condition of a loop is true exactly where `&&` takes it for true; where it is false at once the
      loop only sets its counter to zero. */
  lemma LoopLaws<L>(l: L, cond: Expr<L>, body: Stmt<L>, name: LoopName, env: Env, w: World, fuel: nat)
    ensures Exec(While(l, cond, body, name), env, w, fuel) == Exec(While(l, AndOne(l, cond), body, name), env, w, fuel)
    ensures Eval(cond, Reads(env, w)) == Some(0) ==> Exec(While(l, cond, body, name), env, w, fuel) == Done(w.(loops := w.loops[name := 0]))
  {
    LoopCondition(l, cond, body, name, env, w.(loops := w.loops[name := 0]), 0, fuel);
    EvalAgree(cond, Reads(env, w), Reads(env, w.(loops := w.loops[name := 0])));
  }

  /** What is assigned is what is read from then on; nothing else changes. */
  lemma AssignmentLaw<L>(l: L, target: Ref<L>, e: Expr<L>, env: Env, w: World, fuel: nat)
    requires Input(env, target.x).None?
    ensures var r, v := Exec(Assign(l, target, e), env, w, fuel), Eval(e, Reads(env, w));
            if v.None? then r.Fault?
            else r.Done? && Eval(Var(target), Reads(env, r.s)) == v
                 && (forall y: Ref<L> | y.x != target.x :: Eval(Var(y), Reads(env, r.s)) == Eval(Var(y), Reads(env, w)))
                 && r.s.remote == w.remote && r.s.ret == w.ret && r.s.loops == w.loops
  {
  }

  /** Binding a variable to an expression is assigning to it in front of what follows. */
  lemma BindingLaw<L>(l: L, bl: L, x: Name, e: Expr<L>, body: Stmt<L>, env: Env, w: World, fuel: nat)
    ensures Exec(Let(l, bl, x, Pure(e), body), env, w, fuel) == Exec(Seq(l, Assign(l, Ref(l, x), e), body), env, w, fuel)
  {
    var a: Stmt<L> := Assign(l, Ref(l, x), e);
    assert Exec(Seq(l, a, body), env, w, fuel) == if Exec(a, env, w, fuel).Done? then Exec(body, env, Exec(a, env, w, fuel).s, fuel) else Exec(a, env, w, fuel);
  }

  /** Binding a variable to the answer of a call makes the call, and the variable is the answer of the
      object's store to it. */
  lemma CallLaw<L>(l: L, bl: L, x: Name, c: Invoke<L>, env: Env, w: World, fuel: nat)
    requires Input(env, x).None?
    ensures var p, r, e := Exec(Perform(l, c), env, w, fuel), Exec(Let(l, bl, x, Remote(l, c), Skip(l)), env, w, fuel), EventOf(c, Reads(env, w));
            if e.None? then p.Fault? && r.Fault?
            else p.Done? && r.Done? && r.s.remote == p.s.remote && p.s.hist == w.hist && p.s.ret == r.s.ret == w.ret
                 && (forall k: Label :: Received(p.s.remote, k) == if k == c.handleLabel then Received(w.remote, k) + [e.value] else Received(w.remote, k))
                 && Read(env, r.s, x) == Some(env.respond(c.handleLabel, Received(p.s.remote, c.handleLabel)))
                 && forall y | y != x :: Read(env, r.s, y) == Read(env, w, y)
  {
    var e := EventOf(c, Reads(env, w));
    if e.Some? {
      var sent := Send(env, w.remote, c.handleLabel, e.value);
      var w1 := Write(w.(remote := sent.0), x, sent.1);
      var done: Stmt<L> := Skip(l);
      assert Exec(done, env, w1, fuel) == Done(w1);
    }
  }

  /** A return gives its expression's value, and changes nothing else. */
  lemma ReturnLaw<L>(l: L, e: Expr<L>, env: Env, w: World, fuel: nat)
    ensures var r, v := Exec(Return(l, e), env, w, fuel), Eval(e, Reads(env, w));
            if v.None? then r.Fault? else r == Done(World(w.hist, w.loops, w.remote, v))
  {
  }
}
