/** Returning ends a program at once. Phases cannot do that: a return is run by the last one, when
    the others are through. The compiler therefore wants it to be the last statement. */
module Returns {
  import opened Syntax
  import opened Semantics

  /** Runs a program that has not returned yet, up to its first return. */
  function ExecStops<L>(s: Stmt<L>, env: Env, w: World, fuel: nat): Outcome<World>
    decreases fuel, s, 1
  {
    match s
    case Let(_, _, x, rhs, body) =>
      var r := ExecRhs(rhs, env, w);
      if r.None? then Fault else ExecStops(body, env, Write(r.value.0, x, r.value.1), fuel)
    case If(_, cond, a, b) =>
      var v := Eval(cond, Reads(env, w));
      if v.None? then Fault else ExecStops(if v.value != 0 then a else b, env, w, fuel)
    case While(_, _, _, name) =>
      IterateStops(s, env, w.(loops := w.loops[name := 0]), 0, fuel)
    case Seq(_, a, b) =>
      var r := ExecStops(a, env, w, fuel);
      if r.Done? && r.s.ret.None? then ExecStops(b, env, r.s, fuel) else r
    case _ => Exec(s, env, w, fuel)
  }

  function IterateStops<L>(s: Stmt<L>, env: Env, w: World, i: nat, fuel: nat): Outcome<World>
    requires s.While?
    decreases fuel, s, 0
  {
    var v := Eval(s.cond, Reads(env, w));
    if v.None? then Fault
    else if v.value == 0 then Done(w)
    else if fuel == 0 then Timeout
    else
      var r := ExecStops(s.body, env, w.(loops := w.loops[s.name := i + 1]), fuel - 1);
      if r.Done? && r.s.ret.None? then IterateStops(s, env, r.s, i + 1, fuel - 1) else r
  }

  predicate HasReturn<L>(s: Stmt<L>) {
    match s
    case Let(_, _, _, _, body) => HasReturn(body)
    case Return(_, _) => true
    case If(_, _, a, b) => HasReturn(a) || HasReturn(b)
    case While(_, _, body, _) => HasReturn(body)
    case Seq(_, a, b) => HasReturn(a) || HasReturn(b)
    case _ => false
  }

  /** Nothing follows a return. */
  predicate ReturnsLast<L>(s: Stmt<L>) {
    match s
    case Let(_, _, _, _, body) => ReturnsLast(body)
    case If(_, _, a, b) => ReturnsLast(a) && ReturnsLast(b)
    case While(_, _, body, _) => !HasReturn(body)
    case Seq(_, a, b) => ReturnsLast(a) && ReturnsLast(b) && (HasReturn(a) ==> b.Skip?)
    case _ => true
  }

  /** What the compiler checks: a return stands outside branches and loops, and is the last statement
      of its own list. */
  predicate Accepted<L>(allowed: bool, s: Stmt<L>) {
    match s
    case Let(_, _, _, _, body) => Accepted(allowed, body)
    case Return(_, _) => allowed
    case If(_, _, a, b) => Accepted(false, a) && Accepted(false, b)
    case While(_, _, body, _) => Accepted(false, body)
    case Seq(_, a, b) => if a.Return? then allowed && b.Skip? else Accepted(allowed, a) && Accepted(allowed, b)
    case _ => true
  }

  /** Only the last statement of a list is a block with a return in it. */
  predicate BlocksLast<L>(s: Stmt<L>) {
    match s
    case Let(_, _, _, _, body) => BlocksLast(body)
    case If(_, _, a, b) => BlocksLast(a) && BlocksLast(b)
    case While(_, _, body, _) => BlocksLast(body)
    case Seq(_, a, b) => BlocksLast(a) && BlocksLast(b) && (!a.Return? && HasReturn(a) ==> b.Skip?)
    case _ => true
  }

  /** No branch and no loop holds a return. */
  predicate ReturnsOutside<L>(s: Stmt<L>) {
    match s
    case Let(_, _, _, _, body) => ReturnsOutside(body)
    case If(_, _, a, b) => !HasReturn(a) && !HasReturn(b)
    case While(_, _, body, _) => !HasReturn(body)
    case Seq(_, a, b) => ReturnsOutside(a) && ReturnsOutside(b)
    case _ => true
  }

  /** No return is directly followed by a statement of its list. */
  predicate NothingBehind<L>(s: Stmt<L>) {
    match s
    case Let(_, _, _, _, body) => NothingBehind(body)
    case If(_, _, a, b) => NothingBehind(a) && NothingBehind(b)
    case While(_, _, body, _) => NothingBehind(body)
    case Seq(_, a, b) => NothingBehind(a) && NothingBehind(b) && (a.Return? ==> b.Skip?)
    case _ => true
  }

  lemma {:induction false} NoReturnBehind<L>(s: Stmt<L>)
    requires !HasReturn(s)
    ensures NothingBehind(s) && ReturnsOutside(s)
  {
    match s
    case Let(_, _, _, _, body) => NoReturnBehind(body);
    case If(_, _, a, b) =>
      NoReturnBehind(a);
      NoReturnBehind(b);
    case While(_, _, body, _) => NoReturnBehind(body);
    case Seq(_, a, b) =>
      NoReturnBehind(a);
      NoReturnBehind(b);
    case _ =>
  }

  /** The check accepts exactly the programs without returns in branches and loops in which no return is
      directly followed by statements of its list. */
  lemma {:induction false} AcceptedIff<L>(s: Stmt<L>)
    ensures Accepted(true, s) <==> ReturnsOutside(s) && NothingBehind(s)
  {
    match s
    case Let(_, _, _, _, body) => AcceptedIff(body);
    case If(_, _, a, b) =>
      NoReturnAccepted(a);
      NoReturnAccepted(b);
      if !HasReturn(a) && !HasReturn(b) {
        NoReturnBehind(a);
        NoReturnBehind(b);
      }
    case While(_, _, body, _) =>
      NoReturnAccepted(body);
      if !HasReturn(body) { NoReturnBehind(body); }
    case Seq(_, a, b) =>
      AcceptedIff(a);
      AcceptedIff(b);
    case _ =>
  }

  lemma {:induction false} NoReturnAccepted<L>(s: Stmt<L>)
    ensures Accepted(false, s) <==> !HasReturn(s)
  {
    match s
    case Let(_, _, _, _, body) => NoReturnAccepted(body);
    case If(_, _, a, b) =>
      NoReturnAccepted(a);
      NoReturnAccepted(b);
    case While(_, _, body, _) => NoReturnAccepted(body);
    case Seq(_, a, b) =>
      NoReturnAccepted(a);
      NoReturnAccepted(b);
    case _ =>
  }

  lemma {:induction false} NoReturnIsLast<L>(s: Stmt<L>)
    requires !HasReturn(s)
    ensures ReturnsLast(s) && BlocksLast(s)
  {
    match s
    case Let(_, _, _, _, body) => NoReturnIsLast(body);
    case If(_, _, a, b) =>
      NoReturnIsLast(a);
      NoReturnIsLast(b);
    case While(_, _, body, _) => NoReturnIsLast(body);
    case Seq(_, a, b) =>
      NoReturnIsLast(a);
      NoReturnIsLast(b);
    case _ =>
  }

  /** The check does what it is for exactly if no block with a return is followed by statements. */
  lemma {:induction false} AcceptedReturnsLast<L>(s: Stmt<L>)
    requires Accepted(true, s)
    ensures ReturnsLast(s) <==> BlocksLast(s)
  {
    match s
    case Let(_, _, _, _, body) => AcceptedReturnsLast(body);
    case If(_, _, a, b) =>
      NoReturnAccepted(a);
      NoReturnAccepted(b);
      NoReturnIsLast(a);
      NoReturnIsLast(b);
    case While(_, _, body, _) =>
      NoReturnAccepted(body);
      NoReturnIsLast(body);
    case Seq(_, a, b) =>
      if !a.Return? {
        AcceptedReturnsLast(a);
        AcceptedReturnsLast(b);
      }
    case _ =>
  }

  lemma {:induction false} KeepsRet<L>(s: Stmt<L>, env: Env, w: World, w': World, fuel: nat)
    requires !HasReturn(s) && Exec(s, env, w, fuel) == Done(w')
    ensures w'.ret == w.ret
    decreases fuel, s, 1
  {
    match s
    case Let(_, _, x, rhs, body) =>
      var r := ExecRhs(rhs, env, w).value;
      KeepsRet(body, env, Write(r.0, x, r.1), w', fuel);
    case If(_, cond, a, b) => KeepsRet(if Eval(cond, Reads(env, w)).value != 0 then a else b, env, w, w', fuel);
    case While(_, _, _, name) => LoopKeepsRet(s, env, w.(loops := w.loops[name := 0]), w', 0, fuel);
    case Seq(_, a, b) =>
      var mid := Exec(a, env, w, fuel).s;
      KeepsRet(a, env, w, mid, fuel);
      KeepsRet(b, env, mid, w', fuel);
    case _ =>
  }

  lemma {:induction false} LoopKeepsRet<L>(s: Stmt<L>, env: Env, w: World, w': World, i: nat, fuel: nat)
    requires s.While? && !HasReturn(s) && Iterate(s, env, w, i, fuel) == Done(w')
    ensures w'.ret == w.ret
    decreases fuel, s, 0
  {
    if Eval(s.cond, Reads(env, w)).value != 0 {
      var w1 := w.(loops := w.loops[s.name := i + 1]);
      var mid := Exec(s.body, env, w1, fuel - 1).s;
      KeepsRet(s.body, env, w1, mid, fuel - 1);
      LoopKeepsRet(s, env, mid, w', i + 1, fuel - 1);
    }
  }

  /** Where nothing follows a return, it does not matter that returning ends the program. */
  lemma {:induction false} StopsIsExec<L>(s: Stmt<L>, env: Env, w: World, fuel: nat)
    requires ReturnsLast(s) && w.ret.None?
    ensures ExecStops(s, env, w, fuel) == Exec(s, env, w, fuel)
    decreases fuel, s, 1
  {
    match s
    case Let(_, _, x, rhs, body) =>
      var r := ExecRhs(rhs, env, w);
      if r.Some? { StopsIsExec(body, env, Write(r.value.0, x, r.value.1), fuel); }
    case If(_, cond, a, b) =>
      StopsIsExec(a, env, w, fuel);
      StopsIsExec(b, env, w, fuel);
    case While(_, _, _, name) => LoopStopsIsExec(s, env, w.(loops := w.loops[name := 0]), 0, fuel);
    case Seq(_, a, b) =>
      StopsIsExec(a, env, w, fuel);
      var r := Exec(a, env, w, fuel);
      if r.Done? && !b.Skip? { KeepsRet(a, env, w, r.s, fuel); }
      if r.Done? && r.s.ret.None? { StopsIsExec(b, env, r.s, fuel); }
    case _ =>
  }

  lemma {:induction false} LoopStopsIsExec<L>(s: Stmt<L>, env: Env, w: World, i: nat, fuel: nat)
    requires s.While? && ReturnsLast(s) && w.ret.None?
    ensures IterateStops(s, env, w, i, fuel) == Iterate(s, env, w, i, fuel)
    decreases fuel, s, 0
  {
    var c := Eval(s.cond, Reads(env, w));
    if c.Some? && c.value != 0 && fuel > 0 {
      NoReturnIsLast(s.body);
      var w1 := w.(loops := w.loops[s.name := i + 1]);
      StopsIsExec(s.body, env, w1, fuel - 1);
      var r := Exec(s.body, env, w1, fuel - 1);
      if r.Done? {
        KeepsRet(s.body, env, w1, r.s, fuel - 1);
        LoopStopsIsExec(s, env, r.s, i + 1, fuel - 1);
      }
    }
  }

  /** An accepted return is reached by every run that ends. */
  lemma {:induction false} ReturnIsReached<L>(s: Stmt<L>, env: Env, w: World, fuel: nat)
    requires Accepted(true, s) && HasReturn(s) && Exec(s, env, w, fuel).Done?
    ensures Exec(s, env, w, fuel).s.ret.Some?
    decreases s
  {
    match s
    case Let(_, _, x, rhs, body) =>
      var r := ExecRhs(rhs, env, w).value;
      ReturnIsReached(body, env, Write(r.0, x, r.1), fuel);
    case If(_, _, a, b) =>
      NoReturnAccepted(a);
      NoReturnAccepted(b);
    case While(_, _, body, _) => NoReturnAccepted(body);
    case Seq(_, a, b) =>
      var mid := Exec(a, env, w, fuel).s;
      if HasReturn(b) {
        ReturnIsReached(b, env, mid, fuel);
      } else {
        if !a.Return? { ReturnIsReached(a, env, w, fuel); }
        KeepsRet(b, env, mid, Exec(s, env, w, fuel).s, fuel);
      }
    case _ =>
  }
}
