/** Which labelled programs the splitter is meant for. */
module WellLabelled {
  import opened Labels
  import opened Syntax
  import opened Semantics

  /** What is known of each name throughout a program: the label of its binding, the label of the
      statement that binds it, whether it is bound once but written by weaker phases, and the
      label of each loop. */
  datatype Sig = Sig(level: Name -> Label, birth: Name -> Label, late: Name -> bool, loop: LoopName -> Label)

  predicate IsInput(env: Env, x: Name) {
    Input(env, x).Some?
  }

  predicate RefOk(sig: Sig, env: Env, scope: set<Name>, r: Ref<Label>) {
    if IsInput(env, r.x) then r.l == TOP else r.x in scope && r.l == sig.level(r.x)
  }

  predicate RefsOk(sig: Sig, env: Env, scope: set<Name>, rs: seq<Ref<Label>>) {
    rs == [] || (RefOk(sig, env, scope, rs[0]) && RefsOk(sig, env, scope, rs[1..]))
  }

  function ExprLabel(e: Expr<Label>): Label {
    match e
    case Const(_) => TOP
    case Var(r) => r.l
    case Bin(l, _, _, _) => l
  }

  predicate ExprOk(sig: Sig, env: Env, scope: set<Name>, e: Expr<Label>) {
    match e
    case Const(_) => true
    case Var(r) => RefOk(sig, env, scope, r)
    case Bin(l, _, a, b) =>
      && ExprOk(sig, env, scope, a) && ExprOk(sig, env, scope, b)
      && l == MinOf(ExprLabel(a), ExprLabel(b))
  }

  function RefsLabel(rs: seq<Ref<Label>>): Label {
    if rs == [] then TOP else MinOf(rs[0].l, RefsLabel(rs[1..]))
  }

  /** The label a call executes at. */
  function CallLabel(pc: Label, c: Invoke<Label>): Label {
    MinOf(c.handle.l, MinOf(pc, MinOf(c.handleLabel, RefsLabel(c.args))))
  }

  /** The handle and the arguments may influence the object; so may the decision to make the
      call, which the constraint collector does not ask for. */
  predicate CallOk(sig: Sig, env: Env, scope: set<Name>, pc: Label, c: Invoke<Label>) {
    && RefOk(sig, env, scope, c.handle) && RefsOk(sig, env, scope, c.args)
    && FlowsTo(c.handle.l, c.handleLabel)
    && FlowsTo(RefsLabel(c.args), c.handleLabel)
    && FlowsTo(pc, c.handleLabel)
  }

  function RhsLabel(r: Rhs<Label>): Label {
    match r
    case Pure(e) => ExprLabel(e)
    case Remote(l, _) => l
  }

  predicate RhsOk(sig: Sig, env: Env, scope: set<Name>, pc: Label, r: Rhs<Label>) {
    match r
    case Pure(e) => ExprOk(sig, env, scope, e)
    case Remote(l, c) => CallOk(sig, env, scope, pc, c) && l == CallLabel(pc, c)
  }

  /** `s` is labelled as the type checker labels it, in a context of label `pc`, and satisfies
      the flow constraints. */
  predicate StmtOk(sig: Sig, env: Env, scope: set<Name>, pc: Label, s: Stmt<Label>)
    decreases s
  {
    match s
    case Let(l, bl, x, rhs, body) =>
      && !IsInput(env, x)
      && RhsOk(sig, env, scope, pc, rhs)
      && l == MinOf(RhsLabel(rhs), pc)
      && FlowsTo(RhsLabel(rhs), bl) && FlowsTo(pc, bl)
      && bl == sig.level(x) && l == sig.birth(x)
      && StmtOk(sig, env, scope + {x}, pc, body)
    case Assign(l, r, e) =>
      && !IsInput(env, r.x)
      && RefOk(sig, env, scope, r) && ExprOk(sig, env, scope, e)
      && l == MinOf(MinOf(ExprLabel(e), r.l), pc)
      && FlowsTo(ExprLabel(e), r.l) && FlowsTo(pc, r.l)
      && (sig.birth(r.x) == sig.level(r.x) || sig.late(r.x))
    case Perform(l, c) =>
      CallOk(sig, env, scope, pc, c) && l == CallLabel(pc, c)
    case Return(l, e) =>
      ExprOk(sig, env, scope, e) && l == BOTTOM
    case If(l, cond, thn, els) =>
      && ExprOk(sig, env, scope, cond)
      && l == MinOf(pc, ExprLabel(cond))
      && StmtOk(sig, env, scope, l, thn) && StmtOk(sig, env, scope, l, els)
    case While(l, cond, body, name) =>
      && ExprOk(sig, env, scope, cond)
      && l == MinOf(pc, ExprLabel(cond))
      && l == sig.loop(name)
      && StmtOk(sig, env, scope, l, body)
    case Skip(l) =>
      l == pc
    case Seq(l, a, b) =>
      l == pc && StmtOk(sig, env, scope, pc, a) && StmtOk(sig, env, scope, pc, b)
  }

  function Bound<L>(s: Stmt<L>): set<Name> {
    match s
    case Let(_, _, x, _, body) => {x} + Bound(body)
    case If(_, _, a, b) => Bound(a) + Bound(b)
    case While(_, _, body, _) => Bound(body)
    case Seq(_, a, b) => Bound(a) + Bound(b)
    case _ => {}
  }

  function Loops<L>(s: Stmt<L>): set<LoopName> {
    match s
    case Let(_, _, _, _, body) => Loops(body)
    case If(_, _, a, b) => Loops(a) + Loops(b)
    case While(_, _, body, name) => {name} + Loops(body)
    case Seq(_, a, b) => Loops(a) + Loops(b)
    case _ => {}
  }

  /** A variable that weaker phases than its binding's assign to is bound at most once in a run. */
  predicate LateOnce(sig: Sig, s: Stmt<Label>) {
    match s
    case Let(_, _, x, _, body) =>
      LateOnce(sig, body) && (sig.late(x) ==> x !in Bound(body))
    case If(_, _, a, b) =>
      LateOnce(sig, a) && LateOnce(sig, b)
    case While(_, _, body, _) =>
      LateOnce(sig, body) && forall x | x in Bound(body) :: !sig.late(x)
    case Seq(_, a, b) =>
      && LateOnce(sig, a) && LateOnce(sig, b)
      && forall x | x in Bound(a) && x in Bound(b) :: !sig.late(x)
    case _ => true
  }

  /** A loop that some phase replays by its counter runs once, and no later loop reuses its
      counter. `weakest` is the label of the last phase: its own loops are never replayed. */
  predicate LoopsOnce(sig: Sig, weakest: Label, s: Stmt<Label>) {
    match s
    case Let(_, _, _, _, body) =>
      LoopsOnce(sig, weakest, body)
    case If(_, _, a, b) =>
      LoopsOnce(sig, weakest, a) && LoopsOnce(sig, weakest, b)
    case While(_, _, body, _) =>
      LoopsOnce(sig, weakest, body) && forall n | n in Loops(body) :: sig.loop(n) <= weakest
    case Seq(_, a, b) =>
      && LoopsOnce(sig, weakest, a) && LoopsOnce(sig, weakest, b)
      && forall n | n in Loops(a) && n in Loops(b) :: sig.loop(n) <= weakest
    case _ => true
  }

  /** What a terminating statement in a context of label `pc` can have changed: histories only
      grow, and only of variables no stronger than `pc`. */
  ghost predicate Changes(sig: Sig, scope: set<Name>, pc: Label, bound: set<Name>, loops: set<LoopName>, w: World, w': World) {
    && (forall x :: Hist(w, x) <= Hist(w', x))
    && (forall x :: Hist(w, x) != Hist(w', x) ==> MayWrite(sig, scope, pc, bound, x))
    && (forall n :: !SameLoop(w.loops, w'.loops, n) ==> n in loops && sig.loop(n) <= pc)
    && (forall k: Label :: k > pc ==> Received(w.remote, k) == Received(w'.remote, k))
  }

  predicate MayWrite(sig: Sig, scope: set<Name>, pc: Label, bound: set<Name>, x: Name) {
    && sig.level(x) <= pc
    && (x in bound || x in scope)
    && (sig.birth(x) <= pc || (x in scope && (sig.birth(x) == sig.level(x) || sig.late(x))))
  }

  predicate SameLoop(a: map<LoopName, int>, b: map<LoopName, int>, n: LoopName) {
    (n in a <==> n in b) && (n in a ==> a[n] == b[n])
  }

  lemma ChangesChain(sig: Sig, scope: set<Name>, pc: Label, bound: set<Name>, loops: set<LoopName>, w0: World, w1: World, w2: World)
    requires Changes(sig, scope, pc, bound, loops, w0, w1)
    requires Changes(sig, scope, pc, bound, loops, w1, w2)
    ensures Changes(sig, scope, pc, bound, loops, w0, w2)
  {
    forall x ensures Hist(w0, x) <= Hist(w2, x) && (Hist(w0, x) != Hist(w2, x) ==> MayWrite(sig, scope, pc, bound, x)) {
      assert Hist(w0, x) <= Hist(w1, x) <= Hist(w2, x);
    }
    forall n | !SameLoop(w0.loops, w2.loops, n) ensures n in loops && sig.loop(n) <= pc {
      assert !SameLoop(w0.loops, w1.loops, n) || !SameLoop(w1.loops, w2.loops, n);
    }
  }

  lemma ChangesWiden(sig: Sig, scope: set<Name>, pc: Label, bound: set<Name>, loops: set<LoopName>, pc': Label, bound': set<Name>, loops': set<LoopName>, w0: World, w1: World)
    requires Changes(sig, scope, pc, bound, loops, w0, w1)
    requires pc <= pc' && bound <= bound' && loops <= loops'
    ensures Changes(sig, scope, pc', bound', loops', w0, w1)
  {
  }

  lemma WriteChanges(sig: Sig, scope: set<Name>, pc: Label, bound: set<Name>, loops: set<LoopName>, w: World, x: Name, v: int)
    requires MayWrite(sig, scope, pc, bound, x)
    ensures Changes(sig, scope, pc, bound, loops, w, Write(w, x, v))
  {
    forall y ensures Hist(w, y) <= Hist(Write(w, x, v), y) {
      assert y != x ==> Hist(Write(w, x, v), y) == Hist(w, y);
    }
  }

  lemma SendChanges(sig: Sig, env: Env, scope: set<Name>, pc: Label, bound: set<Name>, loops: set<LoopName>, w: World, k: Label, ev: Event)
    requires k <= pc
    ensures Changes(sig, scope, pc, bound, loops, w, w.(remote := Send(env, w.remote, k, ev).0))
  {
  }

  lemma RhsChanges(sig: Sig, env: Env, scope: set<Name>, pc: Label, bound: set<Name>, loops: set<LoopName>, rhs: Rhs<Label>, w: World)
    requires RhsOk(sig, env, scope, pc, rhs)
    requires ExecRhs(rhs, env, w).Some?
    ensures Changes(sig, scope, pc, bound, loops, w, ExecRhs(rhs, env, w).value.0)
  {
    match rhs
    case Pure(_) =>
    case Remote(_, c) =>
      SendChanges(sig, env, scope, pc, bound, loops, w, c.handleLabel, EventOf(c, Reads(env, w)).value);
  }

  /** A name bound within a `Let` body counts as bound once the body is left. */
  lemma LeaveScope(sig: Sig, scope: set<Name>, pc: Label, bound: set<Name>, loops: set<LoopName>, x: Name, w: World, w': World)
    requires Changes(sig, scope + {x}, pc, bound, loops, w, w')
    requires sig.birth(x) <= pc
    ensures Changes(sig, scope, pc, {x} + bound, loops, w, w')
  {
    forall y | Hist(w, y) != Hist(w', y) ensures MayWrite(sig, scope, pc, {x} + bound, y) {
      assert MayWrite(sig, scope + {x}, pc, bound, y);
    }
  }

  /** A statement only changes what its context may influence. */
  lemma {:induction false} Confined(sig: Sig, env: Env, scope: set<Name>, pc: Label, s: Stmt<Label>, w: World, fuel: nat)
    requires StmtOk(sig, env, scope, pc, s)
    requires Exec(s, env, w, fuel).Done?
    ensures Changes(sig, scope, pc, Bound(s), Loops(s), w, Exec(s, env, w, fuel).s)
    decreases fuel, s, 1
  {
    var w' := Exec(s, env, w, fuel).s;
    match s
    case Let(_, _, x, rhs, body) =>
      ConfinedLet(sig, env, scope, pc, s, w, fuel);
    case Assign(_, r, e) =>
      WriteChanges(sig, scope, pc, {}, {}, w, r.x, Eval(e, Reads(env, w)).value);
    case Perform(_, c) =>
      SendChanges(sig, env, scope, pc, {}, {}, w, c.handleLabel, EventOf(c, Reads(env, w)).value);
    case Return(_, e) =>
    case If(l, cond, thn, els) =>
      var taken := if Eval(cond, Reads(env, w)).value != 0 then thn else els;
      Confined(sig, env, scope, l, taken, w, fuel);
      ChangesWiden(sig, scope, l, Bound(taken), Loops(taken), pc, Bound(s), Loops(s), w, w');
    case While(l, _, body, name) =>
      var w1 := w.(loops := w.loops[name := 0]);
      ConfinedLoop(sig, env, scope, pc, s, w1, 0, fuel);
      ChangesChain(sig, scope, pc, Bound(s), Loops(s), w, w1, w');
    case Skip(_) =>
    case Seq(_, a, b) =>
      var w1 := Exec(a, env, w, fuel).s;
      Confined(sig, env, scope, pc, a, w, fuel);
      Confined(sig, env, scope, pc, b, w1, fuel);
      ChangesWiden(sig, scope, pc, Bound(a), Loops(a), pc, Bound(s), Loops(s), w, w1);
      ChangesWiden(sig, scope, pc, Bound(b), Loops(b), pc, Bound(s), Loops(s), w1, w');
      ChangesChain(sig, scope, pc, Bound(s), Loops(s), w, w1, w');
  }

  lemma {:induction false} ConfinedLet(sig: Sig, env: Env, scope: set<Name>, pc: Label, s: Stmt<Label>, w: World, fuel: nat)
    requires s.Let? && StmtOk(sig, env, scope, pc, s)
    requires Exec(s, env, w, fuel).Done?
    ensures Changes(sig, scope, pc, Bound(s), Loops(s), w, Exec(s, env, w, fuel).s)
    decreases fuel, s, 0
  {
    var w' := Exec(s, env, w, fuel).s;
    var r := ExecRhs(s.rhs, env, w).value;
    var w1 := Write(r.0, s.x, r.1);
    RhsChanges(sig, env, scope, pc, Bound(s), Loops(s), s.rhs, w);
    WriteChanges(sig, scope, pc, Bound(s), Loops(s), r.0, s.x, r.1);
    Confined(sig, env, scope + {s.x}, pc, s.body, w1, fuel);
    LeaveScope(sig, scope, pc, Bound(s.body), Loops(s.body), s.x, w1, w');
    ChangesChain(sig, scope, pc, Bound(s), Loops(s), w, r.0, w1);
    ChangesChain(sig, scope, pc, Bound(s), Loops(s), w, w1, w');
  }

  lemma {:induction false} ConfinedLoop(sig: Sig, env: Env, scope: set<Name>, pc: Label, s: Stmt<Label>, w: World, i: nat, fuel: nat)
    requires s.While? && StmtOk(sig, env, scope, pc, s)
    requires Iterate(s, env, w, i, fuel).Done?
    ensures Changes(sig, scope, pc, Bound(s), Loops(s), w, Iterate(s, env, w, i, fuel).s)
    decreases fuel, s, 0
  {
    if Eval(s.cond, Reads(env, w)).value != 0 {
      var w' := Iterate(s, env, w, i, fuel).s;
      var w1 := w.(loops := w.loops[s.name := i + 1]);
      var w2 := Exec(s.body, env, w1, fuel - 1).s;
      Confined(sig, env, scope, s.l, s.body, w1, fuel - 1);
      ChangesWiden(sig, scope, s.l, Bound(s.body), Loops(s.body), pc, Bound(s), Loops(s), w1, w2);
      ConfinedLoop(sig, env, scope, pc, s, w2, i + 1, fuel - 1);
      ChangesChain(sig, scope, pc, Bound(s), Loops(s), w, w1, w2);
      ChangesChain(sig, scope, pc, Bound(s), Loops(s), w, w2, w');
    }
  }
}
