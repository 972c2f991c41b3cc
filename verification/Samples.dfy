/** What the examples share: names, objects, and steps of small runs. */
module Samples {
  import opened Labels
  import opened Syntax
  import opened Semantics
  import opened SplitPhase
  import opened PhaseRun
  import opened Flatten
  import opened FlattenCorrect
  import opened DesugarCorrect
  import opened NameLoops
  import opened EndToEnd
  import opened Complete
  import opened Symbolic
  import F = Flows
  import W = WellLabelled

  const X := User("x")
  const Y := User("y")
  const Z := User("z")
  const K := User("k")
  const J := User("j")
  const WEAK := User("weak")
  const STRONG := User("strong")

  /** Handles of two objects; every call answers 1. */
  const ARGS := Env(map[WEAK := 10, STRONG := 20], (k, events) => 1)

  const PHASES: seq<Label> := [TOP, BOTTOM]

  function Call<L>(k: Label, name: string, h: Ref<L>): Invoke<L> {
    Invoke(k, name, h, [])
  }

  /** `weak.get()` */
  const GetRhs: Rhs<()> := Remote((), Call(BOTTOM, "get", Ref((), WEAK)))
  const GetLabelled: Rhs<Label> := Remote(BOTTOM, Call(BOTTOM, "get", Ref(TOP, WEAK)))
  const GET := Event("get", 10, [])

  /** `weak.put()` */
  const PutStmt: Stmt<()> := Perform((), Call(BOTTOM, "put", Ref((), WEAK)))
  const PutLabelled: Stmt<Label> := Perform(BOTTOM, Call(BOTTOM, "put", Ref(TOP, WEAK)))
  const PUT := Event("put", 10, [])

  /** `weak.put(x)`, where `x` is labelled `l`. */
  const PutX: Stmt<()> := Perform((), Invoke(BOTTOM, "put", Ref((), WEAK), [Ref((), X)]))

  function SendX(l: Label): Stmt<Label> {
    Perform(BOTTOM, Invoke(BOTTOM, "put", Ref(TOP, WEAK), [Ref(l, X)]))
  }

  function PutEvent(i: int): Event {
    Event("put", 10, [i])
  }

  function Read0(x: Name): Expr<()> {
    Var(Ref((), x))
  }

  function ReadAt(l: Label, x: Name): Expr<Label> {
    Var(Ref(l, x))
  }

  // --- programs and what they are compiled to ---

  /** A flat program without loops is compiled as it stands. */
  lemma {:induction false} FlatStays(seqnum: int, depth: int, s: Stmt<()>)
    requires InAnf(s)
    ensures FlattenExprs(seqnum, depth, s) == s
    decreases s
  {
    match s
    case Let(_, _, _, _, body) => FlatStays(seqnum, depth + 1, body);
    case If(_, _, a, b) =>
      FlatStays(seqnum, depth + 1, a);
      FlatStays(seqnum + 1, depth + 1, b);
    case While(_, _, body, _) => FlatStays(seqnum, depth + 1, body);
    case Seq(_, a, b) =>
      FlatStays(seqnum, depth, a);
      FlatStays(seqnum + 1, depth, b);
    case _ =>
  }

  lemma {:induction false} NoLoopsStays(seqnum: int, depth: int, s: Stmt<()>)
    requires W.Loops(s) == {}
    ensures DesugarWhile(seqnum, depth, s) == s
    decreases s
  {
    match s
    case Let(_, _, _, _, body) => NoLoopsStays(seqnum, depth + 1, body);
    case If(_, _, a, b) =>
      NoLoopsStays(seqnum, depth + 1, a);
      NoLoopsStays(seqnum + 1, depth + 1, b);
    case Seq(_, a, b) =>
      NoLoopsStays(seqnum, depth, a);
      NoLoopsStays(seqnum + 1, depth, b);
    case _ =>
  }

  lemma {:induction false} NoLoopsNamed<L>(seqnum: int, depth: int, s: Stmt<L>)
    requires W.Loops(s) == {}
    ensures NameIn(seqnum, depth, s) == s && NameList(seqnum, depth, s) == s
    decreases s
  {
    match s
    case Let(_, _, _, _, body) => NoLoopsNamed(seqnum, depth, body);
    case If(_, _, a, b) =>
      NoLoopsNamed(seqnum, depth, a);
      NoLoopsNamed(seqnum, depth, b);
    case Seq(_, a, b) =>
      NoLoopsNamed(seqnum, depth, a);
      NoLoopsNamed(seqnum + 1, depth, a);
      NoLoopsNamed(seqnum + 1, depth, b);
      NoLoopsNamed(seqnum + 2, depth, b);
    case _ =>
  }

  lemma {:induction false} StripLoops<L>(s: Stmt<L>)
    ensures W.Loops(StripStmt(s)) == W.Loops(s)
  {
    match s
    case Let(_, _, _, _, body) => StripLoops(body);
    case If(_, _, a, b) =>
      StripLoops(a);
      StripLoops(b);
    case While(_, _, body, _) => StripLoops(body);
    case Seq(_, a, b) =>
      StripLoops(a);
      StripLoops(b);
    case _ =>
  }

  lemma ArgsAreUsers(env: Env)
    requires env.inputs == ARGS.inputs
    ensures UserInputs(env)
  {
  }

  lemma CallsAreParsed()
    ensures Parsed(PutStmt) && Parsed(PutX) && forall y | y in RhsNames(GetRhs) :: Written(y)
  {
    assert RefNames(PutStmt.call.args) == {} && RefNames(GetRhs.call.args) == {};
    var rs := PutX.call.args;
    assert rs[1..] == [] && RefNames(rs) == {X} + RefNames(rs[1..]) == {X};
  }

  /** A flat program without loops, labelled as strongly as it can be, is what it is compiled to. */
  lemma StraightIsCompiled(env: Env, tau: Assignment, p: Stmt<()>, q: Stmt<Label>)
    requires Parsed(p) && UserInputs(env) && StripStmt(q) == p && InAnf(p) && W.Loops(q) == {}
    requires F.StmtFlows(env, map[], TOP, q) && Picks(tau, 1, 1, q)
    requires forall r | Plain(r) == Plain(q) && F.StmtFlows(env, map[], TOP, r) :: Weaker(r, q)
    ensures CompilesTo(env, p, q)
  {
    StripLoops(q);
    NoLoopsStays(1, 1, p);
    FlatStays(1, 1, p);
    NoLoopsNamed(1, 1, q);
    StrongestIsCompiled(env, tau, p, q);
  }

  /** The same for any program, its passes taken one by one. */
  lemma IsCompiled(env: Env, tau: Assignment, p: Stmt<()>, f: Stmt<()>, q: Stmt<Label>)
    requires Parsed(p) && UserInputs(env) && FlattenExpressions(p) == f == StripStmt(q) && Named(q) == q
    requires F.StmtFlows(env, map[], TOP, q) && Picks(tau, 1, 1, q)
    requires forall r | Plain(r) == Plain(q) && F.StmtFlows(env, map[], TOP, r) :: Weaker(r, q)
    ensures CompilesTo(env, p, q)
  {
    StrongestIsCompiled(env, tau, p, q);
  }

  predicate AllTop(q: Stmt<Label>) {
    match q
    case Let(_, bl, _, _, body) => bl == TOP && AllTop(body)
    case If(_, _, a, b) => AllTop(a) && AllTop(b)
    case While(_, _, body, _) => AllTop(body)
    case Seq(_, a, b) => AllTop(a) && AllTop(b)
    case _ => true
  }

  lemma {:induction false} TopPicks(seqnum: int, depth: int, q: Stmt<Label>)
    requires AllTop(q)
    ensures Picks(t => TOP, seqnum, depth, q)
    decreases q
  {
    match q
    case Let(_, _, _, _, body) => TopPicks(seqnum + 1, depth + 1, body);
    case If(_, _, a, b) =>
      TopPicks(seqnum + 1, depth + 1, a);
      TopPicks(seqnum + 2, depth + 1, b);
    case While(_, _, body, _) => TopPicks(seqnum + 1, depth + 1, body);
    case Seq(_, a, b) =>
      TopPicks(seqnum, depth, a);
      TopPicks(seqnum + 1, depth, b);
    case _ =>
  }

  lemma {:induction false} TopIsStrongest(r: Stmt<Label>, q: Stmt<Label>)
    requires AllTop(q) && Plain(r) == Plain(q)
    ensures Weaker(r, q)
    decreases q
  {
    match q
    case Let(_, _, _, _, body) => TopIsStrongest(r.body, body);
    case If(_, _, a, b) =>
      TopIsStrongest(r.thn, a);
      TopIsStrongest(r.els, b);
    case While(_, _, body, _) => TopIsStrongest(r.body, body);
    case Seq(_, a, b) =>
      TopIsStrongest(r.first, a);
      TopIsStrongest(r.rest, b);
    case _ =>
  }

  /** What a weak call answers is weak. */
  lemma GetIsWeak(env: Env, scope: F.Places, r: Stmt<Label>)
    requires r.Let? && F.StmtFlows(env, scope, TOP, r) && StripRhs(r.rhs) == GetRhs
    ensures r.bl == BOTTOM
  {
    assert StripCall(r.rhs.call).handleLabel == BOTTOM;
  }

  /** What `y` is assigned to is no stronger than `y`. */
  lemma SetIsWeak(env: Env, scope: F.Places, r: Stmt<Label>, a: Stmt<Label>)
    requires Y in scope && r.Let? && r.x == X && F.StmtFlows(env, scope, TOP, r)
    requires a == r.body || (r.body.Seq? && a == r.body.first)
    requires Plain(a) == Assign((), Ref((), X), Read0(Y))
    ensures r.bl <= scope[Y].level
  {
    var inside := scope[X := F.Place(r.bl, r.l)];
    assert F.StmtFlows(env, inside, TOP, r.body) && F.StmtFlows(env, inside, TOP, a);
    assert a.Assign? && StripRef(a.target).x == X && StripExpr(a.e) == Read0(Y);
    assert a.e.ref.l == scope[Y].level && a.target.l == r.bl;
  }

  // --- steps of runs ---

  lemma After<L>(a: Stmt<L>, b: Stmt<L>, env: Env, w: World, w1: World, fuel: nat)
    requires Exec(a, env, w, fuel) == Done(w1)
    ensures forall l :: Exec(Seq(l, a, b), env, w, fuel) == Exec(b, env, w1, fuel)
  {
  }

  lemma Around<L>(s: Stmt<L>, env: Env, w: World, w1: World, i: nat, fuel: nat)
    requires s.While? && fuel > 0
    requires Eval(s.cond, Reads(env, w)).Some? && Eval(s.cond, Reads(env, w)).value != 0
    requires Exec(s.body, env, w.(loops := w.loops[s.name := i + 1]), fuel - 1) == Done(w1)
    ensures Iterate(s, env, w, i, fuel) == Iterate(s, env, w1, i + 1, fuel - 1)
  {
  }

  lemma Then(p: PStmt, q: PStmt, env: Env, st: Store, st1: Store, fuel: nat)
    requires Run(p, env, st, fuel) == Done(st1)
    ensures Run(PSeq(p, q), env, st, fuel) == Run(q, env, st1, fuel)
  {
  }

  lemma Again(p: PStmt, env: Env, st: Store, st1: Store, n: int, fuel: nat)
    requires p.PForEach? && n > 0 && Run(p.body, env, st, fuel) == Done(st1)
    ensures RunTimes(p, env, st, n, fuel) == RunTimes(p, env, st1, n - 1, fuel)
  {
  }

  /** The two phases of a program. */
  lemma TwoPhases(s: Stmt<Label>, env: Env, st: Store, fuel: nat)
    requires Run(Project(TOP, s), env, BeginPhase(st), fuel).Done?
    ensures RunPhases(PHASES, s, env, st, fuel) == Run(Project(BOTTOM, s), env, BeginPhase(Run(Project(TOP, s), env, BeginPhase(st), fuel).s), fuel)
  {
    var st1 := Run(Project(TOP, s), env, BeginPhase(st), fuel).s;
    assert PHASES[1..] == [BOTTOM] && PHASES[1..][1..] == [];
    assert RunPhases(PHASES, s, env, st, fuel) == RunPhases([BOTTOM], s, env, st1, fuel);
    var r := Run(Project(BOTTOM, s), env, BeginPhase(st1), fuel);
    if r.Done? { assert RunPhases([], s, env, r.s, fuel) == r; }
  }

  lemma GetSends(env: Env, w: World)
    requires env.inputs == ARGS.inputs
    ensures var (m, v) := Send(env, w.remote, BOTTOM, GET); ExecRhs(GetLabelled, env, w) == Some((w.(remote := m), v))
  {
    assert EventOf(GetLabelled.call, Reads(env, w)) == Some(GET);
  }

  lemma GetSendsInPhase(env: Env, st: Store)
    requires env.inputs == ARGS.inputs
    ensures var (m, v) := Send(env, st.remote, BOTTOM, GET); RunRhs(GetRhs, env, st) == Some((st.(remote := m), v))
  {
    assert EventOf(GetRhs.call, Gets(env, st)) == Some(GET);
  }

  lemma GetStrips()
    ensures StripRhs(GetLabelled) == GetRhs
  {
  }

  lemma PutStrips()
    ensures StripStmt(PutLabelled) == PutStmt
  {
  }

  /** Binding a constant in a phase. */
  lemma Lets(bl: Label, x: Name, i: int, body: PStmt, env: Env, st: Store, fuel: nat)
    requires InRange(Push(At(st, x), i))
    ensures Run(PLet(bl, x, Pure(Const(i)), body), env, st, fuel) == Run(body, env, Update(st, x, Push(At(st, x), i)), fuel)
  {
  }

  lemma PutSends(w: World, fuel: nat)
    ensures Exec(PutLabelled, ARGS, w, fuel) == Done(w.(remote := Send(ARGS, w.remote, BOTTOM, PUT).0))
  {
    assert EventOf(PutLabelled.call, Reads(ARGS, w)) == Some(PUT);
  }

  lemma PutSendsInPhase(st: Store, fuel: nat)
    ensures Run(PPerform(PutStmt.call), ARGS, st, fuel) == Done(st.(remote := Send(ARGS, st.remote, BOTTOM, PUT).0))
  {
    assert EventOf(PutStmt.call, Gets(ARGS, st)) == Some(PUT);
  }

  lemma SendXStrips(l: Label)
    ensures StripStmt(SendX(l)) == PutX
  {
    var rs := SendX(l).call.args;
    assert rs[1..] == [] && StripRefs(rs) == [Ref((), X)] + StripRefs(rs[1..]) == PutX.call.args;
  }

  lemma SendXFlows(scope: F.Places, l: Label)
    requires X in scope && scope[X].level == l && WEAK !in scope
    ensures F.StmtFlows(ARGS, scope, TOP, SendX(l))
  {
    assert W.IsInput(ARGS, WEAK);
    var rs := SendX(l).call.args;
    assert rs[0].x == X && rs[0].l == l && rs[1..] == [] && F.RefsFlow(ARGS, scope, rs) && W.RefsLabel(rs) == l;
  }

  lemma SendXRuns(l: Label, w: World, i: int, fuel: nat)
    requires Read(ARGS, w, X) == Some(i)
    ensures Exec(SendX(l), ARGS, w, fuel) == Done(w.(remote := Send(ARGS, w.remote, BOTTOM, PutEvent(i)).0))
  {
    var rs := SendX(l).call.args;
    assert rs[0].x == X && rs[1..] == [] && EvalRefs(rs, Reads(ARGS, w)) == Some([i] + []);
    assert [i] + [] == [i] && EventOf(SendX(l).call, Reads(ARGS, w)) == Some(PutEvent(i));
  }

  lemma SendXInPhase(st: Store, i: int, fuel: nat)
    requires Get(ARGS, st, X) == Some(i)
    ensures Run(PPerform(PutX.call), ARGS, st, fuel) == Done(st.(remote := Send(ARGS, st.remote, BOTTOM, PutEvent(i)).0))
  {
    var rs := PutX.call.args;
    assert rs[0].x == X && rs[1..] == [] && EvalRefs(rs, Gets(ARGS, st)) == Some([i] + []);
    assert [i] + [] == [i] && EventOf(PutX.call, Gets(ARGS, st)) == Some(PutEvent(i));
  }
}
