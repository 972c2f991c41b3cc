/** All phases of a program, strongest first. */
module Phases {
  import opened Labels
  import opened Syntax
  import opened Semantics
  import opened SplitPhase
  import opened PhaseRun
  import opened WellLabelled
  import opened Replay
  import opened SplitCorrect
  import opened Flows
  import opened Returns
  import opened PhaseReturning

  function RefsLabels(rs: seq<Ref<Label>>): set<Label> {
    if rs == [] then {} else {rs[0].l} + RefsLabels(rs[1..])
  }

  function ExprLabels(e: Expr<Label>): set<Label> {
    match e
    case Const(_) => {TOP}
    case Var(r) => {r.l}
    case Bin(l, _, a, b) => {l} + ExprLabels(a) + ExprLabels(b)
  }

  function RhsLabels(r: Rhs<Label>): set<Label> {
    match r
    case Pure(e) => ExprLabels(e)
    case Remote(l, c) => {l, c.handle.l} + RefsLabels(c.args)
  }

  /** Every label a program mentions: there is one phase for each. */
  function Collected(s: Stmt<Label>): set<Label> {
    match s
    case Let(l, bl, _, rhs, body) => {l, bl} + RhsLabels(rhs) + Collected(body)
    case Assign(l, r, e) => {l, r.l} + ExprLabels(e)
    case Perform(l, c) => {l, c.handle.l} + RefsLabels(c.args)
    case Return(l, e) => {l} + ExprLabels(e)
    case If(l, cond, a, b) => {l} + ExprLabels(cond) + Collected(a) + Collected(b)
    case While(l, cond, body, _) => {l} + ExprLabels(cond) + Collected(body)
    case Skip(l) => {l}
    case Seq(l, a, b) => {l} + Collected(a) + Collected(b)
  }

  predicate Descending(labels: seq<Label>) {
    forall i, j | 0 <= i < j < |labels| :: labels[i] > labels[j]
  }

  lemma {:induction false} BoundCollected(sig: Sig, env: Env, scope: set<Name>, pc: Label, s: Stmt<Label>)
    requires StmtOk(sig, env, scope, pc, s)
    ensures forall x | x in Bound(s) :: sig.level(x) in Collected(s) && sig.birth(x) in Collected(s)
    ensures forall n | n in Loops(s) :: sig.loop(n) in Collected(s)
    decreases s
  {
    match s
    case Let(_, _, x, _, body) => BoundCollected(sig, env, scope + {x}, pc, body);
    case If(l, _, a, b) =>
      BoundCollected(sig, env, scope, l, a);
      BoundCollected(sig, env, scope, l, b);
    case While(l, _, body, _) => BoundCollected(sig, env, scope, l, body);
    case Seq(_, a, b) =>
      BoundCollected(sig, env, scope, pc, a);
      BoundCollected(sig, env, scope, pc, b);
    case _ =>
  }

  /** What no statement of the program is labelled with stays as it was. */
  ghost predicate Untouched(labels: set<Label>, w: World, w': World) {
    && (forall k: Label | k !in labels :: Received(w.remote, k) == Received(w'.remote, k))
    && (BOTTOM !in labels ==> w.ret == w'.ret)
  }

  lemma {:induction false} OnlyCollected(sig: Sig, env: Env, scope: set<Name>, pc: Label, s: Stmt<Label>, w: World, w': World, fuel: nat)
    requires StmtOk(sig, env, scope, pc, s) && Exec(s, env, w, fuel) == Done(w')
    ensures Untouched(Collected(s), w, w')
    decreases fuel, s, 1
  {
    match s
    case Let(_, _, _, _, _) => OnlyCollectedLet(sig, env, scope, pc, s, w, w', fuel);
    case If(l, cond, a, b) =>
      OnlyCollected(sig, env, scope, l, if Eval(cond, Reads(env, w)).value != 0 then a else b, w, w', fuel);
    case While(_, _, _, name) =>
      OnlyCollectedLoop(sig, env, scope, pc, s, w.(loops := w.loops[name := 0]), w', 0, fuel);
    case Seq(_, _, _) => OnlyCollectedSeq(sig, env, scope, pc, s, w, w', fuel);
    case _ =>
  }

  lemma {:induction false} OnlyCollectedLet(sig: Sig, env: Env, scope: set<Name>, pc: Label, s: Stmt<Label>, w: World, w': World, fuel: nat)
    requires s.Let? && StmtOk(sig, env, scope, pc, s) && Exec(s, env, w, fuel) == Done(w')
    ensures Untouched(Collected(s), w, w')
    decreases fuel, s, 0
  {
    var r := ExecRhs(s.rhs, env, w).value;
    OnlyCollected(sig, env, scope + {s.x}, pc, s.body, Write(r.0, s.x, r.1), w', fuel);
  }

  lemma {:induction false} OnlyCollectedSeq(sig: Sig, env: Env, scope: set<Name>, pc: Label, s: Stmt<Label>, w: World, w': World, fuel: nat)
    requires s.Seq? && StmtOk(sig, env, scope, pc, s) && Exec(s, env, w, fuel) == Done(w')
    ensures Untouched(Collected(s), w, w')
    decreases fuel, s, 0
  {
    var w1 := Exec(s.first, env, w, fuel).s;
    OnlyCollected(sig, env, scope, pc, s.first, w, w1, fuel);
    OnlyCollected(sig, env, scope, pc, s.rest, w1, w', fuel);
  }

  lemma {:induction false} OnlyCollectedLoop(sig: Sig, env: Env, scope: set<Name>, pc: Label, s: Stmt<Label>, w: World, w': World, i: nat, fuel: nat)
    requires s.While? && StmtOk(sig, env, scope, pc, s) && Iterate(s, env, w, i, fuel) == Done(w')
    ensures Untouched(Collected(s), w, w')
    decreases fuel, s, 0
  {
    if Eval(s.cond, Reads(env, w)).value != 0 {
      var w1 := w.(loops := w.loops[s.name := i + 1]);
      var w2 := Exec(s.body, env, w1, fuel - 1).s;
      OnlyCollected(sig, env, scope, s.l, s.body, w1, w2, fuel - 1);
      OnlyCollectedLoop(sig, env, scope, pc, s, w2, w', i + 1, fuel - 1);
    }
  }

  /** Before anything has run. */
  function Start(remote: map<Label, seq<Event>>): World {
    World(map[], map[], remote, None)
  }

  function Launch(remote: map<Label, seq<Event>>): Store {
    Store(map[], map[], remote, None)
  }

  /** The part of a history that is written by statements stronger than `l`. */
  function LogAbove(sig: Sig, l: Label, h: seq<int>, x: Name): seq<int> {
    if sig.level(x) > l then h
    else if sig.birth(x) > l then (if sig.late(x) then First(h) else h)
    else []
  }

  /** The store between phases: everything stronger than `l` has run to its end, nothing else
      has started. */
  ghost predicate Between(sig: Sig, l: Label, fin: World, start: World, st: Store) {
    && (forall x :: At(st, x).log == LogAbove(sig, l, Hist(fin, x), x))
    && (forall n | sig.loop(n) > l :: KeepsLoop(st.loops, fin.loops, n))
    && (forall k: Label :: Received(st.remote, k) == Received(if k > l then fin.remote else start.remote, k))
    && st.ret == start.ret
  }

  lemma PhaseStarts(sig: Sig, env: Env, l: Label, fin: World, remote: map<Label, seq<Event>>, st: Store)
    requires Between(sig, l, fin, Start(remote), st)
    ensures Follows(Phase(sig, env, l, fin, st), Start(remote), BeginPhase(st))
  {
    var c, w, st' := Phase(sig, env, l, fin, st), Start(remote), BeginPhase(st);
    forall x ensures VarFollows(c, w, st', x) {
      assert At(st', x) == Holder(At(st, x).log, -1);
    }
  }

  /** Between two consecutive labels of the list no variable is written. */
  lemma PhaseEnds(sig: Sig, env: Env, l: Label, next: Label, fin: World, start: World, base: Store, st: Store)
    requires Between(sig, l, fin, start, base) && Follows(Phase(sig, env, l, fin, base), fin, st)
    requires next < l
    requires forall x | Hist(fin, x) != [] :: !(next < sig.level(x) < l) && !(next < sig.birth(x) < l)
    requires forall n | n in fin.loops :: !(next < sig.loop(n) < l)
    requires forall k: Label | next < k < l :: Received(fin.remote, k) == Received(start.remote, k)
    ensures Between(sig, next, fin, start, st)
  {
    var c := Phase(sig, env, l, fin, base);
    forall x ensures At(st, x).log == LogAbove(sig, next, Hist(fin, x), x) {
      assert VarFollows(c, fin, st, x);
    }
    forall k: Label ensures Received(st.remote, k) == Received(if k > next then fin.remote else start.remote, k) {
      assert Received(base.remote, k) == Received(if k > l then fin.remote else start.remote, k);
      assert Received(st.remote, k) == Received(if k == l then fin.remote else base.remote, k);
    }
    forall n | sig.loop(n) > next ensures KeepsLoop(st.loops, fin.loops, n) {
      assert sig.loop(n) == l ==> KeepsLoop(st.loops, fin.loops, n);
      assert sig.loop(n) > l ==> KeepsLoop(st.loops, fin.loops, n);
    }
  }

  /** What the whole-program theorem asks of a program and its list of phases. */
  ghost predicate Splittable(sig: Sig, env: Env, labels: seq<Label>, s: Stmt<Label>) {
    && labels != [] && Descending(labels)
    && (forall l | l in Collected(s) :: l in labels)
    && StmtOk(sig, env, {}, TOP, s)
    && LateOnce(sig, s)
    && LoopsOnce(sig, labels[|labels| - 1], s)
  }

  /** Facts about a whole run that do not mention phases. */
  ghost predicate RunOnly(sig: Sig, labels: seq<Label>, s: Stmt<Label>, start: World, fin: World) {
    && (forall x | Hist(fin, x) != [] :: sig.level(x) in labels && sig.birth(x) in labels)
    && (forall n | n in fin.loops :: sig.loop(n) in labels)
    && (forall k: Label | k !in labels :: Received(start.remote, k) == Received(fin.remote, k))
    && (BOTTOM !in labels ==> start.ret == fin.ret)
  }

  lemma WholeRun(sig: Sig, env: Env, labels: seq<Label>, s: Stmt<Label>, remote: map<Label, seq<Event>>, fin: World, fuel: nat)
    requires Splittable(sig, env, labels, s)
    requires Exec(s, env, Start(remote), fuel) == Done(fin)
    ensures RunOnly(sig, labels, s, Start(remote), fin)
  {
    var start := Start(remote);
    Confined(sig, env, {}, TOP, s, start, fuel);
    BoundCollected(sig, env, {}, TOP, s);
    OnlyCollected(sig, env, {}, TOP, s, start, fin, fuel);
    forall x | Hist(fin, x) != [] ensures x in Bound(s) {
      assert Hist(start, x) != Hist(fin, x);
    }
    forall n | n in fin.loops ensures n in Loops(s) {
      assert !SameLoop(start.loops, fin.loops, n);
    }
  }

  /** One phase, from between two phases to after it. */
  lemma OnePhase(sig: Sig, env: Env, weakest: Label, l: Label, s: Stmt<Label>, remote: map<Label, seq<Event>>, fin: World, base: Store, fuel: nat)
    returns (st: Store)
    requires StmtOk(sig, env, {}, TOP, s) && LateOnce(sig, s) && LoopsOnce(sig, weakest, s) && weakest <= l
    requires Exec(s, env, Start(remote), fuel) == Done(fin)
    requires Between(sig, l, fin, Start(remote), base)
    ensures Run(Project(l, s), env, BeginPhase(base), fuel) == Done(st)
    ensures Follows(Phase(sig, env, l, fin, base), fin, st)
  {
    PhaseStarts(sig, env, l, fin, remote, base);
    st := Simulates(Phase(sig, env, l, fin, base), weakest, {}, TOP, s, Start(remote), fin, BeginPhase(base), fuel);
  }

  /** `st` holds the outcome of the run `w`: equal logs, equal remote histories, equal result. */
  ghost predicate SameOutcome(w: World, st: Store) {
    && (forall x :: At(st, x).log == Hist(w, x))
    && (forall k: Label :: Received(st.remote, k) == Received(w.remote, k))
    && st.ret == w.ret
  }

  lemma LastPhase(sig: Sig, env: Env, labels: seq<Label>, s: Stmt<Label>, start: World, fin: World, base: Store, st: Store)
    requires labels != [] && Descending(labels) && RunOnly(sig, labels, s, start, fin)
    requires var l := labels[|labels| - 1];
             Between(sig, l, fin, start, base) && Follows(Phase(sig, env, l, fin, base), fin, st)
    ensures SameOutcome(fin, st)
  {
    var l := labels[|labels| - 1];
    var c := Phase(sig, env, l, fin, base);
    forall x ensures At(st, x).log == Hist(fin, x) {
      assert VarFollows(c, fin, st, x);
    }
    forall k: Label ensures Received(st.remote, k) == Received(fin.remote, k) {
      assert Received(st.remote, k) == Received(if k == l then fin.remote else base.remote, k);
      assert Received(base.remote, k) == Received(if k > l then fin.remote else start.remote, k);
    }
  }

  lemma NextPhase(sig: Sig, env: Env, labels: seq<Label>, i: nat, s: Stmt<Label>, start: World, fin: World, base: Store, st: Store)
    requires i + 1 < |labels| && Descending(labels) && RunOnly(sig, labels, s, start, fin)
    requires Between(sig, labels[i], fin, start, base)
    requires Follows(Phase(sig, env, labels[i], fin, base), fin, st)
    ensures Between(sig, labels[i + 1], fin, start, st)
  {
    forall k: Label | labels[i + 1] < k < labels[i] ensures k !in labels {}
    PhaseEnds(sig, env, labels[i], labels[i + 1], fin, start, base, st);
  }

  /** The phases from the `i`-th on. */
  lemma {:induction false} PhasesFrom(sig: Sig, env: Env, labels: seq<Label>, i: nat, s: Stmt<Label>, remote: map<Label, seq<Event>>, fin: World, base: Store, fuel: nat)
    returns (st: Store)
    requires Splittable(sig, env, labels, s) && i < |labels|
    requires Exec(s, env, Start(remote), fuel) == Done(fin)
    requires RunOnly(sig, labels, s, Start(remote), fin)
    requires Between(sig, labels[i], fin, Start(remote), base)
    ensures RunPhases(labels[i..], s, env, base, fuel) == Done(st)
    ensures SameOutcome(fin, st)
    decreases |labels| - i
  {
    var weakest := labels[|labels| - 1];
    var st1 := OnePhase(sig, env, weakest, labels[i], s, remote, fin, base, fuel);
    assert labels[i..][0] == labels[i] && labels[i..][1..] == labels[i + 1..];
    assert RunPhases(labels[i..], s, env, base, fuel) == RunPhases(labels[i + 1..], s, env, st1, fuel);
    if i == |labels| - 1 {
      LastPhase(sig, env, labels, s, Start(remote), fin, base, st1);
      st := st1;
    } else {
      NextPhase(sig, env, labels, i, s, Start(remote), fin, base, st1);
      st := PhasesFrom(sig, env, labels, i + 1, s, remote, fin, st1, fuel);
    }
  }

  /** Before the first phase. */
  lemma LaunchBetween(sig: Sig, labels: seq<Label>, s: Stmt<Label>, remote: map<Label, seq<Event>>, fin: World)
    requires labels != [] && Descending(labels) && RunOnly(sig, labels, s, Start(remote), fin)
    ensures Between(sig, labels[0], fin, Start(remote), Launch(remote))
  {
    forall x ensures At(Launch(remote), x).log == LogAbove(sig, labels[0], Hist(fin, x), x) {
      if Hist(fin, x) != [] {
        assert sig.level(x) in labels && sig.birth(x) in labels;
      }
    }
    forall n | sig.loop(n) > labels[0] ensures n !in fin.loops {
      assert sig.loop(n) !in labels;
    }
    forall k: Label | k > labels[0] ensures k !in labels {}
  }

  /** If the unsplit program terminates, run to its end, so do its phases, strongest first on an empty
      store and each to its end, and they leave every variable's log equal to its write history, every
      remote store with the same calls in the same order, and the same result. */
  lemma SplittingRuns(sig: Sig, env: Env, labels: seq<Label>, s: Stmt<Label>, remote: map<Label, seq<Event>>, fuel: nat)
    requires Splittable(sig, env, labels, s)
    requires Exec(s, env, Start(remote), fuel).Done?
    ensures var r := RunPhases(labels, s, env, Launch(remote), fuel);
            r.Done? && SameOutcome(Exec(s, env, Start(remote), fuel).s, r.s)
  {
    var fin := Exec(s, env, Start(remote), fuel).s;
    WholeRun(sig, env, labels, s, remote, fin, fuel);
    LaunchBetween(sig, labels, s, remote, fin);
    var st := PhasesFrom(sig, env, labels, 0, s, remote, fin, Launch(remote), fuel);
    assert labels[0..] == labels;
  }

  /** Splitting preserves meaning. A return ends the program; in the phases it ends the last one only,
      so nothing must follow it. Then, if the unsplit program terminates, so do its phases, and they
      leave every variable's log equal to its write history, every remote store with the same calls in
      the same order, and the same result. */
  lemma SplittingPreservesMeaning(sig: Sig, env: Env, labels: seq<Label>, s: Stmt<Label>, remote: map<Label, seq<Event>>, fuel: nat)
    requires Splittable(sig, env, labels, s) && ReturnsLast(s)
    requires ExecStops(s, env, Start(remote), fuel).Done?
    ensures var r := RunPhasesStops(labels, s, env, Launch(remote), fuel);
            r.Done? && SameOutcome(ExecStops(s, env, Start(remote), fuel).s, r.s)
  {
    StopsIsExec(s, env, Start(remote), fuel);
    SplittingRuns(sig, env, labels, s, remote, fuel);
    OkIsFlows(sig, env, {}, map[], TOP, s);
    PhasesStopIsRun(labels, env, s, Launch(remote), fuel);
  }
}
