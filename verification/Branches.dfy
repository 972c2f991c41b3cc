/** Branches that are not taken do not matter: what splitting asks of names and counters it asks of each
    choice of branches by itself. */
module Branches {
  import opened Labels
  import opened Syntax
  import opened Semantics
  import opened SplitPhase
  import opened PhaseRun
  import opened WellLabelled
  import opened Replay
  import opened SplitCorrect
  import opened Phases
  import opened Returns
  import opened PhaseReturning
  import opened Flows
  import E = EndToEnd
  import D = DesugarCorrect
  import F = Flatten
  import FlattenCorrect

  /** `t` is `s` with one branch of every conditional outside loops taken away. */
  predicate Chosen(s: Stmt<Label>, t: Stmt<Label>)
    decreases s
  {
    match s
    case Let(l, bl, x, rhs, body) => t.Let? && t == Let(l, bl, x, rhs, t.body) && Chosen(body, t.body)
    case If(l, cond, a, b) =>
      t.If? && ((t == If(l, cond, t.thn, Skip(l)) && Chosen(a, t.thn)) || (t == If(l, cond, Skip(l), t.els) && Chosen(b, t.els)))
    case Seq(l, a, b) => t.Seq? && t.l == l && Chosen(a, t.first) && Chosen(b, t.rest)
    case _ => t == s
  }

  /** Some choice of branches; where nothing has to be chosen, the statement itself. */
  function FirstChoice(s: Stmt<Label>): Stmt<Label> {
    match s
    case Let(l, bl, x, rhs, body) => Let(l, bl, x, rhs, FirstChoice(body))
    case If(l, cond, a, _) => If(l, cond, FirstChoice(a), Skip(l))
    case Seq(l, a, b) => Seq(l, FirstChoice(a), FirstChoice(b))
    case _ => s
  }

  /** The choice a run makes. */
  function Taken(s: Stmt<Label>, env: Env, w: World, fuel: nat): Stmt<Label>
    decreases s
  {
    match s
    case Let(l, bl, x, rhs, body) =>
      var r := ExecRhs(rhs, env, w);
      Let(l, bl, x, rhs, if r.None? then FirstChoice(body) else Taken(body, env, Write(r.value.0, x, r.value.1), fuel))
    case If(l, cond, a, b) =>
      var v := Eval(cond, Reads(env, w));
      if v.None? then FirstChoice(s)
      else if v.value != 0 then If(l, cond, Taken(a, env, w, fuel), Skip(l))
      else If(l, cond, Skip(l), Taken(b, env, w, fuel))
    case Seq(l, a, b) =>
      var r := Exec(a, env, w, fuel);
      Seq(l, Taken(a, env, w, fuel), if r.Done? then Taken(b, env, r.s, fuel) else FirstChoice(b))
    case _ => s
  }

  lemma {:induction false} FirstIsChosen(s: Stmt<Label>)
    ensures Chosen(s, FirstChoice(s))
  {
    match s
    case Let(_, _, _, _, body) => FirstIsChosen(body);
    case If(_, _, a, _) => FirstIsChosen(a);
    case Seq(_, a, b) =>
      FirstIsChosen(a);
      FirstIsChosen(b);
    case _ =>
  }

  lemma {:induction false} TakenIsChosen(s: Stmt<Label>, env: Env, w: World, fuel: nat)
    ensures Chosen(s, Taken(s, env, w, fuel)) && (Exec(s, env, w, fuel).Done? ==> Exec(Taken(s, env, w, fuel), env, w, fuel) == Exec(s, env, w, fuel))
    decreases s
  {
    match s
    case Let(_, _, x, rhs, body) =>
      var r := ExecRhs(rhs, env, w);
      FirstIsChosen(body);
      if r.Some? { TakenIsChosen(body, env, Write(r.value.0, x, r.value.1), fuel); }
    case If(_, _, a, b) =>
      FirstIsChosen(s);
      TakenIsChosen(a, env, w, fuel);
      TakenIsChosen(b, env, w, fuel);
    case Seq(_, a, b) =>
      TakenIsChosen(a, env, w, fuel);
      FirstIsChosen(b);
      var r := Exec(a, env, w, fuel);
      if r.Done? { TakenIsChosen(b, env, r.s, fuel); }
    case _ =>
  }

  /** A choice meets the flows the program meets. */
  lemma {:induction false} ChosenFlows(env: Env, scope: Places, pc: Label, s: Stmt<Label>, t: Stmt<Label>)
    requires Chosen(s, t) && StmtFlows(env, scope, pc, s) && CallsPermitted(pc, s)
    ensures StmtFlows(env, scope, pc, t) && CallsPermitted(pc, t) && Collected(t) <= Collected(s)
    decreases s
  {
    match s
    case Let(l, bl, x, _, body) => ChosenFlows(env, scope[x := Place(bl, l)], pc, body, t.body);
    case If(l, _, a, b) =>
      if Chosen(a, t.thn) && t.els == Skip(l) { ChosenFlows(env, scope, l, a, t.thn); }
      if Chosen(b, t.els) && t.thn == Skip(l) { ChosenFlows(env, scope, l, b, t.els); }
    case Seq(_, a, b) =>
      ChosenFlows(env, scope, pc, a, t.first);
      ChosenFlows(env, scope, pc, b, t.rest);
    case _ =>
  }

  /** A phase that replays the run takes the run's branches, so it does not notice the others. */
  lemma {:induction false} SameBranches(c: Phase, weakest: Label, scope: set<Name>, pc: Label, s: Stmt<Label>, t: Stmt<Label>, w: World, w': World, st: Store, fuel: nat)
    requires t == Taken(s, c.env, w, fuel) && Exec(t, c.env, w, fuel) == Exec(s, c.env, w, fuel) == Done(w')
    requires Ready(c, weakest, scope, pc, t, w, w') && Follows(c, w, st)
    ensures Run(Project(c.l, s), c.env, st, fuel) == Run(Project(c.l, t), c.env, st, fuel)
    decreases s, 1
  {
    match s
    case Let(_, _, _, _, _) => SameBody(c, weakest, scope, pc, s, t, w, w', st, fuel);
    case If(_, _, _, _) => SameBranch(c, weakest, scope, pc, s, t, w, w', st, fuel);
    case Seq(_, _, _) => SameList(c, weakest, scope, pc, s, t, w, w', st, fuel);
    case _ =>
  }

  lemma {:induction false} SameBranch(c: Phase, weakest: Label, scope: set<Name>, pc: Label, s: Stmt<Label>, t: Stmt<Label>, w: World, w': World, st: Store, fuel: nat)
    requires s.If? && t == Taken(s, c.env, w, fuel) && Exec(t, c.env, w, fuel) == Exec(s, c.env, w, fuel) == Done(w')
    requires Ready(c, weakest, scope, pc, t, w, w') && Follows(c, w, st)
    ensures Run(Project(c.l, s), c.env, st, fuel) == Run(Project(c.l, t), c.env, st, fuel)
    decreases s, 0
  {
    if FlowsTo(s.l, c.l) {
      EvalAgrees(c, scope, w, st, t.cond);
      var yes := Eval(s.cond, Reads(c.env, w)).value != 0;
      BranchReady(c, weakest, scope, pc, t, if yes then t.thn else t.els, w, w');
      if yes {
        SameBranches(c, weakest, scope, s.l, s.thn, t.thn, w, w', st, fuel);
      } else {
        SameBranches(c, weakest, scope, s.l, s.els, t.els, w, w', st, fuel);
      }
      SameIf(StripExpr(s.cond), Project(c.l, s.thn), Project(c.l, s.els), Project(c.l, t.thn), Project(c.l, t.els), c.env, st, fuel);
    }
  }

  lemma SameIf(e: Expr<()>, a: PStmt, b: PStmt, p: PStmt, q: PStmt, env: Env, st: Store, fuel: nat)
    requires Eval(e, Gets(env, st)).Some?
    requires if Eval(e, Gets(env, st)).value != 0 then Run(a, env, st, fuel) == Run(p, env, st, fuel) else Run(b, env, st, fuel) == Run(q, env, st, fuel)
    ensures Run(PIf(e, a, b), env, st, fuel) == Run(PIf(e, p, q), env, st, fuel)
  {
  }

  lemma {:induction false} SameBody(c: Phase, weakest: Label, scope: set<Name>, pc: Label, s: Stmt<Label>, t: Stmt<Label>, w: World, w': World, st: Store, fuel: nat)
    requires s.Let? && t == Taken(s, c.env, w, fuel) && Exec(t, c.env, w, fuel) == Exec(s, c.env, w, fuel) == Done(w')
    requires Ready(c, weakest, scope, pc, t, w, w') && Follows(c, w, st)
    ensures Run(Project(c.l, s), c.env, st, fuel) == Run(Project(c.l, t), c.env, st, fuel)
    decreases s, 0
  {
    var r := ExecRhs(s.rhs, c.env, w).value;
    var w1 := Write(r.0, s.x, r.1);
    Confined(c.sig, c.env, scope + {s.x}, pc, t.body, w1, fuel);
    LetReady(c, weakest, scope, pc, t, w, w');
    var st1 := SimulatesBinding(c, weakest, scope, pc, t, w, w', st);
    BindsThen(c, t, st, st1, fuel);
    BindsThen(c, s, st, st1, fuel);
    SameBranches(c, weakest, scope + {s.x}, pc, s.body, t.body, w1, w', st1, fuel);
  }

  lemma {:induction false} SameList(c: Phase, weakest: Label, scope: set<Name>, pc: Label, s: Stmt<Label>, t: Stmt<Label>, w: World, w': World, st: Store, fuel: nat)
    requires s.Seq? && t == Taken(s, c.env, w, fuel) && Exec(t, c.env, w, fuel) == Exec(s, c.env, w, fuel) == Done(w')
    requires Ready(c, weakest, scope, pc, t, w, w') && Follows(c, w, st)
    ensures Run(Project(c.l, s), c.env, st, fuel) == Run(Project(c.l, t), c.env, st, fuel)
    decreases s, 0
  {
    var w1 := Exec(s.first, c.env, w, fuel).s;
    PartsReady(c, weakest, scope, pc, s, t, w, w1, w', fuel);
    SameBranches(c, weakest, scope, pc, s.first, t.first, w, w1, st, fuel);
    var st1 := Simulates(c, weakest, scope, pc, t.first, w, w1, st, fuel);
    SameBranches(c, weakest, scope, pc, s.rest, t.rest, w1, w', st1, fuel);
    SameSeq(Project(c.l, s.first), Project(c.l, t.first), Project(c.l, s.rest), Project(c.l, t.rest), c.env, st, st1, fuel);
  }

  lemma SameSeq(a: PStmt, b: PStmt, p: PStmt, q: PStmt, env: Env, st: Store, st1: Store, fuel: nat)
    requires Run(a, env, st, fuel) == Run(b, env, st, fuel) == Done(st1) && Run(p, env, st1, fuel) == Run(q, env, st1, fuel)
    ensures Run(PSeq(a, p), env, st, fuel) == Run(PSeq(b, q), env, st, fuel)
  {
  }

  lemma PartsReady(c: Phase, weakest: Label, scope: set<Name>, pc: Label, s: Stmt<Label>, t: Stmt<Label>, w: World, w1: World, w': World, fuel: nat)
    requires s.Seq? && t == Taken(s, c.env, w, fuel) && Exec(s, c.env, w, fuel) == Done(w') && Exec(s.first, c.env, w, fuel) == Done(w1)
    requires Ready(c, weakest, scope, pc, t, w, w')
    ensures Exec(t.first, c.env, w, fuel) == Done(w1) && Exec(t.rest, c.env, w1, fuel) == Exec(s.rest, c.env, w1, fuel) == Done(w')
    ensures Ready(c, weakest, scope, pc, t.first, w, w1) && Ready(c, weakest, scope, pc, t.rest, w1, w')
  {
    TakenIsChosen(s.first, c.env, w, fuel);
    TakenIsChosen(s.rest, c.env, w1, fuel);
    Confined(c.sig, c.env, scope, pc, t.first, w, fuel);
    Confined(c.sig, c.env, scope, pc, t.rest, w1, fuel);
    SeqReady(c, weakest, scope, pc, t, w, w1, w');
  }

  // --- all phases ---

  /** The phases from the `i`-th on, of a program one choice of whose branches can be split. */
  lemma {:induction false} BranchPhases(sig: Sig, env: Env, labels: seq<Label>, i: nat, s: Stmt<Label>, t: Stmt<Label>, remote: map<Label, seq<Event>>, fin: World, base: Store, fuel: nat)
    returns (st: Store)
    requires Splittable(sig, env, labels, t) && i < |labels|
    requires t == Taken(s, env, Start(remote), fuel) && Exec(t, env, Start(remote), fuel) == Exec(s, env, Start(remote), fuel) == Done(fin)
    requires RunOnly(sig, labels, t, Start(remote), fin) && Between(sig, labels[i], fin, Start(remote), base)
    ensures RunPhases(labels[i..], s, env, base, fuel) == Done(st) && SameOutcome(fin, st)
    decreases |labels| - i
  {
    var weakest := labels[|labels| - 1];
    var st1 := BranchPhase(sig, env, weakest, labels[i], s, t, remote, fin, base, fuel);
    assert labels[i..][0] == labels[i] && labels[i..][1..] == labels[i + 1..];
    assert RunPhases(labels[i..], s, env, base, fuel) == RunPhases(labels[i + 1..], s, env, st1, fuel);
    if i == |labels| - 1 {
      LastPhase(sig, env, labels, t, Start(remote), fin, base, st1);
      st := st1;
    } else {
      NextPhase(sig, env, labels, i, t, Start(remote), fin, base, st1);
      st := BranchPhases(sig, env, labels, i + 1, s, t, remote, fin, st1, fuel);
    }
  }

  lemma BranchPhase(sig: Sig, env: Env, weakest: Label, l: Label, s: Stmt<Label>, t: Stmt<Label>, remote: map<Label, seq<Event>>, fin: World, base: Store, fuel: nat)
    returns (st: Store)
    requires StmtOk(sig, env, {}, TOP, t) && LateOnce(sig, t) && LoopsOnce(sig, weakest, t) && weakest <= l
    requires t == Taken(s, env, Start(remote), fuel) && Exec(t, env, Start(remote), fuel) == Exec(s, env, Start(remote), fuel) == Done(fin)
    requires Between(sig, l, fin, Start(remote), base)
    ensures Run(Project(l, s), env, BeginPhase(base), fuel) == Done(st) && Follows(Phase(sig, env, l, fin, base), fin, st)
  {
    st := OnePhase(sig, env, weakest, l, t, remote, fin, base, fuel);
    PhaseStarts(sig, env, l, fin, remote, base);
    SameBranches(Phase(sig, env, l, fin, base), weakest, {}, TOP, s, t, Start(remote), fin, BeginPhase(base), fuel);
  }

  /** What splitting asks for beyond permitted calls. */
  ghost predicate Orderly(sig: Sig, env: Env, weakest: Label, t: Stmt<Label>) {
    Described(sig, env, t) && LateOnce(sig, t) && LoopsOnce(sig, weakest, t)
  }

  /** Every choice of branches is orderly by itself. */
  ghost predicate OrderlyByBranches(env: Env, weakest: Label, s: Stmt<Label>) {
    forall t | Chosen(s, t) :: exists sig :: Orderly(sig, env, weakest, t)
  }

  /** Splitting preserves meaning, and what it asks of names and counters it asks of each choice of
      branches by itself: names and counters may be used again, with other labels, in branches that
      exclude each other. */
  lemma BranchesPreserveMeaning(env: Env, labels: seq<Label>, s: Stmt<Label>, remote: map<Label, seq<Event>>, fuel: nat)
    requires labels != [] && Descending(labels) && forall l | l in Collected(s) :: l in labels
    requires StmtFlows(env, map[], TOP, s) && CallsPermitted(TOP, s) && ReturnsLast(s)
    requires OrderlyByBranches(env, labels[|labels| - 1], s)
    requires ExecStops(s, env, Start(remote), fuel).Done?
    ensures var r := RunPhasesStops(labels, s, env, Launch(remote), fuel);
            r.Done? && SameOutcome(ExecStops(s, env, Start(remote), fuel).s, r.s)
  {
    StopsIsExec(s, env, Start(remote), fuel);
    var t := Taken(s, env, Start(remote), fuel);
    TakenIsChosen(s, env, Start(remote), fuel);
    var sig :| Orderly(sig, env, labels[|labels| - 1], t);
    ChosenFlows(env, map[], TOP, s, t);
    FlowsIsOk(sig, env, {}, map[], TOP, t);
    BranchesRun(sig, env, labels, s, remote, fuel);
    PhasesStopIsRun(labels, env, s, Launch(remote), fuel);
  }

  lemma BranchesRun(sig: Sig, env: Env, labels: seq<Label>, s: Stmt<Label>, remote: map<Label, seq<Event>>, fuel: nat)
    requires Splittable(sig, env, labels, Taken(s, env, Start(remote), fuel)) && Exec(s, env, Start(remote), fuel).Done?
    ensures var r := RunPhases(labels, s, env, Launch(remote), fuel);
            r.Done? && SameOutcome(Exec(s, env, Start(remote), fuel).s, r.s)
  {
    var t := Taken(s, env, Start(remote), fuel);
    TakenIsChosen(s, env, Start(remote), fuel);
    var fin := Exec(s, env, Start(remote), fuel).s;
    WholeRun(sig, env, labels, t, remote, fin, fuel);
    LaunchBetween(sig, labels, t, remote, fin);
    var st := BranchPhases(sig, env, labels, 0, s, t, remote, fin, Launch(remote), fuel);
    assert labels[0..] == labels;
  }

  /** What is orderly as a whole is orderly by branches. */
  lemma {:induction false} ChosenIsOrderly(sig: Sig, env: Env, weakest: Label, s: Stmt<Label>, t: Stmt<Label>)
    requires Chosen(s, t) && Orderly(sig, env, weakest, s)
    ensures Orderly(sig, env, weakest, t) && Bound(t) <= Bound(s) && Loops(t) <= Loops(s)
    decreases s
  {
    match s
    case Let(_, _, _, _, body) => ChosenIsOrderly(sig, env, weakest, body, t.body);
    case If(l, _, a, b) =>
      if Chosen(a, t.thn) && t.els == Skip(l) { ChosenIsOrderly(sig, env, weakest, a, t.thn); }
      if Chosen(b, t.els) && t.thn == Skip(l) { ChosenIsOrderly(sig, env, weakest, b, t.els); }
    case Seq(_, a, b) =>
      ChosenIsOrderly(sig, env, weakest, a, t.first);
      ChosenIsOrderly(sig, env, weakest, b, t.rest);
    case _ =>
  }

  /** The same for a parsed program and the phases it is compiled to. */
  lemma CompiledBranchesPreserveMeaning(env: Env, labels: seq<Label>, phases: seq<Label>, p: Stmt<()>, remote: map<Label, seq<Event>>, fuel: nat)
    requires D.Parsed(p) && FlattenCorrect.UserInputs(env) && E.Accepted(env, labels, p) && ReturnsLast(p)
    requires var q := E.Compiled(env, labels, p).value;
             && phases != [] && Descending(phases) && (forall l | l in Collected(q) :: l in phases)
             && CallsPermitted(TOP, q) && OrderlyByBranches(env, phases[|phases| - 1], q)
    requires ExecStops(p, env, Start(remote), fuel).Done?
    ensures var r := RunPhasesStops(phases, E.Compiled(env, labels, p).value, env, Launch(remote), fuel + 1);
            r.Done? && E.Realizes(ExecStops(p, env, Start(remote), fuel).s, r.s)
  {
    var q := E.Compiled(env, labels, p).value;
    StopsIsExec(p, env, Start(remote), fuel);
    E.CompiledFlows(env, labels, p);
    E.CompiledReturns(env, labels, p);
    D.FlatteningPreservesMeaning(env, p, Start(remote), fuel);
    E.PlainRuns(F.FlattenExpressions(p), q, env, Start(remote), fuel + 1);
    StopsIsExec(q, env, Start(remote), fuel + 1);
    BranchesPreserveMeaning(env, phases, q, remote, fuel + 1);
  }
}
