/** What the front end finds: every program that can be labelled so that it meets its flows is accepted,
    and gets the strongest such labels, as long as its bindings get labels of their own. */
module Complete {
  import opened Labels
  import opened Syntax
  import opened Semantics
  import opened Symbolic
  import opened Typecheck
  import opened TypecheckCorrect
  import opened Inference
  import opened InferenceCorrect
  import opened Flatten
  import opened FlattenCorrect
  import opened DesugarCorrect
  import opened NameLoops
  import opened Compile
  import opened EndToEnd
  import F = Flows
  import W = WellLabelled
  import Solver

  /** `tau` gives every binding of a labelled program the label it carries there. */
  predicate Picks(tau: Assignment, seqnum: int, depth: int, q: Stmt<Label>)
    decreases q
  {
    match q
    case Let(_, bl, _, _, body) => tau(TempId(seqnum, depth)) == bl && Picks(tau, seqnum + 1, depth + 1, body)
    case If(_, _, a, b) => Picks(tau, seqnum + 1, depth + 1, a) && Picks(tau, seqnum + 2, depth + 1, b)
    case While(_, _, body, _) => Picks(tau, seqnum + 1, depth + 1, body)
    case Seq(_, a, b) => Picks(tau, seqnum, depth, a) && Picks(tau, seqnum + 1, depth, b)
    case _ => true
  }

  /** The checker knows everything in scope. */
  ghost predicate ScopeFull(env: Env, places: F.Places, scope: Scope, tau: Assignment) {
    && (forall x | x in places :: x in scope && Value(tau, scope[x]) == places[x].level)
    && (forall x | x !in places && W.IsInput(env, x) :: x in scope && scope[x] == Con(TOP))
  }

  // --- what flows is checked, and meets the collected constraints ---

  lemma {:induction false} ExprChecks(env: Env, places: F.Places, scope: Scope, tau: Assignment, e: Expr<Label>)
    requires ScopeFull(env, places, scope, tau) && F.ExprFlows(env, places, e)
    ensures var r := CheckExpr(scope, StripExpr(e));
            r.Some? && InstExpr(tau, r.value) == e && Value(tau, ExprLabel(r.value)) == W.ExprLabel(e)
  {
    if e.Bin? {
      ExprChecks(env, places, scope, tau, e.left);
      ExprChecks(env, places, scope, tau, e.right);
      var a, b := CheckExpr(scope, StripExpr(e.left)).value, CheckExpr(scope, StripExpr(e.right)).value;
      ResolvedMinValue(tau, ExprLabel(a), ExprLabel(b));
    }
  }

  lemma {:induction false} RefsCheck(env: Env, places: F.Places, scope: Scope, tau: Assignment, rs: seq<Ref<Label>>)
    requires ScopeFull(env, places, scope, tau) && F.RefsFlow(env, places, rs)
    ensures var r := CheckRefs(scope, StripRefs(rs));
            r.Some? && InstRefs(tau, r.value) == rs && forall h | h in RefsOf(r.value) :: Value(tau, h) >= W.RefsLabel(rs)
  {
    if rs != [] {
      RefsCheck(env, places, scope, tau, rs[1..]);
      var r := CheckRefs(scope, StripRefs(rs));
      assert StripRefs(rs)[1..] == StripRefs(rs[1..]);
      assert r.value[1..] == CheckRefs(scope, StripRefs(rs[1..])).value;
      assert RefsOf(r.value) == [r.value[0].l] + RefsOf(r.value[1..]);
    }
  }

  lemma CallChecks(env: Env, places: F.Places, scope: Scope, tau: Assignment, pc: Sym, c: Invoke<Label>)
    requires ScopeFull(env, places, scope, tau) && F.CallFlows(env, places, c)
    ensures var r := CheckCall(scope, StripCall(c));
            && r.Some? && InstCall(tau, r.value) == c
            && Value(tau, ExecutionLabel(pc, r.value)) == W.CallLabel(Value(tau, pc), c)
            && SatAll(tau, CollectCall(r.value))
  {
    RefsCheck(env, places, scope, tau, c.args);
    var r := CheckCall(scope, StripCall(c)).value;
    var h := Con(c.handleLabel);
    ArgsMinValue(tau, ResolvedMin(h, h), r.args);
    ResolvedMinValue(tau, h, h);
    ResolvedMinValue(tau, pc, ArgsMin(ResolvedMin(h, h), r.args));
    ResolvedMinValue(tau, r.handle.l, ResolvedMin(pc, ArgsMin(ResolvedMin(h, h), r.args)));
    FlowsFromIs(CallOf(r), h);
  }

  lemma RhsChecks(env: Env, places: F.Places, scope: Scope, tau: Assignment, pc: Sym, rhs: Rhs<Label>)
    requires ScopeFull(env, places, scope, tau) && F.RhsFlows(env, places, Value(tau, pc), rhs)
    ensures var r := CheckRhs(scope, pc, StripRhs(rhs));
            && r.Some? && InstRhs(tau, r.value) == rhs
            && Value(tau, RhsLabel(r.value)) == W.RhsLabel(rhs) && SatAll(tau, CollectRhs(r.value))
  {
    match rhs
    case Pure(e) => ExprChecks(env, places, scope, tau, e);
    case Remote(_, c) => CallChecks(env, places, scope, tau, pc, c);
  }

  /** The checked form of `q` without its labels: `q` is an instance of it, and one that meets its
      constraints. */
  ghost predicate ChecksTo(tau: Assignment, qc: Sym, q: Stmt<Label>, c: Option<Stmt<Sym>>) {
    c.Some? && Instantiate(tau, c.value) == q && SatAll(tau, Collect(qc, c.value))
  }

  lemma {:induction false} FlowsCheck(env: Env, places: F.Places, seqnum: int, depth: int, scope: Scope, tau: Assignment, pc: Sym, qc: Sym, q: Stmt<Label>)
    requires ScopeFull(env, places, scope, tau) && Value(tau, qc) == Value(tau, pc)
    requires F.StmtFlows(env, places, Value(tau, pc), q) && Picks(tau, seqnum, depth, q)
    ensures ChecksTo(tau, qc, q, Check(seqnum, depth, scope, pc, StripStmt(q)))
    decreases q, 1
  {
    match q
    case Let(_, _, _, _, _) => LetChecks(env, places, seqnum, depth, scope, tau, pc, qc, q);
    case Assign(_, _, _) => AssignChecks(env, places, seqnum, depth, scope, tau, pc, qc, q);
    case Perform(_, c) => CallChecks(env, places, scope, tau, pc, c);
    case Return(_, e) => ExprChecks(env, places, scope, tau, e);
    case If(_, _, _, _) => IfChecks(env, places, seqnum, depth, scope, tau, pc, qc, q);
    case While(_, _, _, _) => WhileChecks(env, places, seqnum, depth, scope, tau, pc, qc, q);
    case Skip(_) =>
    case Seq(_, a, b) =>
      FlowsCheck(env, places, seqnum, depth, scope, tau, pc, qc, a);
      FlowsCheck(env, places, seqnum + 1, depth, scope, tau, pc, qc, b);
      SeqChecks(seqnum, depth, scope, tau, pc, qc, q);
  }

  lemma SeqChecks(seqnum: int, depth: int, scope: Scope, tau: Assignment, pc: Sym, qc: Sym, q: Stmt<Label>)
    requires q.Seq? && q.l == Value(tau, pc)
    requires ChecksTo(tau, qc, q.first, Check(seqnum, depth, scope, pc, StripStmt(q.first)))
    requires ChecksTo(tau, qc, q.rest, Check(seqnum + 1, depth, scope, pc, StripStmt(q.rest)))
    ensures ChecksTo(tau, qc, q, Check(seqnum, depth, scope, pc, StripStmt(q)))
  {
    var c := Check(seqnum, depth, scope, pc, StripStmt(q)).value;
    SatJoin(tau, Collect(qc, c.first), Collect(qc, c.rest));
  }

  lemma {:induction false} WhileChecks(env: Env, places: F.Places, seqnum: int, depth: int, scope: Scope, tau: Assignment, pc: Sym, qc: Sym, q: Stmt<Label>)
    requires q.While? && ScopeFull(env, places, scope, tau) && Value(tau, qc) == Value(tau, pc)
    requires F.StmtFlows(env, places, Value(tau, pc), q) && Picks(tau, seqnum, depth, q)
    ensures ChecksTo(tau, qc, q, Check(seqnum, depth, scope, pc, StripStmt(q)))
    decreases q, 0
  {
    ExprChecks(env, places, scope, tau, q.cond);
    var k := ExprLabel(CheckExpr(scope, StripExpr(q.cond)).value);
    ResolvedMinValue(tau, k, pc);
    ResolvedMinValue(tau, pc, k);
    FlowsCheck(env, places, seqnum + 1, depth + 1, scope, tau, ResolvedMin(k, pc), Min(qc, ResolvedMin(pc, k)), q.body);
  }

  lemma {:induction false} LetChecks(env: Env, places: F.Places, seqnum: int, depth: int, scope: Scope, tau: Assignment, pc: Sym, qc: Sym, q: Stmt<Label>)
    requires q.Let? && ScopeFull(env, places, scope, tau) && Value(tau, qc) == Value(tau, pc)
    requires F.StmtFlows(env, places, Value(tau, pc), q) && Picks(tau, seqnum, depth, q)
    ensures ChecksTo(tau, qc, q, Check(seqnum, depth, scope, pc, StripStmt(q)))
    decreases q, 0
  {
    var bl := Temp(TempId(seqnum, depth));
    RhsChecks(env, places, scope, tau, pc, q.rhs);
    var r := CheckRhs(scope, pc, StripRhs(q.rhs)).value;
    ResolvedMinValue(tau, RhsLabel(r), pc);
    FlowsCheck(env, places[q.x := F.Place(q.bl, q.l)], seqnum + 1, depth + 1, scope[q.x := bl], tau, pc, qc, q.body);
    var b := Check(seqnum + 1, depth + 1, scope[q.x := bl], pc, StripStmt(q.body)).value;
    var own := [Constraint(RhsLabel(r), bl), Constraint(qc, bl)];
    assert forall c | c in own :: Sat(tau, c);
    SatJoin(tau, own, CollectRhs(r));
    SatJoin(tau, own + CollectRhs(r), Collect(qc, b));
  }

  lemma AssignChecks(env: Env, places: F.Places, seqnum: int, depth: int, scope: Scope, tau: Assignment, pc: Sym, qc: Sym, q: Stmt<Label>)
    requires q.Assign? && ScopeFull(env, places, scope, tau) && Value(tau, qc) == Value(tau, pc)
    requires F.StmtFlows(env, places, Value(tau, pc), q)
    ensures ChecksTo(tau, qc, q, Check(seqnum, depth, scope, pc, StripStmt(q)))
  {
    ExprChecks(env, places, scope, tau, q.e);
    var k, t := ExprLabel(CheckExpr(scope, StripExpr(q.e)).value), CheckRef(scope, StripRef(q.target)).value.l;
    ResolvedMinValue(tau, k, t);
    ResolvedMinValue(tau, ResolvedMin(k, t), pc);
  }

  lemma {:induction false} IfChecks(env: Env, places: F.Places, seqnum: int, depth: int, scope: Scope, tau: Assignment, pc: Sym, qc: Sym, q: Stmt<Label>)
    requires q.If? && ScopeFull(env, places, scope, tau) && Value(tau, qc) == Value(tau, pc)
    requires F.StmtFlows(env, places, Value(tau, pc), q) && Picks(tau, seqnum, depth, q)
    ensures ChecksTo(tau, qc, q, Check(seqnum, depth, scope, pc, StripStmt(q)))
    decreases q, 0
  {
    ExprChecks(env, places, scope, tau, q.cond);
    var k := ExprLabel(CheckExpr(scope, StripExpr(q.cond)).value);
    var inner, next := ResolvedMin(k, pc), Min(qc, ResolvedMin(pc, k));
    ResolvedMinValue(tau, k, pc);
    ResolvedMinValue(tau, pc, k);
    FlowsCheck(env, places, seqnum + 1, depth + 1, scope, tau, inner, next, q.thn);
    FlowsCheck(env, places, seqnum + 2, depth + 1, scope, tau, inner, next, q.els);
    var c := Check(seqnum, depth, scope, pc, StripStmt(q)).value;
    SatJoin(tau, Collect(next, c.thn), Collect(next, c.els));
  }

  // --- what is inferred ---

  lemma {:induction false} InstancePicks(sigma: Assignment, seqnum: int, depth: int, scope: Scope, pc: Sym, s: Stmt<()>)
    requires Check(seqnum, depth, scope, pc, s).Some?
    ensures Picks(sigma, seqnum, depth, Instantiate(sigma, Check(seqnum, depth, scope, pc, s).value))
    decreases s
  {
    match s
    case Let(_, _, x, _, body) => InstancePicks(sigma, seqnum + 1, depth + 1, scope[x := Temp(TempId(seqnum, depth))], pc, body);
    case If(_, cond, a, b) =>
      var inner := ResolvedMin(ExprLabel(CheckExpr(scope, cond).value), pc);
      InstancePicks(sigma, seqnum + 1, depth + 1, scope, inner, a);
      InstancePicks(sigma, seqnum + 2, depth + 1, scope, inner, b);
    case While(_, cond, body, _) =>
      InstancePicks(sigma, seqnum + 1, depth + 1, scope, ResolvedMin(ExprLabel(CheckExpr(scope, cond).value), pc), body);
    case Seq(_, a, b) =>
      InstancePicks(sigma, seqnum, depth, scope, pc, a);
      InstancePicks(sigma, seqnum + 1, depth, scope, pc, b);
    case _ =>
  }

  /** Binding by binding, `r` is labelled no stronger than `q`. */
  predicate Weaker(r: Stmt<Label>, q: Stmt<Label>)
    decreases q
  {
    match q
    case Let(_, bl, _, _, body) => r.Let? && r.bl <= bl && Weaker(r.body, body)
    case If(_, _, a, b) => r.If? && Weaker(r.thn, a) && Weaker(r.els, b)
    case While(_, _, body, _) => r.While? && Weaker(r.body, body)
    case Seq(_, a, b) => r.Seq? && Weaker(r.first, a) && Weaker(r.rest, b)
    case _ => true
  }

  ghost predicate AllBelow(sigma: Assignment, tau: Assignment, ks: set<Sym>) {
    forall k | k in ks :: Value(sigma, k) <= Value(tau, k)
  }

  lemma AllBelowJoin(sigma: Assignment, tau: Assignment, ks: set<Sym>, ls: set<Sym>)
    ensures AllBelow(sigma, tau, ks + ls) <==> AllBelow(sigma, tau, ks) && AllBelow(sigma, tau, ls)
  {
    forall k | AllBelow(sigma, tau, ks + ls) && (k in ks || k in ls) ensures Value(sigma, k) <= Value(tau, k) {
      assert k in ks + ls;
    }
  }

  lemma {:induction false} BelowMeans(sigma: Assignment, tau: Assignment, c: Stmt<Sym>)
    ensures Weaker(Instantiate(sigma, c), Instantiate(tau, c)) <==> AllBelow(sigma, tau, BoundLabels(c))
  {
    match c
    case Let(_, bl, _, _, body) =>
      BelowMeans(sigma, tau, body);
      AllBelowJoin(sigma, tau, {bl}, BoundLabels(body));
      assert AllBelow(sigma, tau, {bl}) <==> Value(sigma, bl) <= Value(tau, bl);
    case If(_, _, a, b) =>
      BelowMeans(sigma, tau, a);
      BelowMeans(sigma, tau, b);
      AllBelowJoin(sigma, tau, BoundLabels(a), BoundLabels(b));
    case While(_, _, body, _) => BelowMeans(sigma, tau, body);
    case Seq(_, a, b) =>
      BelowMeans(sigma, tau, a);
      BelowMeans(sigma, tau, b);
      AllBelowJoin(sigma, tau, BoundLabels(a), BoundLabels(b));
    case _ =>
  }

  lemma RootFull(env: Env, tau: Assignment)
    ensures ScopeFull(env, map[], RootScope(env), tau)
  {
  }

  lemma RootChecks(env: Env, tau: Assignment, q: Stmt<Label>)
    requires F.StmtFlows(env, map[], TOP, q) && Picks(tau, 1, 1, q)
    ensures ChecksTo(tau, Con(TOP), q, Check(1, 1, RootScope(env), Con(TOP), StripStmt(q)))
  {
    RootFull(env, tau);
    FlowsCheck(env, map[], 1, 1, RootScope(env), tau, Con(TOP), Con(TOP), q);
  }

  /** A labelling that meets the constraints of a checked program lies below the inferred one. */
  lemma InferredAbove(env: Env, labels: seq<Label>, s: Stmt<()>, c: Stmt<Sym>, tau: Assignment) returns (sigma: Assignment)
    requires Check(1, 1, RootScope(env), Con(TOP), s) == Some(c) && KnownLabels(labels, c)
    requires SatAll(tau, Collect(Con(TOP), c))
    ensures FrontEnd(env, labels, s) == Some(Instantiate(sigma, c)) && AllBelow(tau, sigma, BoundLabels(c))
  {
    CheckedProgram(env, labels, s);
    Inferred(labels, c, tau);
    sigma := Solution(labels, c);
    var any: Assignment := t => TOP;
    assert Instantiate(any, InferLabels(labels, c).value) == Instantiate(sigma, c);
    BoundIn(c);
    BoundAreTemps(1, 1, RootScope(env), Con(TOP), s);
    forall k | k in BoundLabels(c) ensures Value(tau, k) <= Value(sigma, k) {
      assert k.t in AllTemps(LabelsOf(c)) by { assert k in LabelsOf(c) && k.t in Temps(k); }
    }
  }

  lemma Inferred(labels: seq<Label>, c: Stmt<Sym>, tau: Assignment)
    requires Checked(labels, c) && PlainTargets(c) && SatAll(tau, Collect(Con(TOP), c))
    ensures InferLabels(labels, c).Some? && Collapse(Collect(Con(TOP), c)).Some? && Solver.InferRounds(labels, Given(c), map[]).Some?
    ensures forall any: Assignment :: Instantiate(any, InferLabels(labels, c).value) == Instantiate(Solution(labels, c), c)
    ensures forall t | t in AllTemps(LabelsOf(c)) :: tau(t) <= Solution(labels, c)(t)
  {
    InferenceFailsIff(labels, c);
    InferenceIsGreatest(labels, c);
  }

  /** Whatever can be labelled is accepted, with labels at least as strong. */
  lemma LabelledIsAccepted(env: Env, labels: seq<Label>, tau: Assignment, q: Stmt<Label>)
    requires F.StmtFlows(env, map[], TOP, q) && Picks(tau, 1, 1, q)
    ensures var c := Check(1, 1, RootScope(env), Con(TOP), StripStmt(q));
            c.Some? && (KnownLabels(labels, c.value) ==>
              FrontEnd(env, labels, StripStmt(q)).Some? && Weaker(q, FrontEnd(env, labels, StripStmt(q)).value))
  {
    RootChecks(env, tau, q);
    var c := Check(1, 1, RootScope(env), Con(TOP), StripStmt(q)).value;
    if KnownLabels(labels, c) {
      var sigma := InferredAbove(env, labels, StripStmt(q), c, tau);
      BelowMeans(tau, sigma, c);
    }
  }

  lemma {:induction false} BoundIn(c: Stmt<Sym>)
    ensures forall k | k in BoundLabels(c) :: k in LabelsOf(c)
  {
    match c
    case Let(l, bl, _, rhs, body) =>
      BoundIn(body);
      assert LabelsOf(c)[1] == bl;
    case If(_, _, a, b) =>
      BoundIn(a);
      BoundIn(b);
    case While(_, _, body, _) => BoundIn(body);
    case Seq(_, a, b) =>
      BoundIn(a);
      BoundIn(b);
    case _ =>
  }

  lemma {:induction false} BoundAreTemps(seqnum: int, depth: int, scope: Scope, pc: Sym, s: Stmt<()>)
    requires Check(seqnum, depth, scope, pc, s).Some?
    ensures forall k | k in BoundLabels(Check(seqnum, depth, scope, pc, s).value) :: k.Temp?
    decreases s
  {
    match s
    case Let(_, _, x, _, body) => BoundAreTemps(seqnum + 1, depth + 1, scope[x := Temp(TempId(seqnum, depth))], pc, body);
    case If(_, cond, a, b) =>
      var inner := ResolvedMin(ExprLabel(CheckExpr(scope, cond).value), pc);
      BoundAreTemps(seqnum + 1, depth + 1, scope, inner, a);
      BoundAreTemps(seqnum + 2, depth + 1, scope, inner, b);
    case While(_, cond, body, _) =>
      BoundAreTemps(seqnum + 1, depth + 1, scope, ResolvedMin(ExprLabel(CheckExpr(scope, cond).value), pc), body);
    case Seq(_, a, b) =>
      BoundAreTemps(seqnum, depth, scope, pc, a);
      BoundAreTemps(seqnum + 1, depth, scope, pc, b);
    case _ =>
  }

  /** A labelled program is what the front end makes of it, if no other labelling is stronger anywhere. */
  lemma StrongestIsGiven(env: Env, labels: seq<Label>, tau: Assignment, q: Stmt<Label>)
    requires F.StmtFlows(env, map[], TOP, q) && Picks(tau, 1, 1, q)
    requires forall r | Plain(r) == Plain(q) && F.StmtFlows(env, map[], TOP, r) :: Weaker(r, q)
    requires Check(1, 1, RootScope(env), Con(TOP), StripStmt(q)).Some?
    requires KnownLabels(labels, Check(1, 1, RootScope(env), Con(TOP), StripStmt(q)).value)
    ensures FrontEnd(env, labels, StripStmt(q)) == Some(q)
  {
    var s := StripStmt(q);
    RootChecks(env, tau, q);
    var c := Check(1, 1, RootScope(env), Con(TOP), s).value;
    var sigma := InferredAbove(env, labels, s, c, tau);
    FrontEndFlows(env, labels, s);
    CheckStrip(sigma, 1, 1, RootScope(env), Con(TOP), s);
    PlainStrip(Instantiate(sigma, c));
    PlainStrip(q);
    BelowMeans(sigma, tau, c);
    CheckedProgram(env, labels, s);
    forall t | t in AllTemps(LabelsOf(c)) ensures sigma(t) == tau(t) {
      assert Value(sigma, Temp(t)) <= Value(tau, Temp(t)) <= Value(sigma, Temp(t));
    }
    InstantiateSame(sigma, tau, c);
  }

  // --- when bindings have labels of their own ---

  /** The ids of the labels that the bindings of a program get. */
  function Ids<L>(seqnum: int, depth: int, s: Stmt<L>): set<TempId>
    decreases s
  {
    match s
    case Let(_, _, _, _, body) => {TempId(seqnum, depth)} + Ids(seqnum + 1, depth + 1, body)
    case If(_, _, a, b) => Ids(seqnum + 1, depth + 1, a) + Ids(seqnum + 2, depth + 1, b)
    case While(_, _, body, _) => Ids(seqnum + 1, depth + 1, body)
    case Seq(_, a, b) => Ids(seqnum, depth, a) + Ids(seqnum + 1, depth, b)
    case _ => {}
  }

  /** No two bindings get the same id. */
  predicate OwnIds<L>(seqnum: int, depth: int, s: Stmt<L>)
    decreases s
  {
    match s
    case Let(_, _, _, _, body) => TempId(seqnum, depth) !in Ids(seqnum + 1, depth + 1, body) && OwnIds(seqnum + 1, depth + 1, body)
    case If(_, _, a, b) =>
      && OwnIds(seqnum + 1, depth + 1, a) && OwnIds(seqnum + 2, depth + 1, b)
      && Ids(seqnum + 1, depth + 1, a) !! Ids(seqnum + 2, depth + 1, b)
    case While(_, _, body, _) => OwnIds(seqnum + 1, depth + 1, body)
    case Seq(_, a, b) =>
      OwnIds(seqnum, depth, a) && OwnIds(seqnum + 1, depth, b) && Ids(seqnum, depth, a) !! Ids(seqnum + 1, depth, b)
    case _ => true
  }

  lemma {:induction false} StripIds<L>(seqnum: int, depth: int, s: Stmt<L>)
    ensures Ids(seqnum, depth, StripStmt(s)) == Ids(seqnum, depth, s) && OwnIds(seqnum, depth, StripStmt(s)) == OwnIds(seqnum, depth, s)
    decreases s
  {
    match s
    case Let(_, _, _, _, body) => StripIds(seqnum + 1, depth + 1, body);
    case If(_, _, a, b) =>
      StripIds(seqnum + 1, depth + 1, a);
      StripIds(seqnum + 2, depth + 1, b);
    case While(_, _, body, _) => StripIds(seqnum + 1, depth + 1, body);
    case Seq(_, a, b) =>
      StripIds(seqnum, depth, a);
      StripIds(seqnum + 1, depth, b);
    case _ =>
  }

  lemma {:induction false} PicksSame(sigma: Assignment, tau: Assignment, seqnum: int, depth: int, q: Stmt<Label>)
    requires Picks(sigma, seqnum, depth, q) && forall t | t in Ids(seqnum, depth, q) :: sigma(t) == tau(t)
    ensures Picks(tau, seqnum, depth, q)
    decreases q
  {
    match q
    case Let(_, _, _, _, body) => PicksSame(sigma, tau, seqnum + 1, depth + 1, body);
    case If(_, _, a, b) =>
      PicksSame(sigma, tau, seqnum + 1, depth + 1, a);
      PicksSame(sigma, tau, seqnum + 2, depth + 1, b);
    case While(_, _, body, _) => PicksSame(sigma, tau, seqnum + 1, depth + 1, body);
    case Seq(_, a, b) =>
      PicksSame(sigma, tau, seqnum, depth, a);
      PicksSame(sigma, tau, seqnum + 1, depth, b);
    case _ =>
  }

  lemma PicksJoin(a: Assignment, b: Assignment, s: int, d: int, p: Stmt<Label>, t: int, e: int, q: Stmt<Label>) returns (tau: Assignment)
    requires Picks(a, s, d, p) && Picks(b, t, e, q) && Ids(s, d, p) !! Ids(t, e, q)
    ensures Picks(tau, s, d, p) && Picks(tau, t, e, q)
  {
    tau := u => if u in Ids(s, d, p) then a(u) else b(u);
    PicksSame(a, tau, s, d, p);
    PicksSame(b, tau, t, e, q);
  }

  /** Then the labels a program carries are those some labelling gives it. */
  lemma {:induction false} OwnPicks(seqnum: int, depth: int, q: Stmt<Label>) returns (tau: Assignment)
    requires OwnIds(seqnum, depth, q)
    ensures Picks(tau, seqnum, depth, q)
    decreases q
  {
    match q
    case Let(_, bl, _, _, body) =>
      var t := OwnPicks(seqnum + 1, depth + 1, body);
      tau := u => if u == TempId(seqnum, depth) then bl else t(u);
      PicksSame(t, tau, seqnum + 1, depth + 1, body);
    case If(_, _, a, b) =>
      var t := OwnPicks(seqnum + 1, depth + 1, a);
      var u := OwnPicks(seqnum + 2, depth + 1, b);
      tau := PicksJoin(t, u, seqnum + 1, depth + 1, a, seqnum + 2, depth + 1, b);
    case While(_, _, body, _) => tau := OwnPicks(seqnum + 1, depth + 1, body);
    case Seq(_, a, b) =>
      var t := OwnPicks(seqnum, depth, a);
      var u := OwnPicks(seqnum + 1, depth, b);
      tau := PicksJoin(t, u, seqnum, depth, a, seqnum + 1, depth, b);
    case _ => tau := t => TOP;
  }

  /** The program with labels that meet its flows. */
  ghost predicate Labelled(env: Env, s: Stmt<()>, q: Stmt<Label>) {
    StripStmt(q) == s && F.StmtFlows(env, map[], TOP, q)
  }

  lemma AcceptedIsLabelled(env: Env, labels: seq<Label>, s: Stmt<()>) returns (sigma: Assignment)
    requires FrontEnd(env, labels, s).Some? && KnownLabels(labels, Check(1, 1, RootScope(env), Con(TOP), s).value)
    ensures var r := FrontEnd(env, labels, s).value; Labelled(env, s, r) && Picks(sigma, 1, 1, r)
  {
    var c := Check(1, 1, RootScope(env), Con(TOP), s).value;
    FrontEndFlows(env, labels, s);
    CheckedProgram(env, labels, s);
    InferenceIsGreatest(labels, c);
    sigma := Solution(labels, c);
    var any: Assignment := t => TOP;
    assert FrontEnd(env, labels, s).value == Instantiate(any, InferLabels(labels, c).value) == Instantiate(sigma, c);
    CheckStrip(sigma, 1, 1, RootScope(env), Con(TOP), s);
    InstancePicks(sigma, 1, 1, RootScope(env), Con(TOP), s);
  }

  /** If every binding has an id of its own, the front end accepts exactly the programs that can be
      labelled so that they meet their flows, and gives them the strongest such labels. */
  lemma AcceptedIffLabelled(env: Env, labels: seq<Label>, s: Stmt<()>)
    requires OwnIds(1, 1, s)
    requires var c := Check(1, 1, RootScope(env), Con(TOP), s); c.Some? ==> KnownLabels(labels, c.value)
    ensures FrontEnd(env, labels, s).Some? <==> exists q :: Labelled(env, s, q)
    ensures FrontEnd(env, labels, s).Some? ==>
              Labelled(env, s, FrontEnd(env, labels, s).value) && forall q | Labelled(env, s, q) :: Weaker(q, FrontEnd(env, labels, s).value)
  {
    if FrontEnd(env, labels, s).Some? {
      var sigma := AcceptedIsLabelled(env, labels, s);
    }
    forall q | Labelled(env, s, q) ensures FrontEnd(env, labels, s).Some? && Weaker(q, FrontEnd(env, labels, s).value) {
      StripIds(1, 1, q);
      var tau := OwnPicks(1, 1, q);
      LabelledIsAccepted(env, labels, tau, q);
    }
  }

  // --- the whole compiler ---

  lemma {:induction false} LabelList(ls: set<Label>) returns (labels: seq<Label>)
    ensures Solver.Ascending(labels) && forall k :: k in labels <==> k in ls
    decreases |ls|
  {
    if ls == {} {
      labels := [];
    } else {
      var k := Strongest(ls);
      var rest := LabelList(ls - {k});
      labels := rest + [k];
      forall i, j | 0 <= i < j < |labels| ensures labels[i] < labels[j] {
        assert labels[i] == rest[i] && rest[i] in rest && rest[i] in ls - {k};
        assert j == |rest| ==> labels[j] == k;
      }
      forall j: Label ensures j in labels <==> j in ls {
        assert j in labels <==> j in rest || j == k;
        assert j in rest <==> j in ls - {k};
      }
    }
  }

  lemma {:induction false} Strongest(ls: set<Label>) returns (k: Label)
    requires ls != {}
    ensures k in ls && forall j | j in ls :: j <= k
    decreases |ls|
  {
    k :| k in ls;
    if ls != {k} {
      var j := Strongest(ls - {k});
      assert forall i | i in ls :: i == k || i in ls - {k};
      if j > k { k := j; }
    }
  }

  /** The compiler turns the parsed program `p` into `q`. */
  ghost predicate CompilesTo(env: Env, p: Stmt<()>, q: Stmt<Label>) {
    && Parsed(p) && UserInputs(env)
    && (exists labels :: Accepted(env, labels, p))
    && forall labels | Accepted(env, labels, p) :: Compiled(env, labels, p) == Some(q)
  }

  lemma StrongestIsCompiled(env: Env, tau: Assignment, p: Stmt<()>, q: Stmt<Label>)
    requires F.StmtFlows(env, map[], TOP, q) && Picks(tau, 1, 1, q)
    requires forall r | Plain(r) == Plain(q) && F.StmtFlows(env, map[], TOP, r) :: Weaker(r, q)
    requires Parsed(p) && UserInputs(env) && FlattenExpressions(p) == StripStmt(q)
    ensures CompilesTo(env, p, Named(q))
  {
    var s := StripStmt(q);
    LabelledIsAccepted(env, [], tau, q);
    var c := Check(1, 1, RootScope(env), Con(TOP), s).value;
    var known := LabelList(AllConcretes(LabelsOf(c)));
    assert (set k | k in known) == AllConcretes(LabelsOf(c)) && KnownLabels(known, c);
    forall labels | KnownLabels(labels, c) ensures Compiled(env, labels, p) == Some(Named(q)) {
      StrongestIsGiven(env, labels, tau, q);
    }
    assert Accepted(env, known, p);
  }
}
