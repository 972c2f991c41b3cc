/** What a phase can see and change. */
module Frame {
  import opened Syntax
  import opened Semantics
  import opened SplitPhase
  import opened PhaseRun

  /** Variables a phase binds or assigns. */
  function Writes(p: PStmt): set<Name> {
    match p
    case PLet(_, x, _, body) => {x} + Writes(body)
    case PAssign(x, _) => {x}
    case PIf(_, a, b) => Writes(a) + Writes(b)
    case PWhile(_, body, _) => Writes(body)
    case PForEach(body, _) => Writes(body)
    case PSeq(a, b) => Writes(a) + Writes(b)
    case _ => {}
  }

  /** Variables it binds. */
  function Binds(p: PStmt): set<Name> {
    match p
    case PLet(_, x, _, body) => {x} + Binds(body)
    case PIf(_, a, b) => Binds(a) + Binds(b)
    case PWhile(_, body, _) => Binds(body)
    case PForEach(body, _) => Binds(body)
    case PSeq(a, b) => Binds(a) + Binds(b)
    case _ => {}
  }

  /** Variables whose position matters to a phase: those it reads and those it writes. */
  function Uses(p: PStmt): set<Name> {
    match p
    case PLet(_, x, rhs, body) => {x} + RhsNames(rhs) + Uses(body)
    case PIncrement(_) => {}
    case PAssign(x, e) => {x} + Names(e)
    case PPerform(c) => CallNames(c)
    case PReturn(e) => Names(e)
    case PIf(cond, a, b) => Names(cond) + Uses(a) + Uses(b)
    case PWhile(cond, body, _) => Names(cond) + Uses(body)
    case PForEach(body, _) => Uses(body)
    case PSkip => {}
    case PSeq(a, b) => Uses(a) + Uses(b)
  }

  /** Variables whose cursor it moves without writing. */
  function Moves(p: PStmt): set<Name> {
    match p
    case PLet(_, _, _, body) => Moves(body)
    case PIncrement(x) => {x}
    case PIf(_, a, b) => Moves(a) + Moves(b)
    case PWhile(_, body, _) => Moves(body)
    case PForEach(body, _) => Moves(body)
    case PSeq(a, b) => Moves(a) + Moves(b)
    case _ => {}
  }

  /** Variables whose cursor or log a phase changes. */
  function Touched(p: PStmt): set<Name> {
    Writes(p) + Moves(p)
  }

  /** Loops it counts, and loops it repeats by their count. */
  function Counts(p: PStmt): set<LoopName> {
    match p
    case PLet(_, _, _, body) => Counts(body)
    case PIf(_, a, b) => Counts(a) + Counts(b)
    case PWhile(_, body, n) => {n} + Counts(body)
    case PForEach(body, _) => Counts(body)
    case PSeq(a, b) => Counts(a) + Counts(b)
    case _ => {}
  }

  function Repeats(p: PStmt): set<LoopName> {
    match p
    case PLet(_, _, _, body) => Repeats(body)
    case PIf(_, a, b) => Repeats(a) + Repeats(b)
    case PWhile(_, body, _) => Repeats(body)
    case PForEach(body, n) => {n} + Repeats(body)
    case PSeq(a, b) => Repeats(a) + Repeats(b)
    case _ => {}
  }

  /** What two stores have in common: the logs of `logs`, the positions of `used`, the counters of
      `loops`. */
  datatype View = View(logs: set<Name>, used: set<Name>, loops: set<LoopName>)

  ghost predicate Agree(v: View, st: Store, st': Store) {
    && (forall x | x in v.logs :: At(st, x).log == At(st', x).log)
    && (forall x | x in v.used :: At(st, x) == At(st', x))
    && (forall n | n in v.loops :: SameCount(st, st', n))
    && st.remote == st'.remote && st.ret == st'.ret
  }

  predicate SameCount(st: Store, st': Store, n: LoopName) {
    (n in st.loops <==> n in st'.loops) && (n in st.loops ==> st.loops[n] == st'.loops[n])
  }

  ghost predicate OutcomesAgree(v: View, a: Outcome<Store>, b: Outcome<Store>) {
    match a
    case Done(st) => b.Done? && Agree(v, st, b.s)
    case Fault => b.Fault?
    case Timeout => b.Timeout?
  }

  /** The phase without the cursor moves of variables it does not need. */
  function Drop(keep: set<Name>, p: PStmt): PStmt {
    match p
    case PLet(bl, x, rhs, body) => PLet(bl, x, rhs, Drop(keep, body))
    case PIncrement(x) => if x in keep then p else PSkip
    case PIf(cond, a, b) => PIf(cond, Drop(keep, a), Drop(keep, b))
    case PWhile(cond, body, n) => PWhile(cond, Drop(keep, body), n)
    case PForEach(body, n) => PForEach(Drop(keep, body), n)
    case PSeq(a, b) => PSeq(Drop(keep, a), Drop(keep, b))
    case _ => p
  }

  /** What may go on next to each other: both stores agree on what the phase uses, and it only drops
      moves of variables whose position nobody looks at. */
  ghost predicate Apart(keep: set<Name>, v: View, p: PStmt) {
    Uses(p) <= v.used <= v.logs && Moves(p) * v.used <= keep && Repeats(p) <= v.loops
  }

  lemma UpdateAgrees(v: View, st: Store, st': Store, x: Name, h: Holder)
    requires Agree(v, st, st')
    ensures Agree(v, Update(st, x, h), Update(st', x, h))
  {
    forall y ensures At(Update(st, x, h), y) == (if y == x then h else At(st, y)) {}
    forall y ensures At(Update(st', x, h), y) == (if y == x then h else At(st', y)) {}
  }

  lemma MoveAgrees(keep: set<Name>, v: View, st: Store, st': Store, x: Name)
    requires Agree(v, st, st') && (x in v.used ==> x in keep)
    ensures var a := Update(st, x, Increment(At(st, x)));
            Agree(v, a, if x in keep then Update(st', x, Increment(At(st', x))) else st')
  {
    var a, b := Update(st, x, Increment(At(st, x))), Update(st', x, Increment(At(st', x)));
    forall y ensures At(a, y) == (if y == x then Increment(At(st, x)) else At(st, y)) {}
    forall y ensures At(b, y) == (if y == x then Increment(At(st', x)) else At(st', y)) {}
  }

  lemma RhsAgrees(v: View, rhs: Rhs<()>, env: Env, st: Store, st': Store)
    requires Agree(v, st, st') && RhsNames(rhs) <= v.used
    ensures var a, b := RunRhs(rhs, env, st), RunRhs(rhs, env, st');
            && (a.Some? <==> b.Some?)
            && (a.Some? ==> a.value.1 == b.value.1 && Agree(v, a.value.0, b.value.0))
  {
    match rhs
    case Pure(e) => EvalAgree(e, Gets(env, st), Gets(env, st'));
    case Remote(_, c) => CallAgrees(c, Gets(env, st), Gets(env, st'));
  }

  /** Runs of a phase and of its pruned form on stores that agree. */
  lemma {:induction false} DropRuns(keep: set<Name>, v: View, p: PStmt, env: Env, st: Store, st': Store, fuel: nat)
    requires Apart(keep, v, p) && Agree(v, st, st')
    ensures OutcomesAgree(v, Run(p, env, st, fuel), Run(Drop(keep, p), env, st', fuel))
    decreases fuel, p, 1, 0
  {
    match p
    case PLet(_, _, _, _) => DropLet(keep, v, p, env, st, st', fuel);
    case PIncrement(x) => MoveAgrees(keep, v, st, st', x);
    case PAssign(x, e) => AssignAgrees(v, x, e, env, st, st', fuel);
    case PPerform(c) => CallAgrees(c, Gets(env, st), Gets(env, st'));
    case PReturn(e) => EvalAgree(e, Gets(env, st), Gets(env, st'));
    case PIf(_, _, _) => DropIf(keep, v, p, env, st, st', fuel);
    case PWhile(_, _, n) =>
      DropWhile(keep, v, p, env, st.(loops := st.loops[n := 0]), st'.(loops := st'.loops[n := 0]), 0, fuel);
    case PForEach(_, n) =>
      assert n in v.loops && SameCount(st, st', n);
      if n in st.loops { DropTimes(keep, v, p, env, st, st', st.loops[n], fuel); }
    case PSkip =>
    case PSeq(_, _) => DropSeq(keep, v, p, env, st, st', fuel);
  }

  lemma {:induction false} DropLet(keep: set<Name>, v: View, p: PStmt, env: Env, st: Store, st': Store, fuel: nat)
    requires p.PLet? && Apart(keep, v, p) && Agree(v, st, st')
    ensures OutcomesAgree(v, Run(p, env, st, fuel), Run(Drop(keep, p), env, st', fuel))
    decreases fuel, p, 0, 0
  {
    RhsAgrees(v, p.rhs, env, st, st');
    var a, b := RunRhs(p.rhs, env, st), RunRhs(p.rhs, env, st');
    if a.Some? {
      var h := Push(At(a.value.0, p.x), a.value.1);
      assert p.x in v.used;
      UpdateAgrees(v, a.value.0, b.value.0, p.x, h);
      if InRange(h) {
        DropRuns(keep, v, p.body, env, Update(a.value.0, p.x, h), Update(b.value.0, p.x, h), fuel);
      }
    }
  }

  lemma {:induction false} DropIf(keep: set<Name>, v: View, p: PStmt, env: Env, st: Store, st': Store, fuel: nat)
    requires p.PIf? && Apart(keep, v, p) && Agree(v, st, st')
    ensures OutcomesAgree(v, Run(p, env, st, fuel), Run(Drop(keep, p), env, st', fuel))
    decreases fuel, p, 0, 0
  {
    EvalAgree(p.cond, Gets(env, st), Gets(env, st'));
    DropRuns(keep, v, p.thn, env, st, st', fuel);
    DropRuns(keep, v, p.els, env, st, st', fuel);
  }

  lemma {:induction false} DropSeq(keep: set<Name>, v: View, p: PStmt, env: Env, st: Store, st': Store, fuel: nat)
    requires p.PSeq? && Apart(keep, v, p) && Agree(v, st, st')
    ensures OutcomesAgree(v, Run(p, env, st, fuel), Run(Drop(keep, p), env, st', fuel))
    decreases fuel, p, 0, 0
  {
    DropRuns(keep, v, p.first, env, st, st', fuel);
    var r, r' := Run(p.first, env, st, fuel), Run(Drop(keep, p.first), env, st', fuel);
    if r.Done? { DropRuns(keep, v, p.rest, env, r.s, r'.s, fuel); }
  }

  lemma AssignAgrees(v: View, x: Name, e: Expr<()>, env: Env, st: Store, st': Store, fuel: nat)
    requires x in v.used && Names(e) <= v.used && Agree(v, st, st')
    ensures OutcomesAgree(v, Run(PAssign(x, e), env, st, fuel), Run(PAssign(x, e), env, st', fuel))
  {
    EvalAgree(e, Gets(env, st), Gets(env, st'));
    var i := Eval(e, Gets(env, st));
    if i.Some? { UpdateAgrees(v, st, st', x, Push(At(st, x), i.value)); }
  }

  lemma {:induction false} DropWhile(keep: set<Name>, v: View, p: PStmt, env: Env, st: Store, st': Store, i: nat, fuel: nat)
    requires p.PWhile? && Apart(keep, v, p) && Agree(v, st, st')
    ensures OutcomesAgree(v, RunWhile(p, env, st, i, fuel), RunWhile(Drop(keep, p), env, st', i, fuel))
    decreases fuel, p, 0, 0
  {
    EvalAgree(p.cond, Gets(env, st), Gets(env, st'));
    var c := Eval(p.cond, Gets(env, st));
    if c.Some? && c.value != 0 && fuel > 0 {
      var st1, st1' := st.(loops := st.loops[p.name := i + 1]), st'.(loops := st'.loops[p.name := i + 1]);
      DropRuns(keep, v, p.body, env, st1, st1', fuel - 1);
      var r, r' := Run(p.body, env, st1, fuel - 1), Run(Drop(keep, p.body), env, st1', fuel - 1);
      if r.Done? { DropWhile(keep, v, p, env, r.s, r'.s, i + 1, fuel - 1); }
    }
  }

  lemma {:induction false} DropTimes(keep: set<Name>, v: View, p: PStmt, env: Env, st: Store, st': Store, n: int, fuel: nat)
    requires p.PForEach? && Apart(keep, v, p) && Agree(v, st, st')
    ensures OutcomesAgree(v, RunTimes(p, env, st, n, fuel), RunTimes(Drop(keep, p), env, st', n, fuel))
    decreases fuel, p, 0, n
  {
    if n > 0 {
      DropRuns(keep, v, p.body, env, st, st', fuel);
      var r, r' := Run(p.body, env, st, fuel), Run(Drop(keep, p.body), env, st', fuel);
      if r.Done? { DropTimes(keep, v, p, env, r.s, r'.s, n - 1, fuel); }
    }
  }

  lemma {:induction false} DropNothing(keep: set<Name>, p: PStmt)
    requires Moves(p) <= keep
    ensures Drop(keep, p) == p
  {
    match p
    case PLet(_, _, _, body) => DropNothing(keep, body);
    case PIf(_, a, b) =>
      DropNothing(keep, a);
      DropNothing(keep, b);
    case PWhile(_, body, _) => DropNothing(keep, body);
    case PForEach(body, _) => DropNothing(keep, body);
    case PSeq(a, b) =>
      DropNothing(keep, a);
      DropNothing(keep, b);
    case _ =>
  }

  /** A phase does not see what it does not mention. */
  lemma RunAgrees(v: View, p: PStmt, env: Env, st: Store, st': Store, fuel: nat)
    requires Uses(p) <= v.used <= v.logs && Repeats(p) <= v.loops && Agree(v, st, st')
    ensures OutcomesAgree(v, Run(p, env, st, fuel), Run(p, env, st', fuel))
  {
    DropNothing(Moves(p), p);
    DropRuns(Moves(p), v, p, env, st, st', fuel);
  }

  /** A phase does not change what it does not write. */
  ghost predicate Kept(p: PStmt, st: Store, st': Store) {
    && (forall x | x !in Writes(p) :: At(st', x).log == At(st, x).log)
    && (forall n | n !in Counts(p) :: SameCount(st, st', n))
  }

  lemma {:induction false} RunKeeps(p: PStmt, env: Env, st: Store, st': Store, fuel: nat)
    requires Run(p, env, st, fuel) == Done(st')
    ensures Kept(p, st, st')
    decreases fuel, p, 1, 0
  {
    match p
    case PLet(_, x, rhs, body) =>
      var r := RunRhs(rhs, env, st).value;
      RunKeeps(body, env, Update(r.0, x, Push(At(r.0, x), r.1)), st', fuel);
    case PIf(cond, a, b) => RunKeeps(if Eval(cond, Gets(env, st)).value != 0 then a else b, env, st, st', fuel);
    case PWhile(_, _, n) => WhileKeeps(p, env, st.(loops := st.loops[n := 0]), st', 0, fuel);
    case PForEach(_, n) => TimesKeeps(p, env, st, st', st.loops[n], fuel);
    case PSeq(a, b) =>
      var mid := Run(a, env, st, fuel).s;
      RunKeeps(a, env, st, mid, fuel);
      RunKeeps(b, env, mid, st', fuel);
    case _ =>
  }

  lemma {:induction false} WhileKeeps(p: PStmt, env: Env, st: Store, st': Store, i: nat, fuel: nat)
    requires p.PWhile? && RunWhile(p, env, st, i, fuel) == Done(st')
    ensures Kept(p, st, st')
    decreases fuel, p, 0, 0
  {
    if Eval(p.cond, Gets(env, st)).value != 0 {
      var st1 := st.(loops := st.loops[p.name := i + 1]);
      var mid := Run(p.body, env, st1, fuel - 1).s;
      RunKeeps(p.body, env, st1, mid, fuel - 1);
      WhileKeeps(p, env, mid, st', i + 1, fuel - 1);
    }
  }

  lemma {:induction false} TimesKeeps(p: PStmt, env: Env, st: Store, st': Store, n: int, fuel: nat)
    requires p.PForEach? && RunTimes(p, env, st, n, fuel) == Done(st')
    ensures Kept(p, st, st')
    decreases fuel, p, 0, n
  {
    if n > 0 {
      var mid := Run(p.body, env, st, fuel).s;
      RunKeeps(p.body, env, st, mid, fuel);
      TimesKeeps(p, env, mid, st', n - 1, fuel);
    }
  }
}
