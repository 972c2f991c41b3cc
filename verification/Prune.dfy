/** Pruning a phase: dropping cursor moves it does not need and conditionals that do nothing. */
module Prune {
  import opened Syntax
  import opened Semantics
  import opened SplitPhase
  import opened PhaseRun
  import opened Frame

  // --- sequences ---

  /** The statements of a sequence, with sequences inside it opened up. */
  function Items(p: PStmt): seq<PStmt> {
    match p
    case PSkip => []
    case PSeq(a, b) => Items(a) + Items(b)
    case _ => [p]
  }

  function FromItems(items: seq<PStmt>): PStmt {
    if items == [] then PSkip else PSeq(items[0], FromItems(items[1..]))
  }

  function Collapse(p: PStmt): PStmt {
    FromItems(Items(p))
  }

  predicate IsEmpty(p: PStmt) {
    Items(p) == []
  }

  function Chain(r: Outcome<Store>, p: PStmt, env: Env, fuel: nat): Outcome<Store> {
    if r.Done? then Run(p, env, r.s, fuel) else r
  }

  lemma {:induction false} AppendRuns(a: seq<PStmt>, b: seq<PStmt>, env: Env, st: Store, fuel: nat)
    ensures Run(FromItems(a + b), env, st, fuel) == Chain(Run(FromItems(a), env, st, fuel), FromItems(b), env, fuel)
    decreases a
  {
    if a == [] {
      assert a + b == b;
    } else {
      assert (a + b)[0] == a[0] && (a + b)[1..] == a[1..] + b;
      var r := Run(a[0], env, st, fuel);
      if r.Done? { AppendRuns(a[1..], b, env, r.s, fuel); }
    }
  }

  /** Opening up sequences changes nothing. */
  lemma {:induction false} CollapseRuns(p: PStmt, env: Env, st: Store, fuel: nat)
    ensures Run(Collapse(p), env, st, fuel) == Run(p, env, st, fuel)
    decreases p
  {
    match p
    case PSkip =>
    case PSeq(a, b) =>
      CollapseRuns(a, env, st, fuel);
      var r := Run(a, env, st, fuel);
      if r.Done? { CollapseRuns(b, env, r.s, fuel); }
      AppendRuns(Items(a), Items(b), env, st, fuel);
    case _ =>
      assert FromItems([p]) == PSeq(p, FromItems([p][1..]));
      var r := Run(p, env, st, fuel);
      if r.Done? { assert Run(PSkip, env, r.s, fuel) == r; }
  }

  lemma {:induction false} AppendMentions(a: seq<PStmt>, b: seq<PStmt>)
    ensures var ab, fa, fb := FromItems(a + b), FromItems(a), FromItems(b);
            && Uses(ab) == Uses(fa) + Uses(fb) && Moves(ab) == Moves(fa) + Moves(fb) && Writes(ab) == Writes(fa) + Writes(fb) && Binds(ab) == Binds(fa) + Binds(fb)
            && Repeats(ab) == Repeats(fa) + Repeats(fb) && Counts(ab) == Counts(fa) + Counts(fb)
    decreases a
  {
    if a == [] {
      assert a + b == b;
    } else {
      assert (a + b)[0] == a[0] && (a + b)[1..] == a[1..] + b;
      AppendMentions(a[1..], b);
    }
  }

  lemma {:induction false} CollapseMentions(p: PStmt)
    ensures var c := Collapse(p);
            Uses(c) == Uses(p) && Moves(c) == Moves(p) && Writes(c) == Writes(p) && Binds(c) == Binds(p) && Repeats(c) == Repeats(p) && Counts(c) == Counts(p)
    decreases p
  {
    match p
    case PSkip =>
    case PSeq(a, b) =>
      CollapseMentions(a);
      CollapseMentions(b);
      AppendMentions(Items(a), Items(b));
    case _ => assert FromItems([p]) == PSeq(p, FromItems([p][1..]));
  }

  // --- conditionals without branches ---

  /** `gone` are the variables that only conditions of removed statements referred to, as far as
      the pass notices; `still` are the variables the rest refers to. */
  datatype Cleared = Cleared(ast: PStmt, gone: set<Name>, still: set<Name>)

  function Clear(p: PStmt): Cleared {
    match p
    case PLet(bl, x, rhs, body) =>
      var c := Clear(body);
      Cleared(PLet(bl, x, rhs, c.ast), c.gone, RhsNames(rhs) + c.still)
    case PIncrement(_) => Cleared(p, {}, {})
    case PAssign(x, e) => Cleared(p, {}, {x} + Names(e))
    case PPerform(c) => Cleared(p, {}, CallNames(c))
    case PReturn(e) => Cleared(p, {}, Names(e))
    case PIf(cond, a, b) =>
      var ca, cb := Clear(a), Clear(b);
      if IsEmpty(ca.ast) && IsEmpty(cb.ast) then Cleared(PSkip, Names(cond), {})
      else Cleared(PIf(cond, ca.ast, cb.ast), ca.gone + cb.gone, Names(cond) + ca.still + cb.still)
    case PWhile(cond, body, n) =>
      var c := Clear(body);
      Cleared(PWhile(cond, c.ast, n), c.gone, Names(cond) + c.still)
    case PForEach(body, n) =>
      var c := Clear(body);
      Cleared(PForEach(c.ast, n), c.gone, c.still)
    case PSkip => Cleared(PSkip, {}, {})
    case PSeq(a, b) =>
      var ca, cb := Clear(a), Clear(b);
      Cleared(Collapse(PSeq(ca.ast, cb.ast)), ca.gone + cb.gone, ca.still + cb.still)
  }

  /** The second outcome is the first, unless the first is a fault. */
  predicate Refines(a: Outcome<Store>, b: Outcome<Store>) {
    a.Fault? || a == b
  }

  lemma {:induction false} EmptyRuns(p: PStmt, env: Env, st: Store, fuel: nat)
    requires IsEmpty(p)
    ensures Run(p, env, st, fuel) == Done(st)
  {
    CollapseRuns(p, env, st, fuel);
  }

  lemma {:induction false} ClearRuns(p: PStmt, env: Env, st: Store, fuel: nat)
    ensures Refines(Run(p, env, st, fuel), Run(Clear(p).ast, env, st, fuel))
    decreases fuel, p, 1, 0
  {
    match p
    case PLet(_, x, rhs, body) =>
      var r := RunRhs(rhs, env, st);
      if r.Some? {
        var h := Push(At(r.value.0, x), r.value.1);
        if InRange(h) { ClearRuns(body, env, Update(r.value.0, x, h), fuel); }
      }
    case PIf(_, _, _) => ClearIf(p, env, st, fuel);
    case PWhile(_, _, n) => ClearWhile(p, env, st.(loops := st.loops[n := 0]), 0, fuel);
    case PForEach(_, n) =>
      if n in st.loops { ClearTimes(p, env, st, st.loops[n], fuel); }
    case PSeq(_, _) => ClearSeq(p, env, st, fuel);
    case _ =>
  }

  lemma {:induction false} ClearIf(p: PStmt, env: Env, st: Store, fuel: nat)
    requires p.PIf?
    ensures Refines(Run(p, env, st, fuel), Run(Clear(p).ast, env, st, fuel))
    decreases fuel, p, 0, 0
  {
    var ca, cb := Clear(p.thn).ast, Clear(p.els).ast;
    ClearRuns(p.thn, env, st, fuel);
    ClearRuns(p.els, env, st, fuel);
    if IsEmpty(ca) && IsEmpty(cb) {
      EmptyRuns(ca, env, st, fuel);
      EmptyRuns(cb, env, st, fuel);
    }
  }

  lemma {:induction false} ClearSeq(p: PStmt, env: Env, st: Store, fuel: nat)
    requires p.PSeq?
    ensures Refines(Run(p, env, st, fuel), Run(Clear(p).ast, env, st, fuel))
    decreases fuel, p, 0, 0
  {
    ClearRuns(p.first, env, st, fuel);
    var r := Run(p.first, env, st, fuel);
    if r.Done? { ClearRuns(p.rest, env, r.s, fuel); }
    CollapseRuns(PSeq(Clear(p.first).ast, Clear(p.rest).ast), env, st, fuel);
  }

  lemma {:induction false} ClearWhile(p: PStmt, env: Env, st: Store, i: nat, fuel: nat)
    requires p.PWhile?
    ensures Refines(RunWhile(p, env, st, i, fuel), RunWhile(Clear(p).ast, env, st, i, fuel))
    decreases fuel, p, 0, 0
  {
    var c := Eval(p.cond, Gets(env, st));
    if c.Some? && c.value != 0 && fuel > 0 {
      var st1 := st.(loops := st.loops[p.name := i + 1]);
      ClearRuns(p.body, env, st1, fuel - 1);
      var r := Run(p.body, env, st1, fuel - 1);
      if r.Done? { ClearWhile(p, env, r.s, i + 1, fuel - 1); }
    }
  }

  lemma {:induction false} ClearTimes(p: PStmt, env: Env, st: Store, n: int, fuel: nat)
    requires p.PForEach?
    ensures Refines(RunTimes(p, env, st, n, fuel), RunTimes(Clear(p).ast, env, st, n, fuel))
    decreases fuel, p, 0, n
  {
    if n > 0 {
      ClearRuns(p.body, env, st, fuel);
      var r := Run(p.body, env, st, fuel);
      if r.Done? { ClearTimes(p, env, r.s, n - 1, fuel); }
    }
  }

  /** What is left refers to `still`, and to what it binds. */
  lemma {:induction false} ClearMentions(p: PStmt)
    ensures var c := Clear(p);
            && Uses(c.ast) <= c.still + Binds(c.ast) && c.still <= Uses(c.ast) <= Uses(p)
            && Moves(c.ast) <= Moves(p) && Writes(c.ast) == Writes(p) && Binds(c.ast) == Binds(p)
            && Repeats(c.ast) == Repeats(p) && Counts(c.ast) == Counts(p)
  {
    match p
    case PLet(_, _, _, body) => ClearMentions(body);
    case PIf(_, a, b) =>
      ClearMentions(a);
      ClearMentions(b);
      CollapseMentions(Clear(a).ast);
      CollapseMentions(Clear(b).ast);
    case PWhile(_, body, _) => ClearMentions(body);
    case PForEach(body, _) => ClearMentions(body);
    case PSeq(a, b) =>
      ClearMentions(a);
      ClearMentions(b);
      CollapseMentions(PSeq(Clear(a).ast, Clear(b).ast));
    case _ =>
  }

  // --- phases ---

  const BUILTINS: set<Name> := {True, False}

  /** The variables a phase refers to outside the scope of its own bindings of them. */
  function Required(p: PStmt, provided: set<Name>): set<Name>
    decreases p
  {
    match p
    case PLet(_, x, rhs, body) => (RhsNames(rhs) - provided - BUILTINS) + Required(body, provided + {x})
    case PIncrement(_) => {}
    case PAssign(x, e) => {x} + Names(e) - provided - BUILTINS
    case PPerform(c) => CallNames(c) - provided - BUILTINS
    case PReturn(e) => Names(e) - provided - BUILTINS
    case PIf(cond, a, b) => (Names(cond) - provided - BUILTINS) + Required(a, provided) + Required(b, provided)
    case PWhile(cond, body, _) => (Names(cond) - provided - BUILTINS) + Required(body, provided)
    case PForEach(body, _) => Required(body, provided)
    case PSkip => {}
    case PSeq(a, b) => Required(a, provided) + Required(b, provided)
  }

  datatype Phase = Phase(ast: PStmt, needs: set<Name>)

  /** Unneeded moves go, then empty conditionals, then what their conditions alone needed. */
  function Prune(p: PStmt): Phase {
    var needs := Required(p, {});
    var c := Clear(Drop(needs, p));
    var left := needs - (c.gone - c.still);
    Phase(Drop(left, c.ast), left)
  }

  /** No variable is both bound and replayed by the phase. */
  predicate Separate(p: PStmt) {
    Moves(p) !! Binds(p) + BUILTINS
  }

  lemma {:induction false} RequiredCovers(p: PStmt, provided: set<Name>)
    ensures Required(p, provided) <= Uses(p) <= Required(p, provided) + provided + Binds(p) + BUILTINS
    decreases p
  {
    match p
    case PLet(_, x, _, body) => RequiredCovers(body, provided + {x});
    case PIf(_, a, b) =>
      RequiredCovers(a, provided);
      RequiredCovers(b, provided);
    case PWhile(_, body, _) => RequiredCovers(body, provided);
    case PForEach(body, _) => RequiredCovers(body, provided);
    case PSeq(a, b) =>
      RequiredCovers(a, provided);
      RequiredCovers(b, provided);
    case _ =>
  }

  lemma {:induction false} DropMentions(keep: set<Name>, p: PStmt)
    ensures var q := Drop(keep, p);
            && Uses(q) == Uses(p) && Writes(q) == Writes(p) && Binds(q) == Binds(p) && Repeats(q) == Repeats(p) && Counts(q) == Counts(p)
            && Moves(q) == Moves(p) * keep
    decreases p
  {
    match p
    case PLet(_, _, _, body) => DropMentions(keep, body);
    case PIf(_, a, b) =>
      DropMentions(keep, a);
      DropMentions(keep, b);
    case PWhile(_, body, _) => DropMentions(keep, body);
    case PForEach(body, _) => DropMentions(keep, body);
    case PSeq(a, b) =>
      DropMentions(keep, a);
      DropMentions(keep, b);
    case _ =>
  }

  /** After pruning, every variable a phase mentions is required by it or bound in it, and it still
      binds, counts and repeats what it did. */
  lemma PruneMentions(p: PStmt)
    requires Separate(p)
    ensures var q := Prune(p);
            && Uses(q.ast) + Moves(q.ast) <= q.needs + Binds(p) + BUILTINS && Moves(q.ast) <= q.needs
            && Uses(q.ast) <= Uses(p) && Writes(q.ast) == Writes(p) && Binds(q.ast) == Binds(p)
            && Repeats(q.ast) == Repeats(p) && Counts(q.ast) == Counts(p)
            && q.needs <= Required(p, {})
  {
    var needs := Required(p, {});
    RequiredCovers(p, {});
    var d := Drop(needs, p);
    DropMentions(needs, p);
    var c := Clear(d);
    ClearMentions(d);
    DropMentions(needs - (c.gone - c.still), c.ast);
  }

  /** The stores have the same logs, counters, remote histories and result. */
  ghost predicate SameEffect(st: Store, st': Store) {
    && (forall x :: At(st, x).log == At(st', x).log)
    && (forall n :: SameCount(st, st', n))
    && st.remote == st'.remote && st.ret == st'.ret
  }

  lemma DropKeepsEffect(keep: set<Name>, p: PStmt, env: Env, st: Store, fuel: nat)
    requires Moves(p) * Uses(p) <= keep
    ensures var a, b := Run(p, env, st, fuel), Run(Drop(keep, p), env, st, fuel);
            && (a.Done? ==> b.Done? && SameEffect(a.s, b.s))
            && (a.Timeout? ==> b.Timeout?)
  {
    var a, b := Run(p, env, st, fuel), Run(Drop(keep, p), env, st, fuel);
    DropRuns(keep, View(Uses(p), Uses(p), Repeats(p)), p, env, st, st, fuel);
    if a.Done? {
      forall x ensures At(a.s, x).log == At(b.s, x).log {
        DropRuns(keep, View(Uses(p) + {x}, Uses(p), Repeats(p)), p, env, st, st, fuel);
      }
      forall n ensures SameCount(a.s, b.s, n) {
        DropRuns(keep, View(Uses(p), Uses(p), Repeats(p) + {n}), p, env, st, st, fuel);
      }
    }
  }

  lemma SameEffectTrans(a: Store, b: Store, c: Store)
    requires SameEffect(a, b) && SameEffect(b, c)
    ensures SameEffect(a, c)
  {
    forall n ensures SameCount(a, c, n) {
      assert SameCount(a, b, n) && SameCount(b, c, n);
    }
  }

  /** What pruning drops is not used. */
  lemma DropsAreUnused(p: PStmt)
    requires Separate(p)
    ensures var needs := Required(p, {});
            var d := Drop(needs, p);
            var c := Clear(d);
            Moves(p) * Uses(p) <= needs && Moves(c.ast) * Uses(c.ast) <= needs - (c.gone - c.still)
  {
    RequiredCovers(p, {});
    DropMentions(Required(p, {}), p);
    ClearMentions(Drop(Required(p, {}), p));
  }

  /** Pruning preserves what a phase does: whenever the phase ends, so does the pruned one, with the
      same logs, counters, calls and result. */
  lemma PruningPreservesPhase(p: PStmt, env: Env, st: Store, fuel: nat)
    requires Separate(p)
    ensures var a, b := Run(p, env, st, fuel), Run(Prune(p).ast, env, st, fuel);
            && (a.Done? ==> b.Done? && SameEffect(a.s, b.s))
            && (a.Timeout? ==> b.Timeout?)
  {
    DropsAreUnused(p);
    var needs := Required(p, {});
    var d := Drop(needs, p);
    var c := Clear(d);
    DropKeepsEffect(needs, p, env, st, fuel);
    ClearRuns(d, env, st, fuel);
    DropKeepsEffect(needs - (c.gone - c.still), c.ast, env, st, fuel);
    if Run(p, env, st, fuel).Done? {
      SameEffectTrans(Run(p, env, st, fuel).s, Run(d, env, st, fuel).s, Run(Prune(p).ast, env, st, fuel).s);
    }
  }
}
