/** The whole system: compiled, split, pruned, and each phase run where its data is. */
module Distributed {
  import opened Labels
  import opened Syntax
  import opened Semantics
  import opened SplitPhase
  import opened PhaseRun
  import opened WellLabelled
  import opened Phases
  import opened Frame
  import opened Prune
  import opened Shipping
  import opened Recollapse
  import opened RecollapseFlat
  import opened RecollapsePruned
  import opened Returns
  import opened PhaseReturning
  import opened PiecesReturning
  import E = EndToEnd
  import F = Flatten
  import FC = FlattenCorrect
  import D = DesugarCorrect
  import Flows

  /** What the phase of `l` does with a variable, by the label that binds it. */
  predicate NameOk(sig: Sig, env: Env, l: Label, p: PStmt, x: Name) {
    && (x in Binds(p) ==> sig.birth(x) == l && !IsInput(env, x))
    && (x in Moves(p) ==> sig.birth(x) != l && !IsInput(env, x))
    && (x in Writes(p) ==> sig.birth(x) >= l && !IsInput(env, x))
  }

  predicate LoopOk(sig: Sig, l: Label, p: PStmt, n: LoopName) {
    (n in Repeats(p) ==> sig.loop(n) > l) && (n in Counts(p) ==> sig.loop(n) == l)
  }

  ghost predicate NamesOk(sig: Sig, env: Env, l: Label, p: PStmt) {
    (forall x :: NameOk(sig, env, l, p, x)) && forall n :: LoopOk(sig, l, p, n)
  }

  /** Nothing in scope is born weaker than it is labelled. */
  ghost predicate ScopeBorn(sig: Sig, scope: set<Name>) {
    forall x | x in scope :: sig.birth(x) >= sig.level(x)
  }

  lemma NamesJoin(sig: Sig, env: Env, l: Label, a: PStmt, b: PStmt, cond: Expr<()>)
    requires NamesOk(sig, env, l, a) && NamesOk(sig, env, l, b)
    ensures NamesOk(sig, env, l, PIf(cond, a, b)) && NamesOk(sig, env, l, PSeq(a, b))
  {
    forall x ensures NameOk(sig, env, l, PIf(cond, a, b), x) && NameOk(sig, env, l, PSeq(a, b), x) {
      assert NameOk(sig, env, l, a, x) && NameOk(sig, env, l, b, x);
    }
    forall n ensures LoopOk(sig, l, PIf(cond, a, b), n) && LoopOk(sig, l, PSeq(a, b), n) {
      assert LoopOk(sig, l, a, n) && LoopOk(sig, l, b, n);
    }
  }

  lemma NamesWrap(sig: Sig, env: Env, l: Label, p: PStmt, q: PStmt)
    requires NamesOk(sig, env, l, p)
    requires match q
             case PLet(_, x, _, body) => body == p && sig.birth(x) == l && !IsInput(env, x)
             case PWhile(_, body, n) => body == p && sig.loop(n) == l
             case PForEach(body, n) => body == p && sig.loop(n) > l
             case _ => false
    ensures NamesOk(sig, env, l, q)
  {
    forall x ensures NameOk(sig, env, l, q, x) {
      assert NameOk(sig, env, l, p, x);
    }
    forall n ensures LoopOk(sig, l, q, n) {
      assert LoopOk(sig, l, p, n);
    }
  }

  lemma {:induction false} ProjectLetNames(sig: Sig, env: Env, scope: set<Name>, pc: Label, l: Label, s: Stmt<Label>)
    requires s.Let? && StmtOk(sig, env, scope, pc, s) && ScopeBorn(sig, scope)
    ensures NamesOk(sig, env, l, Project(l, s))
    decreases s, 0
  {
    ProjectNames(sig, env, scope + {s.x}, pc, l, s.body);
    if s.l == l {
      NamesWrap(sig, env, l, Project(l, s.body), Project(l, s));
    } else {
      assert NamesOk(sig, env, l, PIncrement(s.x));
      NamesJoin(sig, env, l, PIncrement(s.x), Project(l, s.body), Const(0));
    }
  }

  lemma {:induction false} ProjectNames(sig: Sig, env: Env, scope: set<Name>, pc: Label, l: Label, s: Stmt<Label>)
    requires StmtOk(sig, env, scope, pc, s) && ScopeBorn(sig, scope)
    ensures NamesOk(sig, env, l, Project(l, s))
    decreases s, 1
  {
    match s
    case Let(_, _, _, _, _) => ProjectLetNames(sig, env, scope, pc, l, s);
    case If(_, _, _, _) => ProjectIfNames(sig, env, scope, pc, l, s);
    case While(k, _, body, _) =>
      ProjectNames(sig, env, scope, k, l, body);
      if FlowsTo(k, l) { NamesWrap(sig, env, l, Project(l, body), Project(l, s)); }
    case Seq(_, a, b) =>
      ProjectNames(sig, env, scope, pc, l, a);
      ProjectNames(sig, env, scope, pc, l, b);
      NamesJoin(sig, env, l, Project(l, a), Project(l, b), Const(0));
    case _ =>
  }

  lemma {:induction false} ProjectIfNames(sig: Sig, env: Env, scope: set<Name>, pc: Label, l: Label, s: Stmt<Label>)
    requires s.If? && StmtOk(sig, env, scope, pc, s) && ScopeBorn(sig, scope)
    ensures NamesOk(sig, env, l, Project(l, s))
    decreases s, 0
  {
    if FlowsTo(s.l, l) {
      ProjectNames(sig, env, scope, s.l, l, s.thn);
      ProjectNames(sig, env, scope, s.l, l, s.els);
      NamesJoin(sig, env, l, Project(l, s.thn), Project(l, s.els), StripExpr(s.cond));
    }
  }

  /** A projection moves no cursor of a variable it binds, and it touches no stronger variable or
      loop. */
  lemma ProjectIs(sig: Sig, env: Env, l: Label, s: Stmt<Label>)
    requires StmtOk(sig, env, {}, TOP, s)
    ensures var p := Project(l, s);
            && Separate(p) && Writes(p) !! BUILTINS
            && (forall x | x in Binds(p) :: sig.birth(x) == l && !IsInput(env, x)) && (forall x | x in Writes(p) :: sig.birth(x) >= l)
            && (forall n | n in Repeats(p) :: sig.loop(n) > l) && (forall n | n in Counts(p) :: sig.loop(n) == l)
  {
    ProjectNames(sig, env, {}, TOP, l, s);
    var p := Project(l, s);
    forall x | x in Binds(p) + Moves(p) + Writes(p)
      ensures !IsInput(env, x) && (x in Binds(p) ==> sig.birth(x) == l) && (x in Moves(p) ==> sig.birth(x) != l) && (x in Writes(p) ==> sig.birth(x) >= l)
    {
      assert NameOk(sig, env, l, p, x);
    }
    forall n | n in Repeats(p) + Counts(p) ensures (n in Repeats(p) ==> sig.loop(n) > l) && (n in Counts(p) ==> sig.loop(n) == l) {
      assert LoopOk(sig, l, p, n);
    }
    assert IsInput(env, True) && IsInput(env, False);
  }

  lemma {:induction false} StripNames(e: Expr<Label>)
    ensures Names(StripExpr(e)) == Names(e)
  {
    if e.Bin? {
      StripNames(e.left);
      StripNames(e.right);
    }
  }

  lemma {:induction false} StripRefNames(rs: seq<Ref<Label>>)
    ensures RefNames(StripRefs(rs)) == RefNames(rs)
  {
    if rs != [] { StripRefNames(rs[1..]); }
  }

  /** Names are arguments or in scope. */
  ghost predicate Known(env: Env, scope: set<Name>, xs: set<Name>) {
    forall x | x in xs :: IsInput(env, x) || x in scope
  }

  lemma {:induction false} ExprKnown(sig: Sig, env: Env, scope: set<Name>, e: Expr<Label>)
    requires ExprOk(sig, env, scope, e)
    ensures Known(env, scope, Names(StripExpr(e)))
  {
    StripNames(e);
    if e.Bin? {
      ExprKnown(sig, env, scope, e.left);
      ExprKnown(sig, env, scope, e.right);
      StripNames(e.left);
      StripNames(e.right);
    }
  }

  lemma {:induction false} RefsKnown(sig: Sig, env: Env, scope: set<Name>, rs: seq<Ref<Label>>)
    requires RefsOk(sig, env, scope, rs)
    ensures Known(env, scope, RefNames(StripRefs(rs)))
  {
    StripRefNames(rs);
    if rs != [] {
      RefsKnown(sig, env, scope, rs[1..]);
      StripRefNames(rs[1..]);
    }
  }

  /** The variables in scope that the phase of `l` has bound itself. */
  ghost predicate ProvidedIs(sig: Sig, scope: set<Name>, l: Label, provided: set<Name>) {
    provided <= scope && forall x | x in scope && sig.birth(x) == l :: x in provided
  }

  /** A phase never needs from earlier phases what it binds itself. */
  lemma {:induction false} RequiredFromOthers(sig: Sig, env: Env, scope: set<Name>, pc: Label, l: Label, s: Stmt<Label>, provided: set<Name>)
    requires StmtOk(sig, env, scope, pc, s) && ProvidedIs(sig, scope, l, provided)
    ensures forall x | x in Required(Project(l, s), provided) :: IsInput(env, x) || sig.birth(x) != l
    decreases s
  {
    match s
    case Let(k, _, x, rhs, body) =>
      match rhs {
        case Pure(e) => ExprKnown(sig, env, scope, e);
        case Remote(_, c) => RefsKnown(sig, env, scope, c.args);
      }
      RequiredFromOthers(sig, env, scope + {x}, pc, l, body, if k == l then provided + {x} else provided);
    case Assign(_, _, e) => ExprKnown(sig, env, scope, e);
    case Perform(_, c) => RefsKnown(sig, env, scope, c.args);
    case Return(_, e) => ExprKnown(sig, env, scope, e);
    case If(k, cond, a, b) =>
      ExprKnown(sig, env, scope, cond);
      RequiredFromOthers(sig, env, scope, k, l, a, provided);
      RequiredFromOthers(sig, env, scope, k, l, b, provided);
    case While(k, cond, body, _) =>
      ExprKnown(sig, env, scope, cond);
      RequiredFromOthers(sig, env, scope, k, l, body, provided);
    case Skip(_) =>
    case Seq(_, a, b) =>
      RequiredFromOthers(sig, env, scope, pc, l, a, provided);
      RequiredFromOthers(sig, env, scope, pc, l, b, provided);
  }

  // --- the pieces of a program ---

  /** The generated names that belong to the phase alone: it binds them and nobody needs them. */
  function Owned(p: PStmt, needed: set<Name>): set<Name> {
    set x | x in Binds(p) && x.Anorm? && x !in needed
  }

  /** The phase of `l` as it is shipped, when later phases need `later`: pruned and recollapsed. */
  function PieceOf(l: Label, s: Stmt<Label>, later: set<Name>, away: bool): Piece {
    var p := Project(l, s);
    var q := Prune.Prune(p);
    Piece(PutBack(Owned(p, q.needs + later), map[], q.ast), q.needs, Binds(p), Repeats(p), Counts(p), away)
  }

  /** One piece for each label; `away` says which labels run remotely. */
  function PiecesOf(labels: seq<Label>, s: Stmt<Label>, away: Label -> bool): seq<Piece> {
    if labels == [] then []
    else
      var rest := PiecesOf(labels[1..], s, away);
      [PieceOf(labels[0], s, Needed(rest), away(labels[0]))] + rest
  }

  lemma PiecesAre(labels: seq<Label>, s: Stmt<Label>, away: Label -> bool)
    requires labels != []
    ensures var ps := PiecesOf(labels, s, away);
            ps != [] && ps[1..] == PiecesOf(labels[1..], s, away) && ps[0] == PieceOf(labels[0], s, Needed(ps[1..]), away(labels[0]))
  {
  }

  lemma {:induction false} GivenBelow(sig: Sig, env: Env, labels: seq<Label>, s: Stmt<Label>, away: Label -> bool, l: Label)
    requires StmtOk(sig, env, {}, TOP, s) && forall k | k in labels :: k < l
    ensures forall x | x in Given(PiecesOf(labels, s, away)) :: sig.birth(x) < l
    ensures forall n | n in GivenLoops(PiecesOf(labels, s, away)) :: sig.loop(n) < l
    decreases labels
  {
    if labels != [] {
      var ps := PiecesOf(labels, s, away);
      PiecesAre(labels, s, away);
      ProjectIs(sig, env, labels[0], s);
      forall k | k in labels[1..] ensures k < l { assert k in labels; }
      GivenBelow(sig, env, labels[1..], s, away, l);
      assert labels[0] in labels;
      assert Given(ps) == Binds(Project(labels[0], s)) + Given(ps[1..]);
      assert GivenLoops(ps) == Counts(Project(labels[0], s)) + GivenLoops(ps[1..]);
    }
  }

  lemma RestBelow(labels: seq<Label>)
    requires labels != [] && Descending(labels)
    ensures (forall k | k in labels[1..] :: k < labels[0]) && Descending(labels[1..])
  {
    forall k | k in labels[1..] ensures k < labels[0] {
      var i :| 0 <= i < |labels[1..]| && labels[1..][i] == k;
      assert labels[i + 1] == k;
    }
  }

  /** What a piece mentions, pruned only or recollapsed as well. */
  lemma PieceMentions(sig: Sig, env: Env, l: Label, s: Stmt<Label>, later: set<Name>, away: bool)
    requires StmtOk(sig, env, {}, TOP, s)
    ensures var p := Project(l, s);
            var q, r := Prune.Prune(p).ast, PieceOf(l, s, later, away);
            && Uses(q) + Moves(q) + Uses(r.ast) + Moves(r.ast) <= r.needs + r.gives + BUILTINS && r.needs !! r.gives
            && Writes(r.ast) <= Writes(p) && Repeats(q) == Repeats(r.ast) == r.needsLoops && Counts(r.ast) == r.givesLoops
            && r.needsLoops !! r.givesLoops
  {
    var p := Project(l, s);
    var q := Prune.Prune(p);
    ProjectIs(sig, env, l, s);
    RequiredFromOthers(sig, env, {}, TOP, l, s, {});
    PruneMentions(p);
    PutBackMentions(Owned(p, q.needs + later), map[], q.ast, Uses(q.ast));
  }

  /** The phases of a well-labelled program fit together. */
  lemma {:induction false} PiecesFit(sig: Sig, env: Env, labels: seq<Label>, s: Stmt<Label>, away: Label -> bool)
    requires StmtOk(sig, env, {}, TOP, s) && Descending(labels)
    ensures Fits(PiecesOf(labels, s, away))
    decreases labels
  {
    if labels != [] {
      var l, rest := labels[0], labels[1..];
      PiecesAre(labels, s, away);
      ProjectIs(sig, env, l, s);
      PieceMentions(sig, env, l, s, Needed(PiecesOf(rest, s, away)), away(l));
      RestBelow(labels);
      GivenBelow(sig, env, rest, s, away, l);
      PiecesFit(sig, env, rest, s, away);
    }
  }

  // --- the pieces on one store ---

  /** The stores agree, but for the logs of `gone`. */
  ghost predicate SameBut(gone: set<Name>, st: Store, st': Store) {
    && (forall x | x !in gone :: At(st, x).log == At(st', x).log)
    && (forall n :: SameCount(st, st', n))
    && st.remote == st'.remote && st.ret == st'.ret
  }

  lemma SameButAgrees(gone: set<Name>, v: View, st: Store, st': Store)
    requires SameBut(gone, st, st') && v.logs !! gone && v.used !! gone
    ensures Agree(v, BeginPhase(st), BeginPhase(st'))
  {
    forall x | x !in gone ensures At(BeginPhase(st), x) == At(BeginPhase(st'), x) {
      BeginAt(st, x);
      BeginAt(st', x);
    }
    forall n ensures SameCount(BeginPhase(st), BeginPhase(st'), n) {
      assert SameCount(st, st', n);
    }
  }

  /** The same phase on stores that differ in variables it does not mention. */
  lemma SameButRuns(gone: set<Name>, p: PStmt, env: Env, st: Store, st': Store, fuel: nat)
    requires SameBut(gone, st, st') && Uses(p) !! gone && Run(p, env, BeginPhase(st), fuel).Done?
    ensures Run(p, env, BeginPhase(st'), fuel).Done?
    ensures SameBut(gone, Run(p, env, BeginPhase(st), fuel).s, Run(p, env, BeginPhase(st'), fuel).s)
  {
    var b, b' := BeginPhase(st), BeginPhase(st');
    var a, a' := Run(p, env, b, fuel), Run(p, env, b', fuel);
    var v := View(Uses(p), Uses(p), Repeats(p));
    SameButAgrees(gone, v, st, st');
    RunAgrees(v, p, env, b, b', fuel);
    forall x | x !in gone ensures At(a.s, x).log == At(a'.s, x).log {
      var vx := View(Uses(p) + {x}, Uses(p), Repeats(p));
      SameButAgrees(gone, vx, st, st');
      RunAgrees(vx, p, env, b, b', fuel);
    }
    forall n ensures SameCount(a.s, a'.s, n) {
      var vn := View(Uses(p), Uses(p), Repeats(p) + {n});
      SameButAgrees(gone, vn, st, st');
      RunAgrees(vn, p, env, b, b', fuel);
    }
  }

  /** What running the pieces asks of a labelled program beyond being well labelled: generated names
      are bound right in front of their use, as flattening leaves them. */
  ghost predicate Flat(s: Stmt<Label>) {
    InFront({}, E.Plain(s))
  }

  lemma {:induction false} OwnedIs(sig: Sig, env: Env, scope: set<Name>, pc: Label, l: Label, cs: set<Name>, s: Stmt<Label>)
    requires StmtOk(sig, env, scope, pc, s) && forall x | x in cs :: sig.birth(x) == l
    ensures OwnedBy(l, cs, s)
    decreases s
  {
    match s
    case Let(_, _, x, _, body) => OwnedIs(sig, env, scope + {x}, pc, l, cs, body);
    case If(k, _, a, b) =>
      OwnedIs(sig, env, scope, k, l, cs, a);
      OwnedIs(sig, env, scope, k, l, cs, b);
    case While(k, _, body, _) => OwnedIs(sig, env, scope, k, l, cs, body);
    case Seq(_, a, b) =>
      OwnedIs(sig, env, scope, pc, l, cs, a);
      OwnedIs(sig, env, scope, pc, l, cs, b);
    case _ =>
  }

  /** A piece can be recollapsed. */
  lemma PieceSafe(sig: Sig, env: Env, l: Label, s: Stmt<Label>, needed: set<Name>)
    requires StmtOk(sig, env, {}, TOP, s) && Flat(s)
    ensures Safe(Owned(Project(l, s), needed), map[], {}, Prune.Prune(Project(l, s)).ast)
  {
    var p := Project(l, s);
    var cs := Owned(p, needed);
    ProjectIs(sig, env, l, s);
    OwnedIs(sig, env, {}, TOP, l, cs, s);
    ProjectSafe(cs, map[], {}, {}, l, s);
    PruneSafe(cs, p);
  }

  /** A piece on a store that lacks some of what is no longer needed. */
  lemma PieceRuns(sig: Sig, env: Env, l: Label, s: Stmt<Label>, later: set<Name>, away: bool, gone: set<Name>, st: Store, st': Store, fuel: nat)
    requires StmtOk(sig, env, {}, TOP, s) && Flat(s) && SameBut(gone, st, st')
    requires var r := PieceOf(l, s, later, away);
             gone !! r.needs + r.gives + BUILTINS && forall x | x in r.gives :: At(st, x).log == []
    requires Run(Project(l, s), env, BeginPhase(st), fuel).Done?
    ensures var p, r := Project(l, s), PieceOf(l, s, later, away);
            var a, b := Run(p, env, BeginPhase(st), fuel), Run(r.ast, env, BeginPhase(st'), fuel);
            b.Done? && SameBut(gone + Owned(p, r.needs + later), a.s, b.s)
  {
    var p := Project(l, s);
    var q := Prune.Prune(p);
    var cs := Owned(p, q.needs + later);
    ProjectIs(sig, env, l, s);
    PieceMentions(sig, env, l, s, later, away);
    PruningPreservesPhase(p, env, BeginPhase(st), fuel);
    SameButRuns(gone, q.ast, env, st, st', fuel);
    PieceSafe(sig, env, l, s, q.needs + later);
    forall x | x in cs ensures Input(env, x).None? && At(st', x).log == [] {
      assert x !in gone;
    }
    RecollapsePreservesPhase(cs, q.ast, env, st', fuel);
    SameButChain(gone, cs, Run(p, env, BeginPhase(st), fuel).s, Run(q.ast, env, BeginPhase(st), fuel).s,
                 Run(q.ast, env, BeginPhase(st'), fuel).s, Run(PutBack(cs, map[], q.ast), env, BeginPhase(st'), fuel).s);
  }

  lemma SameButChain(gone: set<Name>, cs: set<Name>, a: Store, b: Store, c: Store, d: Store)
    requires SameEffect(a, b) && SameBut(gone, b, c) && Alike(cs, c, d)
    ensures SameBut(gone + cs, a, d)
  {
    forall n ensures SameCount(a, d, n) {
      assert SameCount(a, b, n) && SameCount(b, c, n);
    }
  }

  /** Nothing still to be bound has been written. */
  ghost predicate Fresh(ps: seq<Piece>, st: Store) {
    forall x | x in Given(ps) :: At(st, x).log == []
  }

  lemma FreshNext(sig: Sig, env: Env, labels: seq<Label>, s: Stmt<Label>, away: Label -> bool, st: Store, st': Store, fuel: nat)
    requires StmtOk(sig, env, {}, TOP, s) && labels != [] && Descending(labels)
    requires Fresh(PiecesOf(labels, s, away), st) && Run(Project(labels[0], s), env, BeginPhase(st), fuel) == Done(st')
    ensures Fresh(PiecesOf(labels[1..], s, away), st')
  {
    var l := labels[0];
    PiecesAre(labels, s, away);
    RestBelow(labels);
    GivenBelow(sig, env, labels[1..], s, away, l);
    ProjectIs(sig, env, l, s);
    RunKeeps(Project(l, s), env, BeginPhase(st), st', fuel);
    forall x | x in Given(PiecesOf(labels[1..], s, away)) ensures At(st', x).log == [] {
      BeginAt(st, x);
      assert x in Given(PiecesOf(labels, s, away)) && x !in Writes(Project(l, s));
    }
  }

  /** What disappears in a phase is not mentioned by later ones. */
  lemma GoneNext(sig: Sig, env: Env, labels: seq<Label>, s: Stmt<Label>, away: Label -> bool, gone: set<Name>)
    requires StmtOk(sig, env, {}, TOP, s) && labels != [] && Descending(labels)
    requires var ps := PiecesOf(labels, s, away); gone !! Needed(ps) + Given(ps) + BUILTINS
    ensures var rest := PiecesOf(labels[1..], s, away);
            var r := PieceOf(labels[0], s, Needed(rest), away(labels[0]));
            gone + Owned(Project(labels[0], s), r.needs + Needed(rest)) !! Needed(rest) + Given(rest) + BUILTINS
  {
    PiecesAre(labels, s, away);
    RestBelow(labels);
    GivenBelow(sig, env, labels[1..], s, away, labels[0]);
    ProjectIs(sig, env, labels[0], s);
  }

  /** Running the pieces one after the other does what running the phases does, but for generated
      names. */
  lemma {:induction false} PiecesTogether(sig: Sig, env: Env, labels: seq<Label>, s: Stmt<Label>, away: Label -> bool, gone: set<Name>, st: Store, st': Store, fuel: nat)
    requires StmtOk(sig, env, {}, TOP, s) && Flat(s) && Descending(labels)
    requires var ps := PiecesOf(labels, s, away); Fresh(ps, st) && gone !! Needed(ps) + Given(ps) + BUILTINS
    requires SameBut(gone, st, st') && RunPhases(labels, s, env, st, fuel).Done?
    ensures var a, b := RunPhases(labels, s, env, st, fuel), RunTogether(PiecesOf(labels, s, away), env, st', fuel);
            b.Done? && a.s.remote == b.s.remote && a.s.ret == b.s.ret
    decreases labels
  {
    if labels != [] {
      var l, rest := labels[0], PiecesOf(labels[1..], s, away);
      var r := PieceOf(l, s, Needed(rest), away(l));
      PiecesAre(labels, s, away);
      PieceRuns(sig, env, l, s, Needed(rest), away(l), gone, st, st', fuel);
      var a, b := Run(Project(l, s), env, BeginPhase(st), fuel).s, Run(r.ast, env, BeginPhase(st'), fuel).s;
      FreshNext(sig, env, labels, s, away, st, a, fuel);
      GoneNext(sig, env, labels, s, away, gone);
      RestBelow(labels);
      PiecesTogether(sig, env, labels[1..], s, away, gone + Owned(Project(l, s), r.needs + Needed(rest)), a, b, fuel);
    }
  }

  lemma LaunchServes(ps: seq<Piece>, remote: map<Label, seq<Event>>)
    ensures Serves(ps, Launch(remote), Launch(remote)) && SameBut({}, Launch(remote), Launch(remote))
  {
  }

  /** Running a split program in pieces, each pruned, recollapsed and on its own store, ends with the
      calls and the result of running the program, both past returns. */
  lemma DistributionRuns(sig: Sig, env: Env, labels: seq<Label>, s: Stmt<Label>, away: Label -> bool, remote: map<Label, seq<Event>>, fuel: nat)
    requires Splittable(sig, env, labels, s) && Flat(s) && ShipsBack(PiecesOf(labels, s, away))
    requires Exec(s, env, Start(remote), fuel).Done?
    ensures RunShipped(PiecesOf(labels, s, away), env, Launch(remote), fuel).Done?
    ensures SameAnswer(Exec(s, env, Start(remote), fuel).s, RunShipped(PiecesOf(labels, s, away), env, Launch(remote), fuel).s)
  {
    var ps := PiecesOf(labels, s, away);
    SplittingRuns(sig, env, labels, s, remote, fuel);
    LaunchServes(ps, remote);
    PiecesTogether(sig, env, labels, s, away, {}, Launch(remote), Launch(remote), fuel);
    PiecesFit(sig, env, labels, s, away);
    ShippingSuffices(ps, env, Launch(remote), Launch(remote), fuel);
  }

  /** What a program can be seen to do from outside: the calls it makes and the value it returns. */
  ghost predicate SameAnswer(w: World, st: Store) {
    st.ret == w.ret && forall k: Label :: Received(st.remote, k) == Received(w.remote, k)
  }

  /** Only the last piece of a program returns. */
  lemma {:induction false} PiecesReturnLast(sig: Sig, env: Env, labels: seq<Label>, s: Stmt<Label>, away: Label -> bool)
    requires StmtOk(sig, env, {}, TOP, s) && ReturnsLast(s) && Descending(labels)
    ensures LastReturns(PiecesOf(labels, s, away))
    decreases labels
  {
    if labels != [] {
      var l, ps := labels[0], PiecesOf(labels, s, away);
      var p := Project(l, s);
      var q := Prune.Prune(p);
      PiecesAre(labels, s, away);
      PiecesReturnLast(sig, env, labels[1..], s, away);
      ProjectAtEnd(l, s);
      PruneReturns(p);
      PutBackReturns(Owned(p, q.needs + Needed(ps[1..])), map[], q.ast);
      if PhaseReturns(p) {
        Flows.OkIsFlows(sig, env, {}, map[], TOP, s);
        ReturnsAtBottom(env, map[], TOP, l, s);
      }
      assert |labels| > 1 ==> labels[0] > labels[1];
    }
  }

  /** A program without returns has pieces without returns. */
  lemma {:induction false} NoPieceReturns(labels: seq<Label>, s: Stmt<Label>, away: Label -> bool)
    requires !HasReturn(s)
    ensures LastReturns(PiecesOf(labels, s, away))
    decreases labels
  {
    if labels != [] {
      var ps := PiecesOf(labels, s, away);
      var p := Project(labels[0], s);
      var q := Prune.Prune(p);
      PiecesAre(labels, s, away);
      NoPieceReturns(labels[1..], s, away);
      ProjectReturns(labels[0], s);
      PruneReturns(p);
      PutBackReturns(Owned(p, q.needs + Needed(ps[1..])), map[], q.ast);
      NoneAtEnd(ps[0].ast);
    }
  }

  /** Running a split program in pieces, each pruned, recollapsed and on its own store, makes the same
      calls in the same order and returns the same value as running the program, if nothing follows a
      return in it. */
  lemma DistributionPreservesMeaning(sig: Sig, env: Env, labels: seq<Label>, s: Stmt<Label>, away: Label -> bool, remote: map<Label, seq<Event>>, fuel: nat)
    requires Splittable(sig, env, labels, s) && Flat(s) && ShipsBack(PiecesOf(labels, s, away)) && ReturnsLast(s)
    requires ExecStops(s, env, Start(remote), fuel).Done?
    ensures RunShippedStops(PiecesOf(labels, s, away), env, Launch(remote), fuel).Done?
    ensures SameAnswer(ExecStops(s, env, Start(remote), fuel).s, RunShippedStops(PiecesOf(labels, s, away), env, Launch(remote), fuel).s)
  {
    StopsIsExec(s, env, Start(remote), fuel);
    DistributionRuns(sig, env, labels, s, away, remote, fuel);
    PiecesReturnLast(sig, env, labels, s, away);
    ShippedStopIsRun(PiecesOf(labels, s, away), env, Launch(remote), fuel);
  }

  // --- from the parsed program on ---

  lemma {:induction false} DesugarClean(seqnum: int, depth: int, s: Stmt<()>)
    requires D.Parsed(s)
    ensures Clean(F.DesugarWhile(seqnum, depth, s)) && FC.LoopsFlat(F.DesugarWhile(seqnum, depth, s))
    decreases s
  {
    match s
    case Let(_, _, _, _, body) => DesugarClean(seqnum, depth + 1, body);
    case If(_, _, a, b) =>
      DesugarClean(seqnum, depth + 1, a);
      DesugarClean(seqnum + 1, depth + 1, b);
    case While(_, _, body, _) =>
      DesugarClean(seqnum, depth + 1, body);
      var inner := F.DesugarWhile(seqnum, depth, s).body;
      assert Clean(inner.body) && FC.LoopsFlat(inner.body);
    case Seq(_, a, b) =>
      DesugarClean(seqnum, depth, a);
      DesugarClean(seqnum + 1, depth, b);
    case _ =>
  }

  /** The compiler's whole output, run in pieces wherever they belong, does what the parsed program
      does, if nothing follows a return in it. */
  lemma CompiledAndDistributed(sig: Sig, env: Env, labels: seq<Label>, phases: seq<Label>, p: Stmt<()>, away: Label -> bool, remote: map<Label, seq<Event>>, fuel: nat)
    requires E.Compilable(sig, env, labels, phases, p) && ReturnsLast(p)
    requires ShipsBack(PiecesOf(phases, E.Compiled(env, labels, p).value, away))
    requires ExecStops(p, env, Start(remote), fuel).Done?
    ensures var q := E.Compiled(env, labels, p).value;
            var w, r := ExecStops(p, env, Start(remote), fuel).s, RunShippedStops(PiecesOf(phases, q, away), env, Launch(remote), fuel + 1);
            r.Done? && SameAnswer(w, r.s)
  {
    var q := E.Compiled(env, labels, p).value;
    StopsIsExec(p, env, Start(remote), fuel);
    E.CompiledRuns(sig, env, labels, phases, p, remote, fuel);
    E.CompiledIs(sig, env, labels, phases, p);
    E.CompiledReturns(env, labels, p);
    StopsIsExec(q, env, Start(remote), fuel + 1);
    DesugarClean(1, 1, p);
    FlattenClean(1, 1, F.DesugarWhile(1, 1, p));
    InFrontPlain({}, F.FlattenExpressions(p));
    DistributionPreservesMeaning(sig, env, phases, q, away, remote, fuel + 1);
  }
}
