/** Steps of examples that run pruned phases. */
module PieceSamples {
  import opened Labels
  import opened Syntax
  import opened Semantics
  import opened SplitPhase
  import opened PhaseRun
  import opened Frame
  import opened Prune
  import opened Recollapse
  import opened Shipping
  import opened Distributed
  import W = WellLabelled

  lemma {:induction false} PutNothing(e: Expr<()>)
    ensures Put(map[], e) == e
  {
    if e.Bin? {
      PutNothing(e.left);
      PutNothing(e.right);
    }
  }

  lemma {:induction false} PutBackNothing(cs: set<Name>, p: PStmt)
    requires Binds(p) !! cs
    ensures PutBack(cs, map[], p) == p
    decreases p
  {
    match p
    case PLet(_, _, rhs, body) =>
      if rhs.Pure? { PutNothing(rhs.e); }
      PutBackNothing(cs, body);
    case PAssign(_, e) => PutNothing(e);
    case PReturn(e) => PutNothing(e);
    case PIf(cond, a, b) =>
      PutNothing(cond);
      PutBackNothing(cs, a);
      PutBackNothing(cs, b);
    case PWhile(cond, body, _) =>
      PutNothing(cond);
      PutBackNothing(cs, body);
    case PForEach(body, _) => PutBackNothing(cs, body);
    case PSeq(a, b) =>
      PutBackNothing(cs, a);
      PutBackNothing(cs, b);
    case _ =>
  }

  lemma {:induction false} ProjectBinds(l: Label, s: Stmt<Label>)
    ensures Binds(Project(l, s)) <= W.Bound(s)
  {
    match s
    case Let(_, _, x, _, body) =>
      ProjectBinds(l, body);
      assert Binds(PIncrement(x)) == {};
    case If(_, _, a, b) =>
      ProjectBinds(l, a);
      ProjectBinds(l, b);
    case While(_, _, body, _) => ProjectBinds(l, body);
    case Seq(_, a, b) =>
      ProjectBinds(l, a);
      ProjectBinds(l, b);
    case _ =>
  }

  /** Without generated names that belong to one phase alone, a piece is the pruned phase. */
  lemma PieceIsPruned(l: Label, s: Stmt<Label>, later: set<Name>, away: bool)
    requires forall x | x in W.Bound(s) && x.Anorm? :: x in Prune.Prune(Project(l, s)).needs + later
    ensures PieceOf(l, s, later, away).ast == Prune.Prune(Project(l, s)).ast
  {
    var q := Prune.Prune(Project(l, s));
    ProjectBinds(l, s);
    assert Owned(Project(l, s), q.needs + later) == {};
    PutBackNothing({}, q.ast);
  }

  /** Two pieces that run on the client's store. */
  lemma TwoPieces(ps: seq<Piece>, env: Env, st: Store, st1: Store, fuel: nat)
    requires |ps| == 2 && !ps[0].away && !ps[1].away
    requires RunStops(ps[0].ast, env, BeginPhase(st), fuel) == Done(st1)
    ensures RunShippedStops(ps, env, st, fuel) == RunStops(ps[1].ast, env, BeginPhase(st1), fuel)
  {
    var rest := ps[1..];
    assert rest[0] == ps[1] && rest[1..] == [];
    assert RunShippedStops(ps, env, st, fuel) == RunShippedStops(rest, env, st1, fuel);
    var r := RunPieceStops(rest, env, st1, fuel);
    if r.Done? { assert RunShippedStops([], env, r.s, fuel) == r; }
  }

  /** The two pieces of a program. */
  lemma PiecesAreTwo(s: Stmt<Label>, away: Label -> bool)
    ensures var weak := PieceOf(BOTTOM, s, {}, away(BOTTOM));
            PiecesOf([TOP, BOTTOM], s, away) == [PieceOf(TOP, s, weak.needs, away(TOP)), weak]
  {
    var both: seq<Label> := [TOP, BOTTOM];
    var weak := PieceOf(BOTTOM, s, {}, away(BOTTOM));
    assert both[1..] == [BOTTOM] && both[1..][1..] == [];
    assert Needed([]) == {} && PiecesOf([], s, away) == [];
    assert PiecesOf([BOTTOM], s, away) == [weak] + [] == [weak];
    assert [weak][1..] == [] && Needed([weak]) == weak.needs + {} == weak.needs;
    assert PiecesOf(both, s, away) == [PieceOf(TOP, s, weak.needs, away(TOP))] + [weak];
  }

  /** Of a program whose generated names are all needed, two pieces on the client's store. */
  lemma PrunedPieces(s: Stmt<Label>, strong: Prune.Phase, weak: Prune.Phase)
    requires Prune.Prune(Project(TOP, s)) == strong && Prune.Prune(Project(BOTTOM, s)) == weak
    requires forall x | x in W.Bound(s) && x.Anorm? :: x in weak.needs
    ensures var ps := PiecesOf([TOP, BOTTOM], s, l => false);
            |ps| == 2 && ps[0].ast == strong.ast && ps[1].ast == weak.ast && !ps[0].away && !ps[1].away
  {
    PieceIsPruned(BOTTOM, s, {}, false);
    PieceIsPruned(TOP, s, weak.needs, false);
    PiecesAreTwo(s, l => false);
  }

  // --- collapsed sequences ---

  /** What collapsing a sequence of two comes to. */
  lemma Opens(a: seq<PStmt>, b: seq<PStmt>, p: PStmt, q: PStmt)
    requires Items(p) == a && Items(q) == b
    ensures Collapse(PSeq(p, q)) == FromItems(a + b)
  {
  }

  lemma One(p: PStmt)
    ensures FromItems([p]) == PSeq(p, PSkip)
  {
    assert [p][1..] == [];
  }

  lemma Two(p: PStmt, q: PStmt)
    ensures FromItems([p, q]) == PSeq(p, PSeq(q, PSkip))
  {
    assert [p, q][1..] == [q];
    One(q);
  }

  lemma Three(p: PStmt, q: PStmt, r: PStmt)
    ensures FromItems([p, q, r]) == PSeq(p, PSeq(q, PSeq(r, PSkip)))
  {
    assert [p, q, r][1..] == [q, r];
    Two(q, r);
  }

  /** The statements of a collapsed sequence are those it is made of. */
  lemma {:induction false} ItemsBack(items: seq<PStmt>)
    requires forall p | p in items :: !p.PSeq? && !p.PSkip?
    ensures Items(FromItems(items)) == items
  {
    if items != [] {
      ItemsBack(items[1..]);
      assert [items[0]] + items[1..] == items;
    }
  }

  /** What clearing leaves of a sequence whose parts are cleared to these. */
  lemma ClearsTo(p: PStmt, q: PStmt, a: seq<PStmt>, b: seq<PStmt>)
    requires Items(Clear(p).ast) == a && Items(Clear(q).ast) == b
    ensures Clear(PSeq(p, q)) == Cleared(FromItems(a + b), Clear(p).gone + Clear(q).gone, Clear(p).still + Clear(q).still)
  {
    Opens(a, b, Clear(p).ast, Clear(q).ast);
  }

  /** What pruning leaves of a phase that binds and then branches. */
  lemma PruneBranches(bl: Label, x: Name, rhs: Rhs<()>, cond: Expr<()>, a: PStmt, b: PStmt, needs: set<Name>) returns (left: set<Name>)
    requires Required(PLet(bl, x, rhs, PIf(cond, a, b)), {}) == needs && !IsEmpty(Clear(Drop(needs, a)).ast)
    ensures Prune.Prune(PLet(bl, x, rhs, PIf(cond, a, b))).ast ==
              PLet(bl, x, rhs, PIf(cond, Drop(left, Clear(Drop(needs, a)).ast), Drop(left, Clear(Drop(needs, b)).ast)))
  {
    var d := Drop(needs, PLet(bl, x, rhs, PIf(cond, a, b)));
    assert Drop(needs, PIf(cond, a, b)) == PIf(cond, Drop(needs, a), Drop(needs, b)) && d == PLet(bl, x, rhs, Drop(needs, PIf(cond, a, b)));
    var body := PIf(cond, Clear(Drop(needs, a)).ast, Clear(Drop(needs, b)).ast);
    assert Clear(d.body).ast == body;
    assert Clear(d).ast == PLet(bl, x, rhs, body);
    left := needs - (Clear(d).gone - Clear(d).still);
    assert Drop(left, body) == PIf(cond, Drop(left, body.thn), Drop(left, body.els));
  }

  /** Pruning, step by step. */
  lemma PrunesTo(p: PStmt, needs: set<Name>, d: PStmt, c: Cleared, left: set<Name>, q: PStmt)
    requires Required(p, {}) == needs && Drop(needs, p) == d && Clear(d) == c
    requires left == needs - (c.gone - c.still) && Drop(left, c.ast) == q
    ensures Prune.Prune(p) == Prune.Phase(q, left)
  {
  }

  /** The statements of such a sequence. */
  lemma ClearsItems(p: PStmt, q: PStmt, items: seq<PStmt>)
    requires Items(Clear(p).ast) + Items(Clear(q).ast) == items && forall i | i in items :: !i.PSeq? && !i.PSkip?
    ensures var c := Clear(PSeq(p, q));
            Items(c.ast) == items && c.ast == FromItems(items) && c.gone == Clear(p).gone + Clear(q).gone && c.still == Clear(p).still + Clear(q).still
  {
    ClearsTo(p, q, Items(Clear(p).ast), Items(Clear(q).ast));
    ItemsBack(items);
  }

  lemma Four(p: PStmt, q: PStmt, r: PStmt, t: PStmt)
    ensures FromItems([p, q, r, t]) == PSeq(p, PSeq(q, PSeq(r, PSeq(t, PSkip))))
  {
    assert [p, q, r, t][1..] == [q, r, t];
    Three(q, r, t);
  }

  /** A move in front of a list. */
  lemma MoveInFront(x: Name, list: PStmt, items: seq<PStmt>)
    requires Items(Clear(list).ast) == items && forall i | i in items :: !i.PSeq? && !i.PSkip?
    ensures var c := Clear(PSeq(PIncrement(x), list)); var all := [PIncrement(x)] + items;
            Items(c.ast) == all && c.ast == FromItems(all) && c.gone == Clear(list).gone && c.still == Clear(list).still
  {
    ClearsItems(PIncrement(x), list, [PIncrement(x)] + items);
  }

  lemma MovesInFront(x: Name, y: Name, list: PStmt, t: PStmt, r: PStmt)
    requires Items(Clear(list).ast) == [t, r] && !t.PSeq? && !t.PSkip? && !r.PSeq? && !r.PSkip?
    ensures Clear(PSeq(PIncrement(x), PSeq(PIncrement(y), list))) ==
              Cleared(PSeq(PIncrement(x), PSeq(PIncrement(y), PSeq(t, PSeq(r, PSkip)))), Clear(list).gone, Clear(list).still)
  {
    var p, q := PIncrement(x), PIncrement(y);
    assert [q] + [t, r] == [q, t, r] && [p] + [q, t, r] == [p, q, t, r];
    MoveInFront(y, list, [t, r]);
    MoveInFront(x, PSeq(q, list), [q, t, r]);
    Four(p, q, t, r);
  }

  /** An empty conditional in front of a list. */
  lemma EmptyInFront(e: Expr<()>, list: PStmt, items: seq<PStmt>)
    requires Items(Clear(list).ast) == items && forall i | i in items :: !i.PSeq? && !i.PSkip?
    ensures var c := Clear(PSeq(PIf(e, PSkip, PSkip), list));
            Items(c.ast) == items && c.gone == Names(e) + Clear(list).gone && c.still == Clear(list).still
  {
    assert Clear(PIf(e, PSkip, PSkip)) == Cleared(PSkip, Names(e), {});
    assert Items(PSkip) + items == items;
    ClearsItems(PIf(e, PSkip, PSkip), list, items);
  }

  // --- phases that lose no move ---

  lemma KeepsSeq(keep: set<Name>, p: PStmt, q: PStmt)
    requires Drop(keep, p) == p && Drop(keep, q) == q
    ensures Drop(keep, PSeq(p, q)) == PSeq(p, q)
  {
  }

  lemma KeepsIf(keep: set<Name>, e: Expr<()>, p: PStmt, q: PStmt)
    requires Drop(keep, p) == p && Drop(keep, q) == q
    ensures Drop(keep, PIf(e, p, q)) == PIf(e, p, q)
  {
  }

  lemma KeepsLet(keep: set<Name>, bl: Label, x: Name, rhs: Rhs<()>, p: PStmt)
    requires Drop(keep, p) == p
    ensures Drop(keep, PLet(bl, x, rhs, p)) == PLet(bl, x, rhs, p)
  {
  }

  lemma KeepsMove(keep: set<Name>, x: Name)
    requires x in keep
    ensures Drop(keep, PIncrement(x)) == PIncrement(x)
  {
  }
}
