/** Where returns stand in a piece: pruning and recollapsing a phase leave them where they are. */
module PiecesReturning {
  import opened Syntax
  import opened Semantics
  import opened SplitPhase
  import opened PhaseRun
  import opened PhaseReturning
  import opened Frame
  import opened Prune
  import opened Recollapse
  import opened Shipping

  /** As far as returns go, `q` can stand for `p`. */
  predicate ReturnsLike(p: PStmt, q: PStmt) {
    PhaseReturns(q) == PhaseReturns(p) && (ReturnsAtEnd(p) ==> ReturnsAtEnd(q)) && (p == PSkip ==> q == PSkip)
  }

  lemma {:induction false} DropReturns(keep: set<Name>, p: PStmt)
    ensures ReturnsLike(p, Drop(keep, p))
  {
    match p
    case PLet(_, _, _, body) => DropReturns(keep, body);
    case PIf(_, a, b) =>
      DropReturns(keep, a);
      DropReturns(keep, b);
    case PWhile(_, body, _) => DropReturns(keep, body);
    case PForEach(body, _) => DropReturns(keep, body);
    case PSeq(a, b) =>
      DropReturns(keep, a);
      DropReturns(keep, b);
    case _ =>
  }

  lemma {:induction false} AppendReturns(a: seq<PStmt>, b: seq<PStmt>)
    ensures var fa, fb, f := FromItems(a), FromItems(b), FromItems(a + b);
            && PhaseReturns(f) == (PhaseReturns(fa) || PhaseReturns(fb))
            && (ReturnsAtEnd(fa) && ReturnsAtEnd(fb) && (PhaseReturns(fa) ==> b == []) ==> ReturnsAtEnd(f))
    decreases a
  {
    if a == [] {
      assert a + b == b;
    } else {
      assert (a + b)[0] == a[0] && (a + b)[1..] == a[1..] + b;
      AppendReturns(a[1..], b);
    }
  }

  lemma {:induction false} CollapseReturns(p: PStmt)
    ensures ReturnsLike(p, Collapse(p))
    decreases p
  {
    match p
    case PSkip =>
    case PSeq(a, b) =>
      CollapseReturns(a);
      CollapseReturns(b);
      AppendReturns(Items(a), Items(b));
    case _ => assert FromItems([p]) == PSeq(p, FromItems([p][1..])) == PSeq(p, PSkip);
  }

  lemma {:induction false} ClearReturns(p: PStmt)
    ensures ReturnsLike(p, Clear(p).ast)
    decreases p
  {
    match p
    case PLet(_, _, _, body) => ClearReturns(body);
    case PIf(_, a, b) =>
      ClearReturns(a);
      ClearReturns(b);
      CollapseReturns(Clear(a).ast);
      CollapseReturns(Clear(b).ast);
    case PWhile(_, body, _) => ClearReturns(body);
    case PForEach(body, _) => ClearReturns(body);
    case PSeq(a, b) =>
      ClearReturns(a);
      ClearReturns(b);
      CollapseReturns(PSeq(Clear(a).ast, Clear(b).ast));
    case _ =>
  }

  lemma PruneReturns(p: PStmt)
    ensures ReturnsLike(p, Prune.Prune(p).ast)
  {
    var needs := Required(p, {});
    var c := Clear(Drop(needs, p));
    DropReturns(needs, p);
    ClearReturns(Drop(needs, p));
    DropReturns(needs - (c.gone - c.still), c.ast);
  }

  lemma {:induction false} PutBackReturns(cs: set<Name>, m: Subst, p: PStmt)
    ensures ReturnsLike(p, PutBack(cs, m, p))
    decreases p
  {
    match p
    case PLet(_, x, rhs, body) => PutBackReturns(cs, if rhs.Pure? && x in cs then m[x := Put(m, rhs.e)] else m, body);
    case PIf(_, a, b) =>
      PutBackReturns(cs, m, a);
      PutBackReturns(cs, m, b);
    case PWhile(_, body, _) => PutBackReturns(cs, m, body);
    case PForEach(body, _) => PutBackReturns(cs, m, body);
    case PSeq(a, b) =>
      PutBackReturns(cs, m, a);
      PutBackReturns(cs, m, b);
    case _ =>
  }

  /** Only the last piece returns, and nothing follows its return. */
  predicate LastReturns(ps: seq<Piece>) {
    ps == [] || (ReturnsAtEnd(ps[0].ast) && (PhaseReturns(ps[0].ast) ==> ps[1..] == []) && LastReturns(ps[1..]))
  }

  /** Then it does not matter that a return ends its piece. */
  lemma {:induction false} ShippedStopIsRun(ps: seq<Piece>, env: Env, st: Store, fuel: nat)
    requires LastReturns(ps) && st.ret.None?
    ensures RunShippedStops(ps, env, st, fuel) == RunShipped(ps, env, st, fuel)
    decreases ps
  {
    if ps != [] {
      var b := BeginPhase(if ps[0].away then Sent(ps[0], st) else st);
      StopsIsRun(ps[0].ast, env, b, fuel);
      var r := Run(ps[0].ast, env, b, fuel);
      if r.Done? && ps[1..] != [] {
        RunKeepsRet(ps[0].ast, env, b, r.s, fuel);
        ShippedStopIsRun(ps[1..], env, RunPiece(ps, env, st, fuel).s, fuel);
      }
    }
  }
}
