/** Pruned phases can be recollapsed. */
module RecollapsePruned {
  import opened Syntax
  import opened SplitPhase
  import opened Frame
  import opened Prune
  import opened Recollapse

  lemma {:induction false} SafeMore(cs: set<Name>, m: Subst, ok: set<Name>, more: set<Name>, p: PStmt)
    requires Safe(cs, m, ok, p) && ok <= more
    ensures Safe(cs, m, more, p)
    decreases p
  {
    match p
    case PLet(_, x, rhs, body) =>
      if rhs.Pure? && x in cs {
        SafeMore(cs, m[x := Put(m, rhs.e)], ok + {x}, more + {x}, body);
      } else {
        SafeMore(cs, m, Still(m, ok, {x}), Still(m, more, {x}), body);
      }
    case PIf(_, a, b) =>
      SafeMore(cs, m, ok, more, a);
      SafeMore(cs, m, ok, more, b);
    case PWhile(_, body, _) => SafeMore(cs, m, Still(m, ok, Touched(body)), Still(m, more, Touched(body)), body);
    case PForEach(body, _) => SafeMore(cs, m, Still(m, ok, Touched(body)), Still(m, more, Touched(body)), body);
    case PSeq(a, b) =>
      SafeMore(cs, m, ok, more, a);
      SafeMore(cs, m, Still(m, ok, Touched(a)), Still(m, more, Touched(a)), b);
    case _ =>
  }

  /** Touching less keeps more. */
  lemma StillLess(m: Subst, ok: set<Name>, touched: set<Name>, less: set<Name>)
    requires less <= touched
    ensures Still(m, ok, touched) <= Still(m, ok, less)
  {
  }

  lemma {:induction false} DropSafe(cs: set<Name>, m: Subst, ok: set<Name>, keep: set<Name>, p: PStmt)
    requires Safe(cs, m, ok, p)
    ensures Safe(cs, m, ok, Drop(keep, p))
    decreases p, 0
  {
    match p
    case PLet(_, x, rhs, body) =>
      if rhs.Pure? && x in cs { DropSafe(cs, m[x := Put(m, rhs.e)], ok + {x}, keep, body); } else { DropSafe(cs, m, Still(m, ok, {x}), keep, body); }
    case PIf(_, a, b) =>
      DropSafe(cs, m, ok, keep, a);
      DropSafe(cs, m, ok, keep, b);
    case PWhile(cond, body, _) => DropBodySafe(cs, m, ok, keep, body);
    case PForEach(body, _) => DropBodySafe(cs, m, ok, keep, body);
    case PSeq(a, b) =>
      DropSafe(cs, m, ok, keep, a);
      DropSafe(cs, m, Still(m, ok, Touched(a)), keep, b);
      DropMentions(keep, a);
      StillLess(m, ok, Touched(a), Touched(Drop(keep, a)));
      SafeMore(cs, m, Still(m, ok, Touched(a)), Still(m, ok, Touched(Drop(keep, a))), Drop(keep, b));
    case _ =>
  }

  lemma {:induction false} DropBodySafe(cs: set<Name>, m: Subst, ok: set<Name>, keep: set<Name>, body: PStmt)
    requires Safe(cs, m, Still(m, ok, Touched(body)), body)
    ensures Still(m, ok, Touched(body)) <= Still(m, ok, Touched(Drop(keep, body)))
    ensures Safe(cs, m, Still(m, ok, Touched(Drop(keep, body))), Drop(keep, body))
    decreases body, 1
  {
    DropMentions(keep, body);
    DropSafe(cs, m, Still(m, ok, Touched(body)), keep, body);
    SafeMore(cs, m, Still(m, ok, Touched(body)), Still(m, ok, Touched(Drop(keep, body))), Drop(keep, body));
  }

  lemma StillTwice(m: Subst, ok: set<Name>, s: set<Name>, t: set<Name>)
    ensures Still(m, Still(m, ok, s), t) == Still(m, ok, s + t)
  {
  }

  lemma {:induction false} AppendSafe(cs: set<Name>, m: Subst, ok: set<Name>, a: seq<PStmt>, b: seq<PStmt>)
    requires Safe(cs, m, ok, FromItems(a)) && Safe(cs, m, Still(m, ok, Touched(FromItems(a))), FromItems(b))
    ensures Safe(cs, m, ok, FromItems(a + b))
    decreases a
  {
    if a == [] {
      assert a + b == b;
      SafeMore(cs, m, Still(m, ok, Touched(FromItems(a))), ok, FromItems(b));
    } else {
      assert (a + b)[0] == a[0] && (a + b)[1..] == a[1..] + b;
      StillTwice(m, ok, Touched(a[0]), Touched(FromItems(a[1..])));
      assert Touched(FromItems(a)) == Touched(a[0]) + Touched(FromItems(a[1..]));
      AppendSafe(cs, m, Still(m, ok, Touched(a[0])), a[1..], b);
    }
  }

  lemma {:induction false} CollapseSafe(cs: set<Name>, m: Subst, ok: set<Name>, p: PStmt)
    requires Safe(cs, m, ok, p)
    ensures Safe(cs, m, ok, Collapse(p))
    decreases p
  {
    match p
    case PSkip =>
    case PSeq(a, b) =>
      CollapseSafe(cs, m, ok, a);
      CollapseMentions(a);
      CollapseSafe(cs, m, Still(m, ok, Touched(a)), b);
      AppendSafe(cs, m, ok, Items(a), Items(b));
    case _ => assert FromItems([p]) == PSeq(p, FromItems([p][1..]));
  }

  lemma {:induction false} ClearSafe(cs: set<Name>, m: Subst, ok: set<Name>, p: PStmt)
    requires Safe(cs, m, ok, p)
    ensures Safe(cs, m, ok, Clear(p).ast)
    decreases p, 0
  {
    match p
    case PLet(_, x, rhs, body) =>
      if rhs.Pure? && x in cs { ClearSafe(cs, m[x := Put(m, rhs.e)], ok + {x}, body); } else { ClearSafe(cs, m, Still(m, ok, {x}), body); }
    case PIf(_, a, b) =>
      ClearSafe(cs, m, ok, a);
      ClearSafe(cs, m, ok, b);
    case PWhile(_, body, _) => ClearBodySafe(cs, m, ok, body);
    case PForEach(body, _) => ClearBodySafe(cs, m, ok, body);
    case PSeq(a, b) =>
      var ca, cb := Clear(a).ast, Clear(b).ast;
      ClearSafe(cs, m, ok, a);
      ClearSafe(cs, m, Still(m, ok, Touched(a)), b);
      ClearMentions(a);
      StillLess(m, ok, Touched(a), Touched(ca));
      SafeMore(cs, m, Still(m, ok, Touched(a)), Still(m, ok, Touched(ca)), cb);
      CollapseSafe(cs, m, ok, PSeq(ca, cb));
    case _ =>
  }

  lemma {:induction false} ClearBodySafe(cs: set<Name>, m: Subst, ok: set<Name>, body: PStmt)
    requires Safe(cs, m, Still(m, ok, Touched(body)), body)
    ensures Still(m, ok, Touched(body)) <= Still(m, ok, Touched(Clear(body).ast))
    ensures Safe(cs, m, Still(m, ok, Touched(Clear(body).ast)), Clear(body).ast)
    decreases body, 1
  {
    ClearMentions(body);
    ClearSafe(cs, m, Still(m, ok, Touched(body)), body);
    SafeMore(cs, m, Still(m, ok, Touched(body)), Still(m, ok, Touched(Clear(body).ast)), Clear(body).ast);
  }

  /** Pruning a phase that may be recollapsed leaves one that may be. */
  lemma PruneSafe(cs: set<Name>, p: PStmt)
    requires Safe(cs, map[], {}, p)
    ensures Safe(cs, map[], {}, Prune.Prune(p).ast)
  {
    var needs := Required(p, {});
    var c := Clear(Drop(needs, p));
    DropSafe(cs, map[], {}, needs, p);
    ClearSafe(cs, map[], {}, Drop(needs, p));
    DropSafe(cs, map[], {}, needs - (c.gone - c.still), c.ast);
  }

  lemma {:induction false} PutUses(m: Subst, e: Expr<()>, all: set<Name>)
    requires Names(e) <= all && forall y | y in m :: Names(m[y]) <= all
    ensures Names(Put(m, e)) <= all
  {
    if e.Bin? {
      PutUses(m, e.left, all);
      PutUses(m, e.right, all);
    }
  }

  /** A recollapsed phase mentions nothing new. */
  lemma {:induction false} PutBackMentions(cs: set<Name>, m: Subst, p: PStmt, all: set<Name>)
    requires Uses(p) <= all && forall y | y in m :: Names(m[y]) <= all
    ensures var q := PutBack(cs, m, p);
            && Uses(q) <= all && Moves(q) == Moves(p) && Writes(q) <= Writes(p)
            && Repeats(q) == Repeats(p) && Counts(q) == Counts(p)
    decreases p
  {
    match p
    case PLet(_, x, rhs, body) =>
      if rhs.Pure? { PutUses(m, rhs.e, all); }
      PutBackMentions(cs, if rhs.Pure? && x in cs then m[x := Put(m, rhs.e)] else m, body, all);
    case PAssign(_, e) => PutUses(m, e, all);
    case PReturn(e) => PutUses(m, e, all);
    case PIf(cond, a, b) =>
      PutUses(m, cond, all);
      PutBackMentions(cs, m, a, all);
      PutBackMentions(cs, m, b, all);
    case PWhile(cond, body, _) =>
      PutUses(m, cond, all);
      PutBackMentions(cs, m, body, all);
    case PForEach(body, _) => PutBackMentions(cs, m, body, all);
    case PSeq(a, b) =>
      PutBackMentions(cs, m, a, all);
      PutBackMentions(cs, m, b, all);
    case _ =>
  }
}
