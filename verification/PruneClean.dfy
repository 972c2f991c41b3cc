/** What pruning takes out of a phase, and what it leaves: empty conditionals, and the variables that only
    they look at. */
module PruneClean {
  import opened Syntax
  import opened SplitPhase
  import opened Frame
  import opened Prune

  /** Nothing but empty statements in sequences. */
  predicate Empty(p: PStmt) {
    match p
    case PSkip => true
    case PSeq(a, b) => Empty(a) && Empty(b)
    case _ => false
  }

  /** No conditional, at any depth, has two empty branches. */
  predicate NoneEmpty(p: PStmt) {
    match p
    case PLet(_, _, _, body) => NoneEmpty(body)
    case PIf(_, a, b) => !(Empty(a) && Empty(b)) && NoneEmpty(a) && NoneEmpty(b)
    case PWhile(_, body, _) => NoneEmpty(body)
    case PForEach(body, _) => NoneEmpty(body)
    case PSeq(a, b) => NoneEmpty(a) && NoneEmpty(b)
    case _ => true
  }

  /** Every sequence is a plain list: its statements are neither sequences nor empty, and it ends. */
  predicate Listed(p: PStmt) {
    match p
    case PLet(_, _, _, body) => Listed(body)
    case PIf(_, a, b) => Listed(a) && Listed(b)
    case PWhile(_, body, _) => Listed(body)
    case PForEach(body, _) => Listed(body)
    case PSeq(a, b) => !a.PSeq? && !a.PSkip? && (b.PSeq? || b.PSkip?) && Listed(a) && Listed(b)
    case _ => true
  }

  lemma {:induction false} EmptyIs(p: PStmt)
    ensures IsEmpty(p) <==> Empty(p)
  {
    if p.PSeq? {
      EmptyIs(p.first);
      EmptyIs(p.rest);
    }
  }

  lemma {:induction false} AppendClean(a: seq<PStmt>, b: seq<PStmt>)
    ensures var f, g, h := FromItems(a), FromItems(b), FromItems(a + b);
            && (NoneEmpty(h) <==> NoneEmpty(f) && NoneEmpty(g)) && (Empty(h) <==> Empty(f) && Empty(g))
            && (Listed(f) && Listed(g) ==> Listed(h))
    decreases a
  {
    if a == [] {
      assert a + b == b;
    } else {
      assert (a + b)[0] == a[0] && (a + b)[1..] == a[1..] + b;
      AppendClean(a[1..], b);
    }
  }

  /** Opening up sequences neither makes nor removes empty conditionals, and leaves plain lists. */
  lemma {:induction false} CollapseClean(p: PStmt)
    ensures var c := Collapse(p);
            && (NoneEmpty(c) <==> NoneEmpty(p)) && (Empty(c) <==> Empty(p)) && (p.PSeq? ==> c.PSeq? || c.PSkip?)
    ensures p.PSeq? && Listed(Collapse(p.first)) && Listed(Collapse(p.rest)) ==> Listed(Collapse(p))
    decreases p
  {
    match p
    case PSkip =>
    case PSeq(a, b) =>
      CollapseClean(a);
      CollapseClean(b);
      AppendClean(Items(a), Items(b));
    case _ => assert FromItems([p]) == PSeq(p, FromItems([p][1..]));
  }

  lemma {:induction false} CollapseLists(p: PStmt)
    requires Listed(p)
    ensures Listed(Collapse(p))
    decreases p
  {
    match p
    case PSkip =>
    case PSeq(a, b) =>
      CollapseLists(a);
      CollapseLists(b);
      AppendClean(Items(a), Items(b));
    case _ => assert FromItems([p]) == PSeq(p, FromItems([p][1..]));
  }

  /** Clearing leaves no empty conditional, at any depth, and only plain lists. */
  lemma {:induction false} ClearCleans(p: PStmt)
    ensures NoneEmpty(Clear(p).ast) && Listed(Clear(p).ast)
  {
    match p
    case PLet(_, _, _, body) => ClearCleans(body);
    case PIf(_, a, b) =>
      ClearCleans(a);
      ClearCleans(b);
      EmptyIs(Clear(a).ast);
      EmptyIs(Clear(b).ast);
    case PWhile(_, body, _) => ClearCleans(body);
    case PForEach(body, _) => ClearCleans(body);
    case PSeq(a, b) =>
      ClearCleans(a);
      ClearCleans(b);
      CollapseLists(Clear(a).ast);
      CollapseLists(Clear(b).ast);
      CollapseClean(PSeq(Clear(a).ast, Clear(b).ast));
    case _ =>
  }

  // --- what is dropped ---

  /** Nothing but moves of variables outside `keep`, and conditionals that hold nothing else: what is
      cleared away once those moves are gone. */
  predicate Hollow(keep: set<Name>, p: PStmt) {
    match p
    case PIncrement(x) => x !in keep
    case PIf(_, a, b) => Hollow(keep, a) && Hollow(keep, b)
    case PSkip => true
    case PSeq(a, b) => Hollow(keep, a) && Hollow(keep, b)
    case _ => false
  }

  lemma {:induction false} HollowClears(keep: set<Name>, p: PStmt)
    ensures Empty(Clear(Drop(keep, p)).ast) <==> Hollow(keep, p)
  {
    match p
    case PIf(_, a, b) =>
      HollowClears(keep, a);
      HollowClears(keep, b);
      EmptyIs(Clear(Drop(keep, a)).ast);
      EmptyIs(Clear(Drop(keep, b)).ast);
    case PSeq(a, b) =>
      HollowClears(keep, a);
      HollowClears(keep, b);
      CollapseClean(PSeq(Clear(Drop(keep, a)).ast, Clear(Drop(keep, b)).ast));
    case _ =>
  }

  /** Apart from what is cleared away, nothing but moves of variables outside `left`. */
  predicate Spent(keep: set<Name>, left: set<Name>, p: PStmt) {
    Hollow(keep, p) ||
    match p
    case PIncrement(x) => x !in left
    case PSeq(a, b) => Spent(keep, left, a) && Spent(keep, left, b)
    case _ => false
  }

  /** No conditional that stays becomes empty by the moves that are dropped last. */
  predicate Lasting(keep: set<Name>, left: set<Name>, p: PStmt) {
    match p
    case PLet(_, _, _, body) => Lasting(keep, left, body)
    case PIf(_, a, b) =>
      Hollow(keep, p) || (!(Spent(keep, left, a) && Spent(keep, left, b)) && Lasting(keep, left, a) && Lasting(keep, left, b))
    case PWhile(_, body, _) => Lasting(keep, left, body)
    case PForEach(body, _) => Lasting(keep, left, body)
    case PSeq(a, b) => Lasting(keep, left, a) && Lasting(keep, left, b)
    case _ => true
  }

  lemma {:induction false} DropEmpty(left: set<Name>, p: PStmt)
    requires Empty(p)
    ensures Empty(Drop(left, p)) && NoneEmpty(Drop(left, p))
  {
    if p.PSeq? {
      DropEmpty(left, p.first);
      DropEmpty(left, p.rest);
    }
  }

  lemma {:induction false} AppendDrops(left: set<Name>, a: seq<PStmt>, b: seq<PStmt>)
    ensures var f, g, h := Drop(left, FromItems(a)), Drop(left, FromItems(b)), Drop(left, FromItems(a + b));
            (NoneEmpty(h) <==> NoneEmpty(f) && NoneEmpty(g)) && (Empty(h) <==> Empty(f) && Empty(g))
    decreases a
  {
    if a == [] {
      assert a + b == b;
    } else {
      assert (a + b)[0] == a[0] && (a + b)[1..] == a[1..] + b;
      AppendDrops(left, a[1..], b);
    }
  }

  lemma {:induction false} CollapseDrops(left: set<Name>, p: PStmt)
    ensures var c, d := Drop(left, Collapse(p)), Drop(left, p); (NoneEmpty(c) <==> NoneEmpty(d)) && (Empty(c) <==> Empty(d))
    decreases p
  {
    match p
    case PSkip =>
    case PSeq(a, b) =>
      CollapseDrops(left, a);
      CollapseDrops(left, b);
      AppendDrops(left, Items(a), Items(b));
    case _ => assert FromItems([p]) == PSeq(p, FromItems([p][1..]));
  }

  lemma {:induction false} LastingCleans(keep: set<Name>, left: set<Name>, p: PStmt)
    requires left <= keep
    ensures var q := Drop(left, Clear(Drop(keep, p)).ast);
            (Empty(q) <==> Spent(keep, left, p)) && (NoneEmpty(q) <==> Lasting(keep, left, p))
  {
    HollowClears(keep, p);
    if Hollow(keep, p) {
      DropEmpty(left, Clear(Drop(keep, p)).ast);
      HollowLasts(keep, left, p);
    } else {
      match p
      case PLet(_, _, _, body) => LastingCleans(keep, left, body);
      case PIf(_, a, b) =>
        LastingCleans(keep, left, a);
        LastingCleans(keep, left, b);
        IfStays(keep, a, b);
      case PWhile(_, body, _) => LastingCleans(keep, left, body);
      case PForEach(body, _) => LastingCleans(keep, left, body);
      case PSeq(a, b) =>
        LastingCleans(keep, left, a);
        LastingCleans(keep, left, b);
        CollapseDrops(left, PSeq(Clear(Drop(keep, a)).ast, Clear(Drop(keep, b)).ast));
      case _ =>
    }
  }

  lemma IfStays(keep: set<Name>, a: PStmt, b: PStmt)
    requires !(Hollow(keep, a) && Hollow(keep, b))
    ensures var ca, cb := Clear(Drop(keep, a)).ast, Clear(Drop(keep, b)).ast; !(IsEmpty(ca) && IsEmpty(cb))
  {
    HollowClears(keep, a);
    HollowClears(keep, b);
    EmptyIs(Clear(Drop(keep, a)).ast);
    EmptyIs(Clear(Drop(keep, b)).ast);
  }

  lemma {:induction false} HollowLasts(keep: set<Name>, left: set<Name>, p: PStmt)
    requires Hollow(keep, p)
    ensures Lasting(keep, left, p)
  {
    if p.PSeq? {
      HollowLasts(keep, left, p.first);
      HollowLasts(keep, left, p.rest);
    }
  }

  /** A pruned phase has no empty conditional exactly if none of the phase's own conditionals is left with
      nothing but moves of variables that only removed conditionals looked at. */
  lemma PruneCleansIff(p: PStmt)
    ensures NoneEmpty(Prune.Prune(p).ast) <==> Lasting(Required(p, {}), Prune.Prune(p).needs, p)
  {
    LastingCleans(Required(p, {}), Prune.Prune(p).needs, p);
  }

  // --- what stays required ---

  /** The variables in conditions of removed conditionals that lie in no other. */
  function Outer(keep: set<Name>, p: PStmt): set<Name> {
    match p
    case PLet(_, _, _, body) => Outer(keep, body)
    case PIf(cond, a, b) => if Hollow(keep, p) then Names(cond) else Outer(keep, a) + Outer(keep, b)
    case PWhile(_, body, _) => Outer(keep, body)
    case PForEach(body, _) => Outer(keep, body)
    case PSeq(a, b) => Outer(keep, a) + Outer(keep, b)
    case _ => {}
  }

  /** Those in conditions of conditionals inside removed ones. */
  function Buried(keep: set<Name>, p: PStmt): set<Name> {
    match p
    case PLet(_, _, _, body) => Buried(keep, body)
    case PIf(_, a, b) => if Hollow(keep, p) then Uses(a) + Uses(b) else Buried(keep, a) + Buried(keep, b)
    case PWhile(_, body, _) => Buried(keep, body)
    case PForEach(body, _) => Buried(keep, body)
    case PSeq(a, b) => Buried(keep, a) + Buried(keep, b)
    case _ => {}
  }

  ghost predicate Accounts(keep: set<Name>, p: PStmt) {
    var c := Clear(Drop(keep, p));
    c.gone == Outer(keep, p) && Uses(p) == Uses(c.ast) + Outer(keep, p) + Buried(keep, p)
  }

  lemma IfAccounts(keep: set<Name>, p: PStmt)
    requires p.PIf? && Accounts(keep, p.thn) && Accounts(keep, p.els)
    ensures Accounts(keep, p)
  {
    if Hollow(keep, p) {
      HollowAccounts(keep, p);
    } else {
      StayingAccounts(keep, p);
    }
  }

  lemma HollowAccounts(keep: set<Name>, p: PStmt)
    requires p.PIf? && Hollow(keep, p)
    ensures Accounts(keep, p)
  {
    HollowGoes(keep, p);
    assert Uses(PSkip) == {} && Uses(p) == Names(p.cond) + Uses(p.thn) + Uses(p.els);
    assert Outer(keep, p) == Names(p.cond) && Buried(keep, p) == Uses(p.thn) + Uses(p.els);
  }

  lemma HollowGoes(keep: set<Name>, p: PStmt)
    requires p.PIf? && Hollow(keep, p)
    ensures Clear(Drop(keep, p)) == Cleared(PSkip, Names(p.cond), {})
  {
    var ca, cb := Clear(Drop(keep, p.thn)), Clear(Drop(keep, p.els));
    HollowClears(keep, p.thn);
    HollowClears(keep, p.els);
    EmptyIs(ca.ast);
    EmptyIs(cb.ast);
    IfClears(keep, p, ca, cb);
  }

  lemma StayingAccounts(keep: set<Name>, p: PStmt)
    requires p.PIf? && !Hollow(keep, p) && Accounts(keep, p.thn) && Accounts(keep, p.els)
    ensures Accounts(keep, p)
  {
    var ca, cb := Clear(Drop(keep, p.thn)), Clear(Drop(keep, p.els));
    IfStays(keep, p.thn, p.els);
    IfClears(keep, p, ca, cb);
    assert Outer(keep, p) == ca.gone + cb.gone && Buried(keep, p) == Buried(keep, p.thn) + Buried(keep, p.els);
    UsesJoin(Names(p.cond), Uses(p.thn), Uses(p.els), Uses(ca.ast), ca.gone, Buried(keep, p.thn), Uses(cb.ast), cb.gone, Buried(keep, p.els));
  }

  lemma IfClears(keep: set<Name>, p: PStmt, ca: Cleared, cb: Cleared)
    requires p.PIf? && ca == Clear(Drop(keep, p.thn)) && cb == Clear(Drop(keep, p.els))
    ensures Clear(Drop(keep, p)) ==
              if IsEmpty(ca.ast) && IsEmpty(cb.ast) then Cleared(PSkip, Names(p.cond), {})
              else Cleared(PIf(p.cond, ca.ast, cb.ast), ca.gone + cb.gone, Names(p.cond) + ca.still + cb.still)
  {
  }

  lemma UsesJoin(c: set<Name>, u: set<Name>, v: set<Name>, u1: set<Name>, u2: set<Name>, u3: set<Name>, v1: set<Name>, v2: set<Name>, v3: set<Name>)
    requires u == u1 + u2 + u3 && v == v1 + v2 + v3
    ensures c + u + v == (c + u1 + v1) + (u2 + v2) + (u3 + v3)
  {
  }

  lemma SeqAccounts(keep: set<Name>, p: PStmt)
    requires p.PSeq? && Accounts(keep, p.first) && Accounts(keep, p.rest)
    ensures Accounts(keep, p)
  {
    CollapseMentions(PSeq(Clear(Drop(keep, p.first)).ast, Clear(Drop(keep, p.rest)).ast));
  }

  lemma {:induction false} ClearAccounts(keep: set<Name>, p: PStmt)
    ensures Accounts(keep, p)
  {
    match p
    case PLet(_, _, _, body) => ClearAccounts(keep, body);
    case PIf(_, a, b) =>
      ClearAccounts(keep, a);
      ClearAccounts(keep, b);
      IfAccounts(keep, p);
    case PWhile(_, body, _) => ClearAccounts(keep, body);
    case PForEach(body, _) => ClearAccounts(keep, body);
    case PSeq(a, b) =>
      ClearAccounts(keep, a);
      ClearAccounts(keep, b);
      SeqAccounts(keep, p);
    case _ =>
  }

  /** A variable the pruned phase requires is used by it, or was looked at inside a removed conditional; and
      one that it does not use is required exactly if no outermost removed conditional looked at it. */
  lemma PruneNeeds(p: PStmt, x: Name)
    ensures var keep, q := Required(p, {}), Prune.Prune(p);
            && (x in q.needs ==> x in keep && (x in Uses(q.ast) || x in Buried(keep, p)))
            && (x in keep && x !in Uses(q.ast) ==> (x in q.needs <==> x !in Outer(keep, p)))
  {
    var keep := Required(p, {});
    var c := Clear(Drop(keep, p));
    RequiredCovers(p, {});
    ClearAccounts(keep, p);
    ClearMentions(Drop(keep, p));
    DropMentions(Prune.Prune(p).needs, c.ast);
  }
}
