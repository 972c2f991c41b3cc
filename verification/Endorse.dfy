/** Which variables have to be moved to an endorsement's own phase: a worklist over the bindings of
    a program. */
module Endorse {

  /** `Mark` is not a variable. It only fills the worklist at the start. */
  datatype Item = Mark | Variable(x: string)

  datatype Term = Nothing | Use(x: string) | Endorsed(x: string) | Both(a: Term, b: Term)

  /** A program, as far as data dependencies go. */
  datatype Code = Plain(e: Term) | Bind(x: string, e: Term) | Seq(a: Code, b: Code)

  datatype WorkList = WorkList(current: seq<Item>, seen: set<Item>)

  function Append(w: WorkList, i: Item): WorkList {
    if i in w.seen then w else WorkList(w.current + [i], w.seen + {i})
  }

  function AppendAll(w: WorkList, items: seq<Item>): WorkList
    decreases items
  {
    if items == [] then w else AppendAll(Append(w, items[0]), items[1..])
  }

  function Combine(a: WorkList, b: WorkList): WorkList {
    AppendAll(a, b.current)
  }

  function AddReferences(w: WorkList, e: Term): WorkList {
    match e
    case Nothing => w
    case Use(x) => Append(w, Variable(x))
    case Endorsed(x) => Append(w, Variable(x))
    case Both(a, b) => Combine(AddReferences(w, a), AddReferences(w, b))
  }

  function CollectTerm(w: WorkList, e: Term): WorkList {
    match e
    case Endorsed(x) => Append(w, Variable(x))
    case Both(a, b) => Combine(CollectTerm(w, a), CollectTerm(w, b))
    case _ => w
  }

  /** One round: everything endorsed, and everything the bindings of current items refer to. */
  function Collect(w: WorkList, c: Code): WorkList {
    match c
    case Plain(e) => CollectTerm(w, e)
    case Bind(x, e) => if Variable(x) in w.current then AddReferences(w, e) else CollectTerm(w, e)
    case Seq(a, b) => Combine(Collect(w, a), Collect(w, b))
  }

  function References(e: Term): set<string> {
    match e
    case Nothing => {}
    case Use(x) => {x}
    case Endorsed(x) => {x}
    case Both(a, b) => References(a) + References(b)
  }

  function EndorsedIn(e: Term): set<string> {
    match e
    case Endorsed(x) => {x}
    case Both(a, b) => EndorsedIn(a) + EndorsedIn(b)
    case _ => {}
  }

  function Endorsements(c: Code): set<string> {
    match c
    case Plain(e) => EndorsedIn(e)
    case Bind(_, e) => EndorsedIn(e)
    case Seq(a, b) => Endorsements(a) + Endorsements(b)
  }

  function Mentioned(c: Code): set<string> {
    match c
    case Plain(e) => References(e)
    case Bind(_, e) => References(e)
    case Seq(a, b) => Mentioned(a) + Mentioned(b)
  }

  function Items(xs: set<string>): set<Item> {
    set x | x in xs :: Variable(x)
  }

  // --- what a round adds ---

  /** `r` is `w` with more items at its end, none of which `w` had seen: items of `xs`, or of the
      list itself. */
  ghost predicate Extends(w: WorkList, r: WorkList, xs: set<string>) {
    && w.current <= r.current && w.seen <= r.seen
    && |r.current| + |w.seen| == |w.current| + |r.seen|
    && (forall i :: i in r.seen ==> i in w.seen || i in w.current || i in Items(xs))
    && (forall i :: i in r.current ==> i in w.current || i in r.seen)
    && (forall i :: i in r.seen ==> i in w.seen || i in r.current)
  }

  /** Whatever is in the list has been seen, but for the first two marks. */
  ghost predicate Sound(w: WorkList) {
    forall i :: i in w.current ==> i in w.seen || i == Mark
  }

  lemma ExtendsTrans(a: WorkList, b: WorkList, c: WorkList, xs: set<string>, ys: set<string>)
    requires Extends(a, b, xs) && Extends(b, c, ys)
    ensures Extends(a, c, xs + ys)
  {
  }

  lemma AppendExtends(w: WorkList, i: Item, xs: set<string>)
    requires i in w.current || i in Items(xs)
    ensures Extends(w, Append(w, i), xs) && i in Append(w, i).seen
  {
    if i !in w.seen {
      assert |w.seen + {i}| == |w.seen| + 1;
    }
  }

  lemma {:induction false} AppendAllExtends(w: WorkList, items: seq<Item>, xs: set<string>)
    requires forall i | i in items :: i in w.seen || i in w.current || i in Items(xs)
    ensures Extends(w, AppendAll(w, items), xs) && forall i | i in items :: i in AppendAll(w, items).seen
    decreases items
  {
    if items != [] {
      var w1 := Append(w, items[0]);
      if items[0] in w.seen { assert w1 == w; } else { AppendExtends(w, items[0], xs); }
      AppendAllExtends(w1, items[1..], xs);
      ExtendsTrans(w, w1, AppendAll(w, items), xs, xs);
      assert xs + xs == xs;
    }
  }

  /** Combining two extensions of a list loses nothing of either. */
  lemma CombineExtends(w: WorkList, a: WorkList, b: WorkList, xs: set<string>, ys: set<string>)
    requires Sound(w) && Extends(w, a, xs) && Extends(w, b, ys)
    ensures Extends(w, Combine(a, b), xs + ys)
    ensures a.seen <= Combine(a, b).seen && b.seen <= Combine(a, b).seen
  {
    forall i | i in b.current ensures i in a.seen || i in a.current || i in Items(ys) {
      assert i in w.current || i in b.seen;
    }
    AppendAllExtends(a, b.current, ys);
    ExtendsTrans(w, a, Combine(a, b), xs, ys);
    forall i | i in b.seen ensures i in Combine(a, b).seen {
      assert i in w.seen || i in b.current;
    }
  }

  lemma {:induction false} ReferencesAdded(w: WorkList, e: Term)
    requires Sound(w)
    ensures Extends(w, AddReferences(w, e), References(e)) && Items(References(e)) <= AddReferences(w, e).seen
  {
    match e
    case Nothing =>
    case Use(x) => AppendExtends(w, Variable(x), {x});
    case Endorsed(x) => AppendExtends(w, Variable(x), {x});
    case Both(a, b) =>
      ReferencesAdded(w, a);
      ReferencesAdded(w, b);
      CombineExtends(w, AddReferences(w, a), AddReferences(w, b), References(a), References(b));
      assert Items(References(e)) == Items(References(a)) + Items(References(b));
  }

  lemma {:induction false} EndorsedAdded(w: WorkList, e: Term)
    requires Sound(w)
    ensures Extends(w, CollectTerm(w, e), EndorsedIn(e)) && Items(EndorsedIn(e)) <= CollectTerm(w, e).seen
  {
    match e
    case Endorsed(x) => AppendExtends(w, Variable(x), {x});
    case Both(a, b) =>
      EndorsedAdded(w, a);
      EndorsedAdded(w, b);
      CombineExtends(w, CollectTerm(w, a), CollectTerm(w, b), EndorsedIn(a), EndorsedIn(b));
      assert Items(EndorsedIn(e)) == Items(EndorsedIn(a)) + Items(EndorsedIn(b));
    case _ =>
  }

  /** The variables that bindings of `xs` refer to. */
  function Needed(c: Code, xs: set<Item>): set<string> {
    match c
    case Plain(_) => {}
    case Bind(x, e) => if Variable(x) in xs then References(e) else {}
    case Seq(a, b) => Needed(a, xs) + Needed(b, xs)
  }

  function Current(w: WorkList): set<Item> {
    set i | i in w.current
  }

  /** One round adds exactly what is endorsed and what current items need. */
  lemma {:induction false} RoundIs(w: WorkList, c: Code)
    requires Sound(w)
    ensures var xs := Endorsements(c) + Needed(c, Current(w));
            Extends(w, Collect(w, c), xs) && Items(xs) <= Collect(w, c).seen
  {
    match c
    case Plain(e) =>
      EndorsedAdded(w, e);
    case Bind(x, e) =>
      EndorsedAdded(w, e);
      ReferencesAdded(w, e);
      EndorsedReferred(e);
    case Seq(a, b) =>
      RoundIs(w, a);
      RoundIs(w, b);
      var xs, ys := Endorsements(a) + Needed(a, Current(w)), Endorsements(b) + Needed(b, Current(w));
      CombineExtends(w, Collect(w, a), Collect(w, b), xs, ys);
      assert Endorsements(c) + Needed(c, Current(w)) == xs + ys;
      assert Items(xs + ys) == Items(xs) + Items(ys);
  }

  lemma {:induction false} EndorsedReferred(e: Term)
    ensures EndorsedIn(e) <= References(e)
  {
    if e.Both? {
      EndorsedReferred(e.a);
      EndorsedReferred(e.b);
    }
  }

  // --- all rounds ---

  function Universe(c: Code): set<Item> {
    {Mark} + Items(Mentioned(c))
  }

  ghost predicate Within(c: Code, w: WorkList) {
    Sound(w) && w.seen <= Universe(c)
  }

  lemma {:induction false} MentionedAll(c: Code, xs: set<Item>)
    ensures Endorsements(c) <= Mentioned(c) && Needed(c, xs) <= Mentioned(c)
  {
    match c
    case Plain(e) => EndorsedReferred(e);
    case Bind(_, e) => EndorsedReferred(e);
    case Seq(a, b) =>
      MentionedAll(a, xs);
      MentionedAll(b, xs);
  }

  /** The list a round starts from: its first item is dropped before the round, not after it. */
  function Drop(w: WorkList): WorkList
    requires w.current != []
  {
    WorkList(w.current[1..], w.seen)
  }

  /** A round either sees new items or shortens the list. */
  lemma RoundAdvances(c: Code, w: WorkList)
    requires Within(c, w) && w.current != []
    ensures var r := Collect(Drop(w), c);
            Within(c, r) && 2 * |Universe(c) - r.seen| + |r.current| < 2 * |Universe(c) - w.seen| + |w.current|
  {
    var u, d, r := Universe(c), Drop(w), Collect(Drop(w), c);
    forall i | i in d.current ensures i in d.seen || i == Mark {
      assert i in w.current;
    }
    RoundIs(d, c);
    MentionedAll(c, Current(d));
    assert |u - r.seen| == |u| - |r.seen| && |u - w.seen| == |u| - |w.seen| by {
      Parts(u, r.seen);
      Parts(u, w.seen);
    }
  }

  lemma Parts(u: set<Item>, s: set<Item>)
    requires s <= u
    ensures |u - s| == |u| - |s|
  {
    assert u == (u - s) + s;
  }

  /** Rounds until the list is empty: it always gets there. */
  function Run(c: Code, w: WorkList): set<Item>
    requires Within(c, w)
    decreases 2 * |Universe(c) - w.seen| + |w.current|
  {
    if w.current == [] then w.seen
    else
      RoundAdvances(c, w);
      Run(c, Collect(Drop(w), c))
  }

  const SEED := WorkList([Mark, Mark], {})

  function Variables(items: set<Item>): set<string> {
    set i | i in items && i != Mark :: i.x
  }

  /** The variables to be endorsed. */
  function PreEndorse(c: Code): set<string> {
    Variables(Run(c, SEED))
  }

  /** Closed under "the binding of a variable in the set refers only to the set". */
  predicate Closed(c: Code, xs: set<string>) {
    Endorsements(c) <= xs && Needed(c, Items(xs)) <= xs
  }

  ghost predicate Done(c: Code, i: Item, seen: set<Item>) {
    Items(Needed(c, {i})) <= seen
  }

  /** Between rounds: all items that have left the list are done with, and so is its first item.
      That is why dropping it early does no harm. */
  ghost predicate Progress(c: Code, w: WorkList) {
    && Within(c, w)
    && (w == SEED || (Items(Endorsements(c)) <= w.seen && forall i :: i in w.seen && i !in w.current ==> Done(c, i, w.seen)))
    && (w.current != [] ==> Done(c, w.current[0], w.seen))
  }

  lemma {:induction false} NeededOne(c: Code, i: Item, xs: set<Item>)
    ensures i in xs ==> Needed(c, {i}) <= Needed(c, xs)
    ensures i == Mark ==> Needed(c, {i}) == {}
  {
    if c.Seq? {
      NeededOne(c.a, i, xs);
      NeededOne(c.b, i, xs);
    }
  }

  lemma {:induction false} NeededFrom(c: Code, xs: set<Item>, x: string)
    requires x in Needed(c, xs)
    ensures exists i :: i in xs && x in Needed(c, {i})
  {
    match c
    case Plain(_) =>
    case Bind(y, _) => assert x in Needed(c, {Variable(y)});
    case Seq(a, b) =>
      if x in Needed(a, xs) {
        NeededFrom(a, xs, x);
        var i :| i in xs && x in Needed(a, {i});
        assert x in Needed(c, {i});
      } else {
        NeededFrom(b, xs, x);
        var i :| i in xs && x in Needed(b, {i});
        assert x in Needed(c, {i});
      }
  }

  lemma RoundProgress(c: Code, w: WorkList)
    requires Progress(c, w) && w.current != []
    ensures Progress(c, Collect(Drop(w), c))
  {
    var d, r := Drop(w), Collect(Drop(w), c);
    forall i | i in d.current ensures i in d.seen || i == Mark {
      assert i in w.current;
    }
    RoundAdvances(c, w);
    RoundIs(d, c);
    var xs := Endorsements(c) + Needed(c, Current(d));
    assert Items(Endorsements(c)) <= Items(xs) && Items(Needed(c, Current(d))) <= Items(xs);
    forall i | i in d.current ensures Done(c, i, r.seen) {
      assert i in Current(d);
      NeededOne(c, i, Current(d));
    }
    if d.current != [] {
      assert r.current[0] == d.current[0];
    }
    forall i | i in r.seen && i !in r.current ensures Done(c, i, r.seen) {
      assert i in w.seen && i !in d.current;
      if i !in w.current || i == w.current[0] {
        assert Done(c, i, w.seen);
      }
    }
    if d.current == [] {
      NeededNone(c);
      assert Current(d) == {} && xs == Endorsements(c);
      assert r.seen == w.seen;
    }
  }

  lemma {:induction false} NeededNone(c: Code)
    ensures Needed(c, {}) == {}
  {
    if c.Seq? {
      NeededNone(c.a);
      NeededNone(c.b);
    }
  }

  lemma {:induction false} RunCloses(c: Code, w: WorkList)
    requires Progress(c, w)
    ensures Closed(c, Variables(Run(c, w)))
    decreases 2 * |Universe(c) - w.seen| + |w.current|
  {
    if w.current == [] {
      var xs := Variables(w.seen);
      forall x | x in Endorsements(c) ensures x in xs {
        assert Variable(x) in Items(Endorsements(c));
      }
      forall x | x in Needed(c, Items(xs)) ensures x in xs {
        NeededFrom(c, Items(xs), x);
        var i :| i in Items(xs) && x in Needed(c, {i});
        var j :| j in w.seen && j != Mark && Variable(j.x) == i;
        assert j == Variable(j.x);
        assert Done(c, i, w.seen) && Variable(x) in Items(Needed(c, {i}));
      }
    } else {
      RoundAdvances(c, w);
      RoundProgress(c, w);
      RunCloses(c, Collect(Drop(w), c));
    }
  }

  ghost predicate Inside(w: WorkList, xs: set<string>) {
    (forall i :: i in w.seen && i != Mark ==> i.x in xs) && forall i :: i in w.current && i != Mark ==> i.x in xs
  }

  lemma {:induction false} NeededMore(c: Code, xs: set<Item>, ys: set<Item>)
    requires xs <= ys + {Mark}
    ensures Needed(c, xs) <= Needed(c, ys)
  {
    if c.Seq? {
      NeededMore(c.a, xs, ys);
      NeededMore(c.b, xs, ys);
    }
  }

  lemma {:induction false} RunIsLeast(c: Code, w: WorkList, xs: set<string>)
    requires Within(c, w) && Inside(w, xs) && Closed(c, xs)
    ensures forall i | i in Run(c, w) && i != Mark :: i.x in xs
    decreases 2 * |Universe(c) - w.seen| + |w.current|
  {
    if w.current != [] {
      var d, r := Drop(w), Collect(Drop(w), c);
      forall i | i in d.current ensures i in w.current {}
      RoundAdvances(c, w);
      RoundIs(d, c);
      forall i | i in Current(d) ensures i in Items(xs) + {Mark} {
        if i != Mark { assert i == Variable(i.x); }
      }
      NeededMore(c, Current(d), Items(xs));
      RunIsLeast(c, r, xs);
    }
  }

  /** The worklist computes the least set of variables that contains what is endorsed and is closed
      under the references of its bindings. */
  lemma PreEndorseIsLeast(c: Code)
    ensures Closed(c, PreEndorse(c))
    ensures forall xs | Closed(c, xs) :: PreEndorse(c) <= xs
  {
    NeededOne(c, Mark, {});
    RunCloses(c, SEED);
    forall xs | Closed(c, xs) ensures PreEndorse(c) <= xs {
      RunIsLeast(c, SEED, xs);
    }
  }

  /** With one mark to start from the result would not be closed: the first variable found would be
      dropped before its binding is looked at. */
  lemma TwoMarksAreNeeded(x: string, y: string)
    requires x != y
    ensures var c := Seq(Bind(x, Use(y)), Plain(Endorsed(x)));
            Within(c, WorkList([Mark], {})) && Run(c, WorkList([Mark], {})) == {Variable(x)} && !Closed(c, {x})
  {
    var c := Seq(Bind(x, Use(y)), Plain(Endorsed(x)));
    var w0 := WorkList([Mark], {});
    var e := WorkList([], {});
    var w1 := WorkList([Variable(x)], {Variable(x)});
    assert Drop(w0) == e && Collect(e, c.a) == e && Collect(e, c.b) == w1;
    assert Collect(e, c) == AppendAll(e, [Variable(x)]) == AppendAll(Append(e, Variable(x)), []) == w1;
    var w2 := WorkList([], {Variable(x)});
    assert Drop(w1) == w2 && Collect(w2, c.a) == w2 && Collect(w2, c.b) == w2;
    assert Collect(w2, c) == w2;
    RoundAdvances(c, w0);
    RoundAdvances(c, w1);
    assert Run(c, w1) == Run(c, w2) == {Variable(x)};
    assert y in Needed(c, Items({x})) by { assert Variable(x) in Items({x}); }
  }

  // --- what closed means ---

  /** A term and all terms inside it. */
  function Subterms(e: Term): set<Term> {
    if e.Both? then {e} + Subterms(e.a) + Subterms(e.b) else {e}
  }

  function Bindings(c: Code): set<(string, Term)> {
    match c
    case Plain(_) => {}
    case Bind(x, e) => {(x, e)}
    case Seq(a, b) => Bindings(a) + Bindings(b)
  }

  /** All terms of a program, bound or not. */
  function Terms(c: Code): set<Term> {
    match c
    case Plain(e) => Subterms(e)
    case Bind(_, e) => Subterms(e)
    case Seq(a, b) => Terms(a) + Terms(b)
  }

  predicate Mentions(e: Term, x: string) {
    Use(x) in Subterms(e) || Endorsed(x) in Subterms(e)
  }

  lemma {:induction false} TermIs(e: Term, x: string)
    ensures x in References(e) <==> Mentions(e, x)
    ensures x in EndorsedIn(e) <==> Endorsed(x) in Subterms(e)
  {
    if e.Both? {
      TermIs(e.a, x);
      TermIs(e.b, x);
    }
  }

  lemma {:induction false} CodeIs(c: Code, x: string, xs: set<string>)
    ensures x in Endorsements(c) <==> Endorsed(x) in Terms(c)
    ensures x in Needed(c, Items(xs)) <==> exists b :: b in Bindings(c) && b.0 in xs && Mentions(b.1, x)
  {
    match c
    case Plain(e) => TermIs(e, x);
    case Bind(y, e) =>
      TermIs(e, x);
      assert Variable(y) in Items(xs) <==> y in xs;
      assert (y, e) in Bindings(c);
    case Seq(a, b) =>
      CodeIs(a, x, xs);
      CodeIs(b, x, xs);
  }

  /** A set is closed exactly if it holds every variable that is endorsed anywhere, also in a binding, and
      every variable that the binding of one of its variables mentions. */
  lemma ClosedIs(c: Code, xs: set<string>)
    ensures Closed(c, xs) <==>
            && (forall x :: Endorsed(x) in Terms(c) ==> x in xs)
            && (forall b, x :: b in Bindings(c) && b.0 in xs && Mentions(b.1, x) ==> x in xs)
  {
    forall x ensures x in Endorsements(c) <==> Endorsed(x) in Terms(c) { CodeIs(c, x, xs); }
    forall x ensures x in Needed(c, Items(xs)) <==> exists b :: b in Bindings(c) && b.0 in xs && Mentions(b.1, x) { CodeIs(c, x, xs); }
  }
}
