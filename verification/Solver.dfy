/** The constraint solver behind label inference. */
module Solver {
  import opened Labels
  import opened Syntax
  import opened Symbolic

  // --- the order constraints are processed in ---

  predicate LessThan(a: Sym, b: Sym) {
    if a.Temp? && b.Temp? then a.t.seqnum < b.t.seqnum || a.t.depth < b.t.depth
    else if b.Temp? then true
    else if a.Temp? then false
    else a.Con? && b.Con? && FlowsTo(b.c, a.c)
  }

  /** Not an order on constraints with known sources; but a constraint whose source is still to be
      inferred never comes before one whose source is known. */
  predicate Lte(c: Constraint, d: Constraint) {
    if c.high.Temp? then d.high.Temp? && LessThan(c.low, d.low)
    else if d.high.Temp? then true
    else LessThan(c.high, d.high) || LessThan(c.low, d.low)
  }

  function Insert(c: Constraint, cs: seq<Constraint>): (r: seq<Constraint>)
    ensures |r| == |cs| + 1 && forall d :: d in r <==> d == c || d in cs
  {
    if cs == [] || Lte(c, cs[0]) then [c] + cs
    else [cs[0]] + Insert(c, cs[1..])
  }

  function Sort(cs: seq<Constraint>): (r: seq<Constraint>)
    ensures |r| == |cs| && forall d :: d in r <==> d in cs
  {
    if cs == [] then [] else Insert(cs[0], Sort(cs[1..]))
  }

  /** Known sources first. */
  ghost predicate KnownFirst(cs: seq<Constraint>) {
    forall i, j | 0 <= i < j < |cs| && cs[i].high.Temp? :: cs[j].high.Temp?
  }

  lemma {:induction false} InsertKnownFirst(c: Constraint, cs: seq<Constraint>)
    requires KnownFirst(cs)
    ensures KnownFirst(Insert(c, cs))
  {
    if cs == [] || Lte(c, cs[0]) {
    } else {
      InsertKnownFirst(c, cs[1..]);
      var r := Insert(c, cs[1..]);
      if cs[0].high.Temp? {
        assert forall d | d in r :: d.high.Temp?;
      }
    }
  }

  lemma {:induction false} SortKnownFirst(cs: seq<Constraint>)
    ensures KnownFirst(Sort(cs))
  {
    if cs != [] {
      SortKnownFirst(cs[1..]);
      InsertKnownFirst(cs[0], Sort(cs[1..]));
    }
  }

  // --- dropping duplicates and trivial constraints ---

  function Dedupe(cs: seq<Constraint>): (r: seq<Constraint>)
    ensures forall d :: d in r <==> d in cs
  {
    if cs == [] then []
    else if cs[0] in cs[1..] then Dedupe(cs[1..])
    else [cs[0]] + Dedupe(cs[1..])
  }

  function RemoveReflexive(cs: seq<Constraint>): (r: seq<Constraint>)
    ensures forall d :: d in r <==> d in cs && d.high != d.low
  {
    if cs == [] then []
    else if cs[0].high == cs[0].low then RemoveReflexive(cs[1..])
    else [cs[0]] + RemoveReflexive(cs[1..])
  }

  function Minimize(cs: seq<Constraint>): (r: seq<Constraint>)
    ensures forall d :: d in r <==> d in cs && d.high != d.low
  {
    RemoveReflexive(Dedupe(cs))
  }

  // --- one round ---

  function Renamed(s: Sym, l: Label, t: TempId): Sym {
    if s == Temp(t) then Con(l) else s
  }

  function Substitute(cs: seq<Constraint>, l: Label, t: TempId): (r: seq<Constraint>)
    ensures |r| == |cs|
    ensures forall i | 0 <= i < |cs| :: r[i] == Constraint(Renamed(cs[i].high, l, t), Renamed(cs[i].low, l, t))
  {
    seq(|cs|, i requires 0 <= i < |cs| => Constraint(Renamed(cs[i].high, l, t), Renamed(cs[i].low, l, t)))
  }

  /** What a round leaves: the constraints for later rounds, and the temporary labels it has
      replaced, in order. */
  datatype Round = Round(cs: seq<Constraint>, replaced: seq<TempId>)

  /** Walks the list once for label `l`. A constraint from `l` to an unknown label decides that
      label, in the rest of the list only, which is then sorted again; a constraint from `l` to a
      known label is checked; the others are left for later. */
  function ReplaceAllLessThan(l: Label, cs: seq<Constraint>): Option<Round>
    decreases |cs|
  {
    if cs == [] then Some(Round([], []))
    else if cs[0].high == Con(l) && cs[0].low.Temp? then
      var t := cs[0].low.t;
      var r := ReplaceAllLessThan(l, Sort(Substitute(cs[1..], l, t)));
      if r.None? then None
      else Some(Round(Minimize([Constraint(Con(l), Con(l))] + r.value.cs), [t] + r.value.replaced))
    else if cs[0].high == Con(l) && !(cs[0].low.Con? && FlowsTo(l, cs[0].low.c)) then None
    else
      var r := ReplaceAllLessThan(l, cs[1..]);
      if r.None? then None
      else Some(Round(Minimize([cs[0]] + r.value.cs), r.value.replaced))
  }

  /** Constraints without minima. */
  predicate Flat(c: Constraint) {
    !c.high.Min? && !c.low.Min?
  }

  ghost predicate AllFlat(cs: seq<Constraint>) {
    forall c | c in cs :: Flat(c)
  }

  predicate Replaced(s: Sym, ts: seq<TempId>) {
    s.Temp? && s.t in ts
  }

  /** `c` holds once every label in `ts` is `l`. */
  predicate Settled(l: Label, ts: seq<TempId>, c: Constraint) {
    && (c.high == Con(l) || Replaced(c.high, ts))
    && (Replaced(c.low, ts) || (c.low.Con? && c.low.c <= l))
  }

  /** `d` is what a round that replaced `ts` by `l` may leave of `c`. */
  predicate Leaves(l: Label, ts: seq<TempId>, c: Constraint, d: Constraint) {
    && d.high == c.high && !Replaced(c.high, ts)
    && (d.low == c.low || (Replaced(c.low, ts) && d.low == Con(l)))
  }

  /** Nothing is lost: every constraint is settled, left, or trivial. */
  ghost predicate Kept(l: Label, ts: seq<TempId>, c: Constraint, after: seq<Constraint>) {
    Settled(l, ts, c) || c.high == c.low || exists d :: d in after && Leaves(l, ts, c, d)
  }

  /** What is left of a constraint from `l` has been checked; nothing replaced is a source. */
  predicate Tidy(l: Label, ts: seq<TempId>, d: Constraint) {
    && Flat(d) && !Replaced(d.high, ts)
    && (d.high == Con(l) ==> d.low.Con? && d.low.c <= l)
  }

  lemma {:induction false} NoKnownSource(l: Label, cs: seq<Constraint>)
    requires forall c | c in cs :: c.high.Temp?
    ensures var r := ReplaceAllLessThan(l, cs); r.Some? && r.value.replaced == []
    decreases |cs|
  {
    if cs != [] {
      NoKnownSource(l, cs[1..]);
    }
  }

  lemma SubstituteFlat(cs: seq<Constraint>, l: Label, t: TempId)
    requires AllFlat(cs)
    ensures AllFlat(Sort(Substitute(cs, l, t)))
  {
    var r := Substitute(cs, l, t);
    forall c | c in r ensures Flat(c) {
      var i :| 0 <= i < |r| && r[i] == c;
      assert cs[i] in cs;
    }
  }

  /** Where the constraints a round leaves come from. */
  lemma {:induction false} RoundOrigin(l: Label, cs: seq<Constraint>)
    requires ReplaceAllLessThan(l, cs).Some?
    ensures forall d | d in ReplaceAllLessThan(l, cs).value.cs && d.high != Con(l) ::
              exists c :: c in cs && c.high == d.high && (c.low == d.low || c.low.Temp?)
    decreases |cs|
  {
    if cs == [] {
    } else if cs[0].high == Con(l) && cs[0].low.Temp? {
      var t, rest := cs[0].low.t, cs[1..];
      var r := Substitute(rest, l, t);
      RoundOrigin(l, Sort(r));
      forall d | d in ReplaceAllLessThan(l, cs).value.cs && d.high != Con(l)
        ensures exists c :: c in cs && c.high == d.high && (c.low == d.low || c.low.Temp?)
      {
        var c :| c in r && c.high == d.high && (c.low == d.low || c.low.Temp?);
        var i :| 0 <= i < |r| && r[i] == c;
        assert rest[i] in cs && rest[i].high == d.high;
      }
    } else {
      RoundOrigin(l, cs[1..]);
    }
  }

  lemma {:induction false} RoundKeeps(l: Label, cs: seq<Constraint>)
    requires AllFlat(cs) && KnownFirst(cs)
    requires ReplaceAllLessThan(l, cs).Some?
    ensures var r := ReplaceAllLessThan(l, cs).value;
            && (forall c | c in cs :: Kept(l, r.replaced, c, r.cs))
            && (forall d | d in r.cs :: Tidy(l, r.replaced, d))
    decreases |cs|
  {
    if cs == [] {
    } else if cs[0].high == Con(l) && cs[0].low.Temp? {
      RoundKeepsReplacing(l, cs);
    } else {
      RoundKeepsLeaving(l, cs);
    }
  }

  lemma KeptRenamed(l: Label, t: TempId, ts: seq<TempId>, c: Constraint, after: seq<Constraint>, all: seq<Constraint>)
    requires Kept(l, ts, Constraint(Renamed(c.high, l, t), Renamed(c.low, l, t)), after)
    requires forall d | d in after :: Tidy(l, ts, d) && (d.high != d.low ==> d in all)
    ensures Kept(l, [t] + ts, c, all)
  {
    var c1 := Constraint(Renamed(c.high, l, t), Renamed(c.low, l, t));
    assert Replaced(Temp(t), [t] + ts) && forall u :: u in ts ==> u in [t] + ts;
    if !Settled(l, ts, c1) && c1.high != c1.low {
      var d :| d in after && Leaves(l, ts, c1, d);
      assert Tidy(l, ts, d);
      if !Settled(l, [t] + ts, c) && c.high != c.low {
        assert Leaves(l, [t] + ts, c, d);
      }
    }
  }

  lemma {:induction false} RoundKeepsReplacing(l: Label, cs: seq<Constraint>)
    requires AllFlat(cs) && KnownFirst(cs) && cs != []
    requires cs[0].high == Con(l) && cs[0].low.Temp? && ReplaceAllLessThan(l, cs).Some?
    ensures var r := ReplaceAllLessThan(l, cs).value;
            && (forall c | c in cs :: Kept(l, r.replaced, c, r.cs))
            && (forall d | d in r.cs :: Tidy(l, r.replaced, d))
    decreases |cs|, 0
  {
    var t, rest := cs[0].low.t, cs[1..];
    var next := Sort(Substitute(rest, l, t));
    SortKnownFirst(Substitute(rest, l, t));
    SubstituteFlat(rest, l, t);
    RoundKeeps(l, next);
    var r, r1 := ReplaceAllLessThan(l, cs).value, ReplaceAllLessThan(l, next).value;
    forall c | c in cs ensures Kept(l, r.replaced, c, r.cs) {
      if c != cs[0] {
        var i :| 0 <= i < |rest| && rest[i] == c;
        var c1 := Constraint(Renamed(c.high, l, t), Renamed(c.low, l, t));
        assert c1 == Substitute(rest, l, t)[i] && c1 in next;
        KeptRenamed(l, t, r1.replaced, c, r1.cs, r.cs);
      }
    }
    RoundOrigin(l, next);
    forall c | c in next ensures c.high != Temp(t) {
      var i :| 0 <= i < |rest| && Substitute(rest, l, t)[i] == c;
    }
    forall d | d in r.cs ensures Tidy(l, r.replaced, d) {
      assert d in r1.cs && Tidy(l, r1.replaced, d);
      assert d.high != Con(l) ==> exists c :: c in next && c.high == d.high && (c.low == d.low || c.low.Temp?);
    }
  }

  lemma {:induction false} RoundKeepsLeaving(l: Label, cs: seq<Constraint>)
    requires AllFlat(cs) && KnownFirst(cs) && cs != []
    requires !(cs[0].high == Con(l) && cs[0].low.Temp?) && ReplaceAllLessThan(l, cs).Some?
    ensures var r := ReplaceAllLessThan(l, cs).value;
            && (forall c | c in cs :: Kept(l, r.replaced, c, r.cs))
            && (forall d | d in r.cs :: Tidy(l, r.replaced, d))
    decreases |cs|, 0
  {
    var rest := cs[1..];
    RoundKeeps(l, rest);
    if cs[0].high.Temp? {
      NoKnownSource(l, rest);
    }
    var r, r1 := ReplaceAllLessThan(l, cs).value, ReplaceAllLessThan(l, rest).value;
    forall c | c in cs ensures Kept(l, r.replaced, c, r.cs) {
      if c == cs[0] {
        assert c.high != c.low ==> c in r.cs && Leaves(l, r.replaced, c, c);
      } else {
        assert c in rest && Kept(l, r1.replaced, c, r1.cs);
        if !Settled(l, r1.replaced, c) && c.high != c.low {
          var d :| d in r1.cs && Leaves(l, r1.replaced, c, d);
          assert d.high != d.low ==> d in r.cs;
        }
      }
    }
  }

  /** What a labelling still owes a constraint in the round of `l`: those to a known label no
      stronger than `l` are met by every labelling the solver can still reach. */
  predicate Owed(sigma: Assignment, l: Label, c: Constraint) {
    (c.low.Con? && c.low.c <= l) || Sat(sigma, c)
  }

  /** No labelling that meets the constraints is lost: the round does not fail, and what it
      decides is no weaker than any such labelling. */
  lemma {:induction false} RoundGreatest(l: Label, cs: seq<Constraint>, sigma: Assignment)
    requires AllFlat(cs) && forall c | c in cs :: Owed(sigma, l, c)
    ensures var r := ReplaceAllLessThan(l, cs);
            && r.Some?
            && (forall t | t in r.value.replaced :: sigma(t) <= l)
            && (forall d | d in r.value.cs :: Owed(sigma, l, d))
    decreases |cs|
  {
    if cs == [] {
    } else if cs[0].high == Con(l) && cs[0].low.Temp? {
      var t, rest := cs[0].low.t, cs[1..];
      var r := Substitute(rest, l, t);
      assert Owed(sigma, l, cs[0]) && sigma(t) <= l;
      forall c | c in r ensures Owed(sigma, l, c) {
        var i :| 0 <= i < |r| && r[i] == c;
        assert rest[i] in cs && Owed(sigma, l, rest[i]);
      }
      SubstituteFlat(rest, l, t);
      RoundGreatest(l, Sort(r), sigma);
    } else {
      assert Owed(sigma, l, cs[0]) && Flat(cs[0]);
      RoundGreatest(l, cs[1..], sigma);
    }
  }

  // --- all rounds ---

  /** Every unknown label decided so far, with its value; the first decision stands. */
  type Decisions = map<TempId, Label>

  function Decide(chosen: Decisions, ts: seq<TempId>, l: Label): Decisions
    decreases ts
  {
    if ts == [] then chosen
    else Decide(if ts[0] in chosen then chosen else chosen[ts[0] := l], ts[1..], l)
  }

  /** One round per label, weakest first. */
  function InferRounds(labels: seq<Label>, cs: seq<Constraint>, chosen: Decisions): Option<Decisions> {
    if labels == [] then Some(chosen)
    else
      var r := ReplaceAllLessThan(labels[0], Sort(cs));
      if r.None? then None
      else InferRounds(labels[1..], r.value.cs, Decide(chosen, r.value.replaced, labels[0]))
  }

  lemma {:induction false} DecideIs(chosen: Decisions, ts: seq<TempId>, l: Label)
    ensures Decide(chosen, ts, l).Keys == chosen.Keys + (set t | t in ts)
    ensures forall t | t in Decide(chosen, ts, l) :: Decide(chosen, ts, l)[t] == if t in chosen then chosen[t] else l
    decreases ts
  {
    if ts != [] {
      DecideIs(if ts[0] in chosen then chosen else chosen[ts[0] := l], ts[1..], l);
      assert forall t :: t in ts <==> t == ts[0] || t in ts[1..];
    }
  }

  function Now(chosen: Decisions, s: Sym): Sym {
    if s.Temp? && s.t in chosen then Con(chosen[s.t]) else s
  }

  predicate Holds(chosen: Decisions, c: Constraint) {
    var a, b := Now(chosen, c.high), Now(chosen, c.low);
    c.high == c.low || (a.Con? && b.Con? && a.c >= b.c)
  }

  /** `d` stands for `c`: it has the same source as `c` has by now, and asks at least as much. */
  predicate StandsFor(chosen: Decisions, c: Constraint, d: Constraint) {
    var b := Now(chosen, c.low);
    && d.high == Now(chosen, c.high)
    && (d.low == c.low || (d.low.Con? && b.Con? && d.low.c >= b.c))
  }

  ghost predicate Accounted(chosen: Decisions, cs: seq<Constraint>, c: Constraint) {
    Holds(chosen, c) || exists d :: d in cs && StandsFor(chosen, c, d)
  }

  /** Between rounds: decided labels are no stronger than `last` and no longer sources, and
      constraints from labels that had their round are checked. */
  ghost predicate Stage(chosen: Decisions, last: Label, done: set<Label>, cs: seq<Constraint>) {
    && (forall t | t in chosen :: chosen[t] <= last)
    && (forall d | d in cs :: Flat(d) && Now(chosen, d.high) == d.high)
    && (forall d | d in cs && d.high.Con? && d.high.c in done :: d.low.Con? && d.low.c <= d.high.c)
  }

  /** The decisions after a round: old ones stand, new ones are `l`. */
  ghost predicate Decided(chosen: Decisions, next: Decisions, ts: seq<TempId>, l: Label) {
    && (forall t :: t in next <==> t in chosen || t in ts)
    && (forall t | t in next :: next[t] == if t in chosen then chosen[t] else l)
  }

  /** A constraint the round settles holds from then on. */
  lemma SettledHolds(chosen: Decisions, next: Decisions, ts: seq<TempId>, last: Label, l: Label, c: Constraint, d: Constraint)
    requires Decided(chosen, next, ts, l) && last <= l && forall t | t in chosen :: chosen[t] <= last
    requires StandsFor(chosen, c, d) && Now(chosen, d.high) == d.high
    requires Settled(l, ts, d) || d.high == d.low
    ensures Holds(next, c)
  {
    if d.high == d.low && !Settled(l, ts, d) {
      if d.low == c.low {
        assert d.high.Temp? ==> c.high == d.high;
      }
    }
  }

  lemma AccountedNext(chosen: Decisions, last: Label, done: set<Label>, cs: seq<Constraint>, l: Label, c: Constraint)
    requires Stage(chosen, last, done, cs) && last <= l && Flat(c)
    requires ReplaceAllLessThan(l, Sort(cs)).Some? && Accounted(chosen, cs, c)
    ensures var r := ReplaceAllLessThan(l, Sort(cs)).value; Accounted(Decide(chosen, r.replaced, l), r.cs, c)
  {
    var r := ReplaceAllLessThan(l, Sort(cs)).value;
    var next := Decide(chosen, r.replaced, l);
    DecideIs(chosen, r.replaced, l);
    assert Decided(chosen, next, r.replaced, l);
    if !Holds(chosen, c) {
      var d :| d in cs && StandsFor(chosen, c, d);
      SortKnownFirst(cs);
      RoundKeeps(l, Sort(cs));
      assert d in Sort(cs) && Kept(l, r.replaced, d, r.cs);
      if Settled(l, r.replaced, d) || d.high == d.low {
        SettledHolds(chosen, next, r.replaced, last, l, c, d);
      } else {
        var e :| e in r.cs && Leaves(l, r.replaced, d, e);
        LeftStandsFor(chosen, next, r.replaced, last, l, c, d, e);
      }
    }
  }

  lemma LeftStandsFor(chosen: Decisions, next: Decisions, ts: seq<TempId>, last: Label, l: Label, c: Constraint, d: Constraint, e: Constraint)
    requires Decided(chosen, next, ts, l) && last <= l && forall t | t in chosen :: chosen[t] <= last
    requires StandsFor(chosen, c, d) && Leaves(l, ts, d, e)
    ensures StandsFor(next, c, e)
  {
  }

  lemma StageNext(chosen: Decisions, last: Label, done: set<Label>, cs: seq<Constraint>, l: Label)
    requires Stage(chosen, last, done, cs) && last <= l && (forall k | k in done :: k < l)
    requires ReplaceAllLessThan(l, Sort(cs)).Some?
    ensures var r := ReplaceAllLessThan(l, Sort(cs)).value; Stage(Decide(chosen, r.replaced, l), l, done + {l}, r.cs)
  {
    var r := ReplaceAllLessThan(l, Sort(cs)).value;
    var next := Decide(chosen, r.replaced, l);
    DecideIs(chosen, r.replaced, l);
    SortKnownFirst(cs);
    RoundKeeps(l, Sort(cs));
    RoundOrigin(l, Sort(cs));
    forall d | d in r.cs ensures Now(next, d.high) == d.high && (d.high.Con? && d.high.c in done + {l} ==> d.low.Con? && d.low.c <= d.high.c) {
      assert Tidy(l, r.replaced, d);
      if d.high != Con(l) {
        var c :| c in Sort(cs) && c.high == d.high && (c.low == d.low || c.low.Temp?);
        assert c in cs;
      }
    }
    forall d | d in r.cs ensures Flat(d) {
      assert Tidy(l, r.replaced, d);
    }
  }

  function Elements(labels: seq<Label>): set<Label> {
    set k | k in labels
  }

  predicate Ascending(labels: seq<Label>) {
    forall i, j | 0 <= i < j < |labels| :: labels[i] < labels[j]
  }

  /** What the solver is given: constraints without minima, from the labels that get a round. */
  ghost predicate Solvable(labels: seq<Label>, cs: seq<Constraint>) {
    && Ascending(labels) && AllFlat(cs)
    && forall c | c in cs && c.high.Con? :: c.high.c in labels
  }

  /** From any stage on, the remaining rounds leave every constraint holding. */
  lemma {:induction false} RoundsSound(labels: seq<Label>, i: nat, cs: seq<Constraint>, chosen: Decisions, last: Label, original: seq<Constraint>)
    requires i <= |labels| && Solvable(labels, cs) && AllFlat(original)
    requires Stage(chosen, last, Elements(labels[..i]), cs)
    requires i < |labels| ==> last <= labels[i]
    requires forall c | c in original :: Accounted(chosen, cs, c)
    requires InferRounds(labels[i..], cs, chosen).Some?
    ensures var final := InferRounds(labels[i..], cs, chosen).value;
            forall c | c in original :: Holds(final, c) || Now(final, c.high).Temp?
    decreases |labels| - i
  {
    if i == |labels| {
      assert labels[..i] == labels;
      forall c | c in original && Now(chosen, c.high).Con? ensures Holds(chosen, c) {
        assert Accounted(chosen, cs, c);
      }
    } else {
      var l := labels[i];
      var r := ReplaceAllLessThan(l, Sort(cs)).value;
      var next := Decide(chosen, r.replaced, l);
      assert labels[i..][0] == l && labels[i..][1..] == labels[i + 1..];
      StageNext(chosen, last, Elements(labels[..i]), cs, l);
      assert Elements(labels[..i + 1]) == Elements(labels[..i]) + {l};
      forall c | c in original ensures Accounted(next, r.cs, c) {
        AccountedNext(chosen, last, Elements(labels[..i]), cs, l, c);
      }
      RoundOrigin(l, Sort(cs));
      RoundsSound(labels, i + 1, r.cs, next, l, original);
    }
  }

  /** A labelling that still meets everything bounds every decision and survives every round. */
  lemma {:induction false} RoundsGreatest(labels: seq<Label>, cs: seq<Constraint>, chosen: Decisions, sigma: Assignment)
    requires Ascending(labels) && AllFlat(cs)
    requires forall t | t in chosen :: sigma(t) <= chosen[t]
    requires labels != [] ==> forall c | c in cs :: Owed(sigma, labels[0], c)
    ensures InferRounds(labels, cs, chosen).Some?
    ensures forall t | t in InferRounds(labels, cs, chosen).value :: sigma(t) <= InferRounds(labels, cs, chosen).value[t]
  {
    if labels != [] {
      var l := labels[0];
      RoundGreatest(l, Sort(cs), sigma);
      var r := ReplaceAllLessThan(l, Sort(cs)).value;
      DecideIs(chosen, r.replaced, l);
      SortKnownFirst(cs);
      RoundKeeps(l, Sort(cs));
      forall d | d in r.cs ensures Flat(d) && (labels[1..] != [] ==> Owed(sigma, labels[1..][0], d)) {
        assert Tidy(l, r.replaced, d) && Owed(sigma, l, d);
      }
      RoundsGreatest(labels[1..], r.cs, Decide(chosen, r.replaced, l), sigma);
    }
  }
}
