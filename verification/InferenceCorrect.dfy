/** Inference finds the strongest labelling that meets the collected constraints, or fails
    exactly when there is none. */
module InferenceCorrect {
  import opened Labels
  import opened Syntax
  import opened Symbolic
  import opened Solver
  import opened Inference

  // --- collapsing ---

  lemma {:induction false} FindConcreteBounds(sigma: Assignment, s: Sym)
    requires FindConcrete(s).Some?
    ensures Value(sigma, s) <= FindConcrete(s).value
  {
    if s.Min? {
      if FindConcrete(s.a).Some? { FindConcreteBounds(sigma, s.a); }
      if FindConcrete(s.b).Some? { FindConcreteBounds(sigma, s.b); }
    }
  }

  function Halve(cs: seq<Constraint>): seq<Constraint>
    requires cs != [] && cs[0].high.Min?
  {
    [Constraint(cs[0].high.a, cs[0].low)] + ([Constraint(cs[0].high.b, cs[0].low)] + cs[1..])
  }

  lemma HalveIn(cs: seq<Constraint>)
    requires cs != [] && cs[0].high.Min?
    ensures TotalSize(Halve(cs)) < TotalSize(cs)
    ensures forall c :: c in Halve(cs) <==> c == Constraint(cs[0].high.a, cs[0].low) || c == Constraint(cs[0].high.b, cs[0].low) || c in cs[1..]
  {
    assert Halve(cs)[1..] == [Constraint(cs[0].high.b, cs[0].low)] + cs[1..] && Halve(cs)[1..][1..] == cs[1..];
    assert TotalSize(Halve(cs)) == Size(cs[0].high.a) + (Size(cs[0].high.b) + TotalSize(cs[1..]));
  }

  function Parts(s: Sym): set<Sym> {
    if s.Min? then Parts(s.a) + Parts(s.b) else {s}
  }

  /** The known label inside a minimum that a collapsed constraint targets is the weakest one. */
  predicate IsTarget(s: Sym, t: Sym) {
    if s.Min? then t.Con? && t.c in Concretes(s) && forall k | k in Concretes(s) :: t.c <= k else t == s
  }

  lemma {:induction false} FindConcreteIs(s: Sym)
    ensures FindConcrete(s).None? <==> Concretes(s) == {}
    ensures FindConcrete(s).Some? ==> FindConcrete(s).value in Concretes(s) && forall k | k in Concretes(s) :: FindConcrete(s).value <= k
  {
    if s.Min? {
      FindConcreteIs(s.a);
      FindConcreteIs(s.b);
    }
  }

  /** `d` comes of `c`: a part of its source, and its target. */
  predicate ComesOf(c: Constraint, d: Constraint) {
    d.high in Parts(c.high) && IsTarget(c.low, d.low)
  }

  /** Collapsing leaves a constraint for each part of each source, and no other. */
  lemma {:induction false} CollapseIs(cs: seq<Constraint>, d: Constraint)
    requires Collapse(cs).Some?
    ensures d in Collapse(cs).value <==> exists c :: c in cs && ComesOf(c, d)
    decreases TotalSize(cs)
  {
    if cs == [] {
    } else if cs[0].high.Min? {
      HalveIn(cs);
      CollapseIs(Halve(cs), d);
      var a, b := Constraint(cs[0].high.a, cs[0].low), Constraint(cs[0].high.b, cs[0].low);
      assert ComesOf(cs[0], d) <==> ComesOf(a, d) || ComesOf(b, d);
      assert a in Halve(cs) && b in Halve(cs);
      assert forall c :: c in cs <==> c == cs[0] || c in cs[1..];
      assert Collapse(cs) == Collapse(Halve(cs));
    } else {
      CollapseIs(cs[1..], d);
      var ds := Collapse(cs).value;
      FindConcreteIs(cs[0].low);
      assert ds[1..] == Collapse(cs[1..]).value;
      assert d in ds <==> d == ds[0] || d in ds[1..];
      assert d == ds[0] <==> ComesOf(cs[0], d);
      assert forall c :: c in cs <==> c == cs[0] || c in cs[1..];
    }
  }

  /** Collapsing removes all minima and asks for at least as much; for nothing more, if no target
      was a minimum. */
  lemma {:induction false} CollapseMeans(sigma: Assignment, cs: seq<Constraint>)
    requires Collapse(cs).Some?
    ensures AllFlat(Collapse(cs).value)
    ensures SatAll(sigma, Collapse(cs).value) ==> SatAll(sigma, cs)
    ensures (forall c | c in cs :: !c.low.Min?) ==> (SatAll(sigma, cs) ==> SatAll(sigma, Collapse(cs).value))
    decreases TotalSize(cs)
  {
    if cs == [] {
    } else if cs[0].high.Min? {
      HalveIn(cs);
      CollapseMeans(sigma, Halve(cs));
      assert Sat(sigma, cs[0]) <==> Sat(sigma, Constraint(cs[0].high.a, cs[0].low)) && Sat(sigma, Constraint(cs[0].high.b, cs[0].low));
      assert forall c :: c in cs <==> c == cs[0] || c in cs[1..];
      assert Collapse(cs) == Collapse(Halve(cs));
      if SatAll(sigma, Collapse(cs).value) {
        assert Sat(sigma, cs[0]);
      }
    } else {
      CollapseMeans(sigma, cs[1..]);
      var ds := Collapse(cs).value;
      assert ds[1..] == Collapse(cs[1..]).value;
      assert forall c :: c in ds <==> c == ds[0] || c in ds[1..];
      assert forall c :: c in cs <==> c == cs[0] || c in cs[1..];
      if cs[0].low.Min? { FindConcreteBounds(sigma, cs[0].low); }
      if SatAll(sigma, ds) {
        assert Sat(sigma, ds[0]);
      }
    }
  }

  /** The minima inside a label, itself included. */
  function Minima(s: Sym): set<Sym> {
    if s.Min? then {s} + Minima(s.a) + Minima(s.b) else {}
  }

  /** Every minimum inside the label has a known label in it. */
  predicate AllKnown(s: Sym) {
    forall m | m in Minima(s) :: Concretes(m) != {}
  }

  lemma {:induction false} FindableIs(s: Sym)
    ensures Findable(s) <==> AllKnown(s)
  {
    if s.Min? {
      FindableIs(s.a);
      FindableIs(s.b);
      FindConcreteIs(s);
      assert s in Minima(s);
      assert AllKnown(s) <==> Concretes(s) != {} && AllKnown(s.a) && AllKnown(s.b);
    }
  }

  lemma {:induction false} CollapseFindable(cs: seq<Constraint>)
    ensures Collapse(cs).Some? <==> forall c | c in cs :: Findable(c.low)
    decreases TotalSize(cs)
  {
    if cs == [] {
    } else if cs[0].high.Min? {
      HalveIn(cs);
      CollapseFindable(Halve(cs));
      assert Collapse(cs) == Collapse(Halve(cs));
      assert Constraint(cs[0].high.a, cs[0].low) in Halve(cs);
      assert forall c :: c in cs <==> c == cs[0] || c in cs[1..];
    } else {
      CollapseFindable(cs[1..]);
      assert forall c :: c in cs <==> c == cs[0] || c in cs[1..];
    }
  }

  /** Collapsing fails exactly for want of a known label in a target that is a minimum, or in a minimum
      inside one. */
  lemma CollapseFails(cs: seq<Constraint>)
    ensures Collapse(cs).Some? <==> forall c | c in cs :: AllKnown(c.low)
    ensures forall c | c in cs :: Findable(c.low) <==> AllKnown(c.low)
  {
    CollapseFindable(cs);
    forall c | c in cs ensures Findable(c.low) <==> AllKnown(c.low) { FindableIs(c.low); }
  }

  /** Where a target is a minimum the collapsed constraints may ask for more: here a labelling meets
      the constraints, and none meets what collapsing makes of them. */
  lemma MinimumTargetsAskForMore(t: TempId, u: TempId)
    requires t != u
    ensures var cs := [Constraint(Temp(t), Min(Con(TOP), Temp(u))), Constraint(Con(BOTTOM), Temp(t))];
            && SatAll(k => BOTTOM, cs) && Collapse(cs).Some?
            && forall tau: Assignment :: !SatAll(tau, Collapse(cs).value)
  {
    var cs := [Constraint(Temp(t), Min(Con(TOP), Temp(u))), Constraint(Con(BOTTOM), Temp(t))];
    var rest := [Constraint(Con(BOTTOM), Temp(t))];
    assert cs[1..] == rest && rest[1..] == [] && Collapse([]) == Some([]);
    assert Findable(rest[0].low) && !rest[0].high.Min? && rest[0].low == Temp(t);
    assert rest + [] == rest && Collapse(rest) == Some([rest[0]] + []);
    assert FindConcrete(Con(TOP)) == Some(TOP) && FindConcrete(Temp(u)) == None;
    assert Findable(Con(TOP)) && Findable(Temp(u));
    assert FindConcrete(cs[0].low) == Some(TOP) && Findable(cs[0].low);
    var low: Assignment := k => BOTTOM;
    assert Sat(low, cs[0]) && Sat(low, cs[1]);
    var ds := [Constraint(Temp(t), Con(TOP))] + rest;
    assert Collapse(cs) == Some(ds);
    forall tau: Assignment ensures !SatAll(tau, ds) {
      assert ds[0] in ds && ds[1] in ds;
      assert !(Sat(tau, ds[0]) && Sat(tau, ds[1]));
    }
  }

  predicate PartOf(d: Constraint, c: Constraint) {
    Concretes(d.high) <= Concretes(c.high) && Temps(d.high) <= Temps(c.high) && Temps(d.low) <= Temps(c.low)
  }

  /** The parts of the collapsed constraints. */
  lemma {:induction false} CollapseParts(cs: seq<Constraint>)
    requires Collapse(cs).Some?
    ensures forall d | d in Collapse(cs).value :: exists c :: c in cs && PartOf(d, c)
    ensures forall c, k | c in cs && k in Concretes(c.high) && c.low.Temp? :: Constraint(Con(k), c.low) in Collapse(cs).value
    decreases TotalSize(cs)
  {
    if cs == [] {
    } else if cs[0].high.Min? {
      HalveIn(cs);
      CollapseParts(Halve(cs));
      assert Collapse(cs) == Collapse(Halve(cs));
      forall d | d in Collapse(cs).value
        ensures exists c :: c in cs && PartOf(d, c)
      {
        var c :| c in Halve(cs) && PartOf(d, c);
        if c !in cs[1..] {
          assert cs[0] in cs && PartOf(d, cs[0]);
        }
      }
      forall c, k | c in cs && k in Concretes(c.high) && c.low.Temp? ensures Constraint(Con(k), c.low) in Collapse(cs).value {
        if c == cs[0] {
          assert k in Concretes(c.high.a) || k in Concretes(c.high.b);
          assert Constraint(c.high.a, c.low) in Halve(cs) && Constraint(c.high.b, c.low) in Halve(cs);
        }
      }
    } else {
      CollapseParts(cs[1..]);
      var ds := Collapse(cs).value;
      assert ds[1..] == Collapse(cs[1..]).value;
      forall d | d in ds
        ensures exists c :: c in cs && PartOf(d, c)
      {
        if d == ds[0] {
          assert cs[0] in cs && PartOf(d, cs[0]);
        } else {
          assert d in ds[1..];
        }
      }
      forall c, k | c in cs && k in Concretes(c.high) && c.low.Temp? ensures Constraint(Con(k), c.low) in ds {
        if c == cs[0] {
          assert ds[0] == Constraint(Con(k), c.low);
        } else {
          assert c in cs[1..];
        }
      }
    }
  }

  // --- collecting ---

  /** The labels the program binds variables to. */
  function BoundLabels(s: Stmt<Sym>): set<Sym> {
    match s
    case Let(_, bl, _, _, body) => {bl} + BoundLabels(body)
    case If(_, _, a, b) => BoundLabels(a) + BoundLabels(b)
    case While(_, _, body, _) => BoundLabels(body)
    case Seq(_, a, b) => BoundLabels(a) + BoundLabels(b)
    case _ => {}
  }

  lemma {:induction false} FlowsFromIs(hs: seq<Sym>, low: Sym)
    ensures forall c :: c in FlowsFrom(hs, low) <==> c.low == low && c.high in hs
  {
    if hs != [] {
      FlowsFromIs(hs[1..], low);
    }
  }

  lemma ExprLabelIn(e: Expr<Sym>)
    ensures ExprLabel(e) in ExprOf(e)
  {
  }

  lemma RhsLabelIn(r: Rhs<Sym>)
    ensures RhsLabel(r) in RhsOf(r)
    ensures forall c | c in CollectRhs(r) :: c.high in RhsOf(r) && c.low.Con?
  {
    match r
    case Pure(e) => ExprLabelIn(e);
    case Remote(_, c) => FlowsFromIs(CallOf(c), Con(c.handleLabel));
  }

  /** What a context and a program are made of. */
  ghost predicate Within(c: Constraint, concretes: set<Label>, temps: set<TempId>) {
    Concretes(c.high) <= concretes && Temps(c.high) <= temps && Temps(c.low) <= temps
  }

  lemma PartsIn(ls: seq<Sym>, k: Sym)
    requires k in ls
    ensures Concretes(k) <= AllConcretes(ls) && Temps(k) <= AllTemps(ls)
  {
  }

  lemma PartsGrow(ls: seq<Sym>, ks: seq<Sym>)
    requires forall k | k in ls :: k in ks
    ensures AllConcretes(ls) <= AllConcretes(ks) && AllTemps(ls) <= AllTemps(ks)
  {
  }

  /** Constraints mention no label that is neither in the program nor in its context. */
  lemma {:induction false} CollectWithin(pc: Sym, s: Stmt<Sym>, concretes: set<Label>, temps: set<TempId>)
    requires Concretes(pc) <= concretes && Temps(pc) <= temps
    requires AllConcretes(LabelsOf(s)) <= concretes && AllTemps(LabelsOf(s)) <= temps
    ensures forall c | c in Collect(pc, s) :: Within(c, concretes, temps)
    decreases s
  {
    var ls := LabelsOf(s);
    match s
    case Let(l, bl, _, rhs, body) =>
      PartsIn(ls, bl);
      RhsLabelIn(rhs);
      forall k | k in RhsOf(rhs) ensures Concretes(k) <= concretes && Temps(k) <= temps { PartsIn(ls, k); }
      PartsGrow(LabelsOf(body), ls);
      CollectWithin(pc, body, concretes, temps);
    case Assign(l, r, e) =>
      PartsIn(ls, r.l);
      ExprLabelIn(e);
      PartsIn(ls, ExprLabel(e));
    case Perform(l, c) =>
      FlowsFromIs(CallOf(c), Con(c.handleLabel));
      forall k | k in CallOf(c) ensures Concretes(k) <= concretes && Temps(k) <= temps { PartsIn(ls, k); }
    case Return(_, _) =>
    case If(l, _, a, b) =>
      PartsIn(ls, l);
      PartsGrow(LabelsOf(a), ls);
      PartsGrow(LabelsOf(b), ls);
      CollectWithin(Min(pc, l), a, concretes, temps);
      CollectWithin(Min(pc, l), b, concretes, temps);
    case While(l, _, body, _) =>
      PartsIn(ls, l);
      PartsGrow(LabelsOf(body), ls);
      CollectWithin(Min(pc, l), body, concretes, temps);
    case Skip(_) =>
    case Seq(l, a, b) =>
      PartsGrow(LabelsOf(a), ls);
      PartsGrow(LabelsOf(b), ls);
      CollectWithin(pc, a, concretes, temps);
      CollectWithin(pc, b, concretes, temps);
  }

  /** Every binding is told the label of its context, which contains that of the outermost one. */
  lemma {:induction false} CollectBindings(pc: Sym, s: Stmt<Sym>, k: Label)
    requires k in Concretes(pc)
    ensures forall bl | bl in BoundLabels(s) :: exists c :: c in Collect(pc, s) && c.low == bl && k in Concretes(c.high)
    decreases s
  {
    match s
    case Let(_, bl, _, _, body) =>
      CollectBindings(pc, body, k);
      assert Constraint(pc, bl) in Collect(pc, s);
    case If(l, _, a, b) =>
      CollectBindings(Min(pc, l), a, k);
      CollectBindings(Min(pc, l), b, k);
    case While(l, _, body, _) => CollectBindings(Min(pc, l), body, k);
    case Seq(_, a, b) =>
      CollectBindings(pc, a, k);
      CollectBindings(pc, b, k);
    case _ =>
  }

  // --- replacing labels in the program ---

  /** Replacing a label by its value does not change what the program is labelled with. */
  lemma {:induction false} ReplaceKeepsRefs(sigma: Assignment, rs: seq<Ref<Sym>>, t: TempId, l: Label)
    requires sigma(t) == l
    ensures InstRefs(sigma, ReplaceRefs(rs, t, l)) == InstRefs(sigma, rs)
  {
    if rs != [] {
      ReplaceInValue(sigma, rs[0].l, t, l);
      ReplaceKeepsRefs(sigma, rs[1..], t, l);
      assert ReplaceRefs(rs, t, l)[1..] == ReplaceRefs(rs[1..], t, l);
    }
  }

  lemma {:induction false} ReplaceKeepsExpr(sigma: Assignment, e: Expr<Sym>, t: TempId, l: Label)
    requires sigma(t) == l
    ensures InstExpr(sigma, ReplaceExpr(e, t, l)) == InstExpr(sigma, e)
  {
    match e
    case Const(_) =>
    case Var(r) => ReplaceInValue(sigma, r.l, t, l);
    case Bin(k, _, a, b) =>
      ReplaceInValue(sigma, k, t, l);
      ReplaceKeepsExpr(sigma, a, t, l);
      ReplaceKeepsExpr(sigma, b, t, l);
  }

  lemma ReplaceKeepsCall(sigma: Assignment, c: Invoke<Sym>, t: TempId, l: Label)
    requires sigma(t) == l
    ensures InstCall(sigma, ReplaceCall(c, t, l)) == InstCall(sigma, c)
  {
    ReplaceInValue(sigma, c.handle.l, t, l);
    ReplaceKeepsRefs(sigma, c.args, t, l);
  }

  lemma {:induction false} ReplaceKeeps(sigma: Assignment, s: Stmt<Sym>, t: TempId, l: Label)
    requires sigma(t) == l
    ensures Instantiate(sigma, ReplaceLabel(s, t, l)) == Instantiate(sigma, s)
  {
    ReplaceInValue(sigma, s.l, t, l);
    match s
    case Let(_, bl, _, rhs, body) =>
      ReplaceInValue(sigma, bl, t, l);
      match rhs {
        case Pure(e) => ReplaceKeepsExpr(sigma, e, t, l);
        case Remote(k, c) =>
          ReplaceInValue(sigma, k, t, l);
          ReplaceKeepsCall(sigma, c, t, l);
      }
      ReplaceKeeps(sigma, body, t, l);
    case Assign(_, r, e) =>
      ReplaceInValue(sigma, r.l, t, l);
      ReplaceKeepsExpr(sigma, e, t, l);
    case Perform(_, c) => ReplaceKeepsCall(sigma, c, t, l);
    case Return(_, e) => ReplaceKeepsExpr(sigma, e, t, l);
    case If(_, cond, a, b) =>
      ReplaceKeepsExpr(sigma, cond, t, l);
      ReplaceKeeps(sigma, a, t, l);
      ReplaceKeeps(sigma, b, t, l);
    case While(_, cond, body, _) =>
      ReplaceKeepsExpr(sigma, cond, t, l);
      ReplaceKeeps(sigma, body, t, l);
    case Skip(_) =>
    case Seq(_, a, b) =>
      ReplaceKeeps(sigma, a, t, l);
      ReplaceKeeps(sigma, b, t, l);
  }

  /** All labels of a program after a replacement, in the same places. */
  function ReplaceAll(ls: seq<Sym>, t: TempId, l: Label): (r: seq<Sym>)
    ensures |r| == |ls| && forall i | 0 <= i < |ls| :: r[i] == ReplaceIn(ls[i], t, l)
  {
    seq(|ls|, i requires 0 <= i < |ls| => ReplaceIn(ls[i], t, l))
  }

  lemma {:induction false} ReplaceRefsLabels(rs: seq<Ref<Sym>>, t: TempId, l: Label)
    ensures RefsOf(ReplaceRefs(rs, t, l)) == ReplaceAll(RefsOf(rs), t, l)
  {
    if rs != [] {
      ReplaceRefsLabels(rs[1..], t, l);
      assert ReplaceRefs(rs, t, l)[1..] == ReplaceRefs(rs[1..], t, l);
    }
  }

  lemma {:induction false} ReplaceExprLabels(e: Expr<Sym>, t: TempId, l: Label)
    ensures ExprOf(ReplaceExpr(e, t, l)) == ReplaceAll(ExprOf(e), t, l)
  {
    if e.Bin? {
      ReplaceExprLabels(e.left, t, l);
      ReplaceExprLabels(e.right, t, l);
    }
  }

  lemma ReplaceAllJoin(ks: seq<Sym>, ls: seq<Sym>, t: TempId, l: Label)
    ensures ReplaceAll(ks + ls, t, l) == ReplaceAll(ks, t, l) + ReplaceAll(ls, t, l)
  {
  }

  lemma ReplaceAllJoins(ks: seq<Sym>, es: seq<Sym>, bs: seq<Sym>, t: TempId, l: Label)
    ensures ReplaceAll(ks + es + bs, t, l) == ReplaceAll(ks, t, l) + ReplaceAll(es, t, l) + ReplaceAll(bs, t, l)
  {
    ReplaceAllJoin(ks + es, bs, t, l);
    ReplaceAllJoin(ks, es, t, l);
  }

  lemma ReplaceRhsLabels(r: Rhs<Sym>, t: TempId, l: Label)
    ensures RhsOf(ReplaceRhs(r, t, l)) == ReplaceAll(RhsOf(r), t, l)
  {
    match r
    case Pure(e) => ReplaceExprLabels(e, t, l);
    case Remote(k, c) => ReplaceRefsLabels(c.args, t, l);
  }

  lemma {:induction false} ReplaceLabels(s: Stmt<Sym>, t: TempId, l: Label)
    ensures LabelsOf(ReplaceLabel(s, t, l)) == ReplaceAll(LabelsOf(s), t, l)
    decreases s, 1
  {
    match s
    case Let(k, bl, _, rhs, body) =>
      ReplaceRhsLabels(rhs, t, l);
      ReplaceLabels(body, t, l);
      ReplaceAllJoins([k, bl], RhsOf(rhs), LabelsOf(body), t, l);
    case Assign(_, _, e) => ReplaceExprLabels(e, t, l);
    case Perform(_, c) => ReplaceRefsLabels(c.args, t, l);
    case Return(_, e) => ReplaceExprLabels(e, t, l);
    case If(_, _, _, _) => ReplaceIfLabels(s, t, l);
    case While(_, _, _, _) => ReplaceWhileLabels(s, t, l);
    case Skip(_) =>
    case Seq(_, _, _) => ReplaceSeqLabels(s, t, l);
  }

  lemma {:induction false} ReplaceWhileLabels(s: Stmt<Sym>, t: TempId, l: Label)
    requires s.While?
    ensures LabelsOf(ReplaceLabel(s, t, l)) == ReplaceAll(LabelsOf(s), t, l)
    decreases s, 0
  {
    ReplaceExprLabels(s.cond, t, l);
    ReplaceLabels(s.body, t, l);
    ReplaceAllJoins([s.l], ExprOf(s.cond), LabelsOf(s.body), t, l);
  }

  lemma {:induction false} ReplaceSeqLabels(s: Stmt<Sym>, t: TempId, l: Label)
    requires s.Seq?
    ensures LabelsOf(ReplaceLabel(s, t, l)) == ReplaceAll(LabelsOf(s), t, l)
    decreases s, 0
  {
    ReplaceLabels(s.first, t, l);
    ReplaceLabels(s.rest, t, l);
    ReplaceAllJoins([s.l], LabelsOf(s.first), LabelsOf(s.rest), t, l);
  }

  lemma {:induction false} ReplaceIfLabels(s: Stmt<Sym>, t: TempId, l: Label)
    requires s.If?
    ensures LabelsOf(ReplaceLabel(s, t, l)) == ReplaceAll(LabelsOf(s), t, l)
    decreases s, 0
  {
    ReplaceExprLabels(s.cond, t, l);
    ReplaceLabels(s.thn, t, l);
    ReplaceLabels(s.els, t, l);
    ReplaceAllJoin(LabelsOf(s.thn), LabelsOf(s.els), t, l);
    ReplaceAllJoins([s.l], ExprOf(s.cond), LabelsOf(s.thn) + LabelsOf(s.els), t, l);
  }

  ghost predicate AllReduced(s: Stmt<Sym>) {
    forall k | k in LabelsOf(s) :: Reduced(k)
  }

  lemma ReplaceAllRemoves(ls: seq<Sym>, t: TempId, l: Label)
    requires forall k | k in ls :: Reduced(k)
    ensures forall k | k in ReplaceAll(ls, t, l) :: Reduced(k)
    ensures AllTemps(ReplaceAll(ls, t, l)) == AllTemps(ls) - {t}
  {
    var ks := ReplaceAll(ls, t, l);
    forall i | 0 <= i < |ls| ensures Reduced(ks[i]) && Temps(ks[i]) == Temps(ls[i]) - {t} {
      assert ls[i] in ls;
      ReplaceInReduced(ls[i], t, l);
    }
    forall u | u in AllTemps(ls) - {t} ensures u in AllTemps(ks) {
      var k :| k in ls && u in Temps(k);
      var i :| 0 <= i < |ls| && ls[i] == k;
      assert ks[i] in ks && u in Temps(ks[i]);
    }
    forall u | u in AllTemps(ks) ensures u in AllTemps(ls) - {t} {
      var k :| k in ks && u in Temps(k);
      var i :| 0 <= i < |ks| && ks[i] == k;
      assert ls[i] in ls && u in Temps(ls[i]);
    }
  }

  /** A replaced label is gone from the program. */
  lemma ReplaceRemoves(s: Stmt<Sym>, t: TempId, l: Label)
    requires AllReduced(s)
    ensures AllReduced(ReplaceLabel(s, t, l))
    ensures AllTemps(LabelsOf(ReplaceLabel(s, t, l))) == AllTemps(LabelsOf(s)) - {t}
  {
    ReplaceLabels(s, t, l);
    ReplaceAllRemoves(LabelsOf(s), t, l);
  }

  lemma {:induction false} ReplaceIdle(s: Stmt<Sym>, t: TempId, l: Label, sigma: Assignment)
    requires AllReduced(s) && t !in AllTemps(LabelsOf(s))
    ensures Instantiate(sigma, ReplaceLabel(s, t, l)) == Instantiate(sigma, s)
  {
    var tau: Assignment := u => if u == t then l else sigma(u);
    ReplaceKeeps(tau, s, t, l);
    ReplaceRemoves(s, t, l);
    InstantiateSame(sigma, tau, s);
    InstantiateSame(sigma, tau, ReplaceLabel(s, t, l));
  }

  lemma {:induction false} ValueSame(sigma: Assignment, tau: Assignment, k: Sym)
    requires forall t | t in Temps(k) :: sigma(t) == tau(t)
    ensures Value(sigma, k) == Value(tau, k)
  {
    if k.Min? {
      ValueSame(sigma, tau, k.a);
      ValueSame(sigma, tau, k.b);
    }
  }

  lemma {:induction false} RefsSame(sigma: Assignment, tau: Assignment, rs: seq<Ref<Sym>>)
    requires forall k | k in RefsOf(rs) :: Value(sigma, k) == Value(tau, k)
    ensures InstRefs(sigma, rs) == InstRefs(tau, rs)
  {
    if rs != [] {
      assert RefsOf(rs)[0] == rs[0].l && RefsOf(rs)[1..] == RefsOf(rs[1..]);
      RefsSame(sigma, tau, rs[1..]);
    }
  }

  lemma {:induction false} ExprSame(sigma: Assignment, tau: Assignment, e: Expr<Sym>)
    requires forall k | k in ExprOf(e) :: Value(sigma, k) == Value(tau, k)
    ensures InstExpr(sigma, e) == InstExpr(tau, e)
  {
    match e
    case Const(_) =>
    case Var(r) => assert r.l in ExprOf(e);
    case Bin(l, _, a, b) =>
      assert l in ExprOf(e);
      ExprSame(sigma, tau, a);
      ExprSame(sigma, tau, b);
  }

  lemma CallSame(sigma: Assignment, tau: Assignment, c: Invoke<Sym>)
    requires forall k | k in CallOf(c) :: Value(sigma, k) == Value(tau, k)
    ensures InstCall(sigma, c) == InstCall(tau, c)
  {
    assert CallOf(c)[0] == c.handle.l;
    RefsSame(sigma, tau, c.args);
  }

  lemma {:induction false} StmtSame(sigma: Assignment, tau: Assignment, s: Stmt<Sym>)
    requires forall k | k in LabelsOf(s) :: Value(sigma, k) == Value(tau, k)
    ensures Instantiate(sigma, s) == Instantiate(tau, s)
  {
    var ls := LabelsOf(s);
    assert s.l == ls[0];
    match s
    case Let(_, bl, _, rhs, body) =>
      assert bl == ls[1];
      match rhs {
        case Pure(e) => ExprSame(sigma, tau, e);
        case Remote(l, c) =>
          assert RhsOf(rhs)[0] == l;
          CallSame(sigma, tau, c);
      }
      StmtSame(sigma, tau, body);
    case Assign(_, r, e) =>
      assert r.l == ls[1];
      ExprSame(sigma, tau, e);
    case Perform(_, c) => CallSame(sigma, tau, c);
    case Return(_, e) => ExprSame(sigma, tau, e);
    case If(_, cond, a, b) =>
      ExprSame(sigma, tau, cond);
      StmtSame(sigma, tau, a);
      StmtSame(sigma, tau, b);
    case While(_, cond, body, _) =>
      ExprSame(sigma, tau, cond);
      StmtSame(sigma, tau, body);
    case Skip(_) =>
    case Seq(_, a, b) =>
      StmtSame(sigma, tau, a);
      StmtSame(sigma, tau, b);
  }

  /** Only the labels a program mentions matter to its instance. */
  lemma InstantiateSame(sigma: Assignment, tau: Assignment, s: Stmt<Sym>)
    requires forall t | t in AllTemps(LabelsOf(s)) :: sigma(t) == tau(t)
    ensures Instantiate(sigma, s) == Instantiate(tau, s)
  {
    forall k | k in LabelsOf(s) ensures Value(sigma, k) == Value(tau, k) {
      forall t | t in Temps(k) ensures sigma(t) == tau(t) {
        assert t in AllTemps(LabelsOf(s));
      }
      ValueSame(sigma, tau, k);
    }
    StmtSame(sigma, tau, s);
  }

  lemma {:induction false} ReplaceEachKeeps(sigma: Assignment, s: Stmt<Sym>, ts: seq<TempId>, l: Label)
    requires AllReduced(s) && forall t | t in ts && t in AllTemps(LabelsOf(s)) :: sigma(t) == l
    ensures var r := ReplaceEach(s, ts, l);
            && AllReduced(r) && Instantiate(sigma, r) == Instantiate(sigma, s)
            && AllTemps(LabelsOf(r)) == AllTemps(LabelsOf(s)) - (set t | t in ts)
    decreases ts
  {
    if ts != [] {
      var t := ts[0];
      ReplaceRemoves(s, t, l);
      if t in AllTemps(LabelsOf(s)) {
        ReplaceKeeps(sigma, s, t, l);
      } else {
        ReplaceIdle(s, t, l, sigma);
      }
      ReplaceEachKeeps(sigma, ReplaceLabel(s, t, l), ts[1..], l);
      assert forall u :: u in ts <==> u == t || u in ts[1..];
    }
  }

  // --- the rounds on the program and the decisions they amount to ---

  lemma {:induction false} DecisionsStand(labels: seq<Label>, cs: seq<Constraint>, chosen: Decisions)
    requires InferRounds(labels, cs, chosen).Some?
    ensures var final := InferRounds(labels, cs, chosen).value;
            forall t | t in chosen :: t in final && final[t] == chosen[t]
  {
    if labels != [] {
      var r := ReplaceAllLessThan(labels[0], Sort(cs)).value;
      DecideIs(chosen, r.replaced, labels[0]);
      DecisionsStand(labels[1..], r.cs, Decide(chosen, r.replaced, labels[0]));
    }
  }

  ghost predicate Extends(sigma: Assignment, chosen: Decisions) {
    forall t | t in chosen :: sigma(t) == chosen[t]
  }

  /** Rewriting round by round gives the instance under the final decisions. */
  lemma {:induction false} HelperInstantiates(labels: seq<Label>, s: Stmt<Sym>, cs: seq<Constraint>, chosen: Decisions, sigma: Assignment)
    requires AllReduced(s) && AllTemps(LabelsOf(s)) !! chosen.Keys
    requires InferRounds(labels, cs, chosen).Some? && Extends(sigma, InferRounds(labels, cs, chosen).value)
    ensures var r := InferHelper(labels, s, cs);
            && r.Some? && AllReduced(r.value)
            && Instantiate(sigma, r.value) == Instantiate(sigma, s)
            && AllTemps(LabelsOf(r.value)) == AllTemps(LabelsOf(s)) - InferRounds(labels, cs, chosen).value.Keys
    decreases labels
  {
    if labels != [] {
      var l := labels[0];
      var r := ReplaceAllLessThan(l, Sort(cs)).value;
      var next := Decide(chosen, r.replaced, l);
      DecideIs(chosen, r.replaced, l);
      DecisionsStand(labels[1..], r.cs, next);
      ReplaceEachKeeps(sigma, s, r.replaced, l);
      HelperInstantiates(labels[1..], ReplaceEach(s, r.replaced, l), r.cs, next, sigma);
    }
  }

  lemma {:induction false} HelperFails(labels: seq<Label>, s: Stmt<Sym>, cs: seq<Constraint>, chosen: Decisions)
    ensures InferHelper(labels, s, cs).Some? <==> InferRounds(labels, cs, chosen).Some?
    decreases labels
  {
    if labels != [] {
      var r := ReplaceAllLessThan(labels[0], Sort(cs));
      if r.Some? {
        HelperFails(labels[1..], ReplaceEach(s, r.value.replaced, labels[0]), r.value.cs, Decide(chosen, r.value.replaced, labels[0]));
      }
    }
  }

  // --- the main results ---

  /** What the type checker guarantees: minima are evaluated where they can be, labels still to be
      inferred belong to bindings, and something (a constant, an argument) is labelled `top`.
      `labels` lists the known labels, weakest first. */
  ghost predicate Checked(labels: seq<Label>, s: Stmt<Sym>) {
    && Ascending(labels)
    && AllReduced(s)
    && TOP in labels && (forall k | k in AllConcretes(LabelsOf(s)) :: k in labels)
    && (forall t | t in AllTemps(LabelsOf(s)) :: Temp(t) in BoundLabels(s))
  }

  /** No constraint targets a minimum. */
  ghost predicate PlainTargets(s: Stmt<Sym>) {
    forall c | c in Collect(Con(TOP), s) :: !c.low.Min?
  }

  function Given(s: Stmt<Sym>): seq<Constraint>
    requires Collapse(Collect(Con(TOP), s)).Some?
  {
    Minimize(Collapse(Collect(Con(TOP), s)).value)
  }

  /** The labelling inference decides on. */
  function Solution(labels: seq<Label>, s: Stmt<Sym>): Assignment
    requires Collapse(Collect(Con(TOP), s)).Some?
    requires InferRounds(labels, Given(s), map[]).Some?
  {
    var final := InferRounds(labels, Given(s), map[]).value;
    t => if t in final then final[t] else TOP
  }

  lemma GivenMeans(s: Stmt<Sym>, sigma: Assignment)
    requires Collapse(Collect(Con(TOP), s)).Some?
    ensures SatAll(sigma, Given(s)) ==> SatAll(sigma, Collect(Con(TOP), s))
    ensures PlainTargets(s) && SatAll(sigma, Collect(Con(TOP), s)) ==> SatAll(sigma, Given(s))
  {
    var cs := Collect(Con(TOP), s);
    CollapseMeans(sigma, cs);
    var ds := Collapse(cs).value;
    forall d | SatAll(sigma, Given(s)) && d in ds ensures Sat(sigma, d) {
      assert d.high != d.low ==> d in Given(s);
    }
  }

  /** The collapsed constraints suit the solver, and tell every label of the program to lie below
      `top`. */
  lemma GivenSolvable(labels: seq<Label>, s: Stmt<Sym>)
    requires Checked(labels, s) && Collapse(Collect(Con(TOP), s)).Some?
    ensures Solvable(labels, Given(s))
    ensures forall t | t in AllTemps(LabelsOf(s)) :: Constraint(Con(TOP), Temp(t)) in Given(s)
    ensures forall c | c in Given(s) :: Temps(c.high) + Temps(c.low) <= AllTemps(LabelsOf(s))
  {
    var cs := Collect(Con(TOP), s);
    var ds := Collapse(cs).value;
    CollapseMeans(t => TOP, cs);
    CollapseParts(cs);
    CollectWithin(Con(TOP), s, AllConcretes(LabelsOf(s)) + {TOP}, AllTemps(LabelsOf(s)));
    CollectBindings(Con(TOP), s, TOP);
    forall d | d in Given(s) ensures Flat(d) && (d.high.Con? ==> d.high.c in labels) && Temps(d.high) + Temps(d.low) <= AllTemps(LabelsOf(s)) {
      assert d in ds;
      var c :| c in cs && PartOf(d, c);
      assert Within(c, AllConcretes(LabelsOf(s)) + {TOP}, AllTemps(LabelsOf(s)));
      if d.high.Con? {
        assert d.high.c in Concretes(d.high);
      }
    }
    forall t | t in AllTemps(LabelsOf(s)) ensures Constraint(Con(TOP), Temp(t)) in Given(s) {
      var c :| c in cs && c.low == Temp(t) && TOP in Concretes(c.high);
    }
  }

  /** Every label to be inferred is decided. */
  lemma AllDecided(labels: seq<Label>, s: Stmt<Sym>)
    requires Checked(labels, s) && Collapse(Collect(Con(TOP), s)).Some?
    requires InferRounds(labels, Given(s), map[]).Some?
    ensures var final := InferRounds(labels, Given(s), map[]).value;
            && (forall c | c in Given(s) :: Holds(final, c))
            && AllTemps(LabelsOf(s)) <= final.Keys
  {
    var cs := Given(s);
    GivenSolvable(labels, s);
    assert labels[..0] == [] && labels[0..] == labels;
    forall c | c in cs ensures Accounted(map[], cs, c) {
      assert StandsFor(map[], c, c);
    }
    RoundsSound(labels, 0, cs, map[], BOTTOM, cs);
    var final := InferRounds(labels, cs, map[]).value;
    forall t | t in AllTemps(LabelsOf(s)) ensures t in final {
      assert Constraint(Con(TOP), Temp(t)) in cs;
    }
    forall c | c in cs ensures Holds(final, c) {
      if c.high.Temp? {
        assert c.high.t in Temps(c.high);
      }
    }
  }

  /** The inferred program carries no label still to be inferred. */
  lemma InferredIsKnown(labels: seq<Label>, s: Stmt<Sym>)
    requires Checked(labels, s) && InferLabels(labels, s).Some?
    ensures Collapse(Collect(Con(TOP), s)).Some? && InferRounds(labels, Given(s), map[]).Some?
    ensures var sigma, r := Solution(labels, s), InferLabels(labels, s).value;
            && (forall k | k in LabelsOf(r) :: k.Con?)
            && (forall tau: Assignment :: Instantiate(tau, r) == Instantiate(sigma, s))
  {
    HelperFails(labels, s, Given(s), map[]);
    var sigma, r := Solution(labels, s), InferLabels(labels, s).value;
    HelperInstantiates(labels, s, Given(s), map[], sigma);
    AllDecided(labels, s);
    assert AllTemps(LabelsOf(r)) == {};
    forall k | k in LabelsOf(r) ensures k.Con? {
      assert Temps(k) <= AllTemps(LabelsOf(r)) by { PartsIn(LabelsOf(r), k); }
      ReducedKnown(k);
    }
    forall tau: Assignment ensures Instantiate(tau, r) == Instantiate(sigma, s) {
      InstantiateSame(tau, sigma, r);
    }
  }

  lemma SolutionMeets(labels: seq<Label>, s: Stmt<Sym>)
    requires Checked(labels, s) && Collapse(Collect(Con(TOP), s)).Some?
    requires InferRounds(labels, Given(s), map[]).Some?
    ensures SatAll(Solution(labels, s), Given(s)) && SatAll(Solution(labels, s), Collect(Con(TOP), s))
  {
    var sigma, final := Solution(labels, s), InferRounds(labels, Given(s), map[]).value;
    AllDecided(labels, s);
    forall c | c in Given(s) ensures Sat(sigma, c) {
      assert Holds(final, c);
    }
    GivenMeans(s, sigma);
  }

  lemma SolutionIsGreatest(labels: seq<Label>, s: Stmt<Sym>, tau: Assignment)
    requires Checked(labels, s) && Collapse(Collect(Con(TOP), s)).Some? && SatAll(tau, Given(s))
    ensures InferRounds(labels, Given(s), map[]).Some?
    ensures forall t | t in AllTemps(LabelsOf(s)) :: tau(t) <= Solution(labels, s)(t)
  {
    GivenSolvable(labels, s);
    RoundsGreatest(labels, Given(s), map[], tau);
  }

  /** On success the inferred program is the instance of the original under a labelling that meets
      every collected constraint, those with minima as targets included. Every other labelling that
      meets what inference is given is weaker throughout; where no target is a minimum, every other
      labelling that meets the collected constraints is. */
  lemma InferenceIsGreatest(labels: seq<Label>, s: Stmt<Sym>)
    requires Checked(labels, s) && InferLabels(labels, s).Some?
    ensures Collapse(Collect(Con(TOP), s)).Some? && InferRounds(labels, Given(s), map[]).Some?
    ensures var sigma, r := Solution(labels, s), InferLabels(labels, s).value;
            && (forall k | k in LabelsOf(r) :: k.Con?)
            && (forall tau: Assignment :: Instantiate(tau, r) == Instantiate(sigma, s))
            && SatAll(sigma, Collect(Con(TOP), s)) && SatAll(sigma, Given(s))
            && (forall tau: Assignment, t | SatAll(tau, Given(s)) && t in AllTemps(LabelsOf(s)) :: tau(t) <= sigma(t))
    ensures PlainTargets(s) ==>
              forall tau: Assignment, t | SatAll(tau, Collect(Con(TOP), s)) && t in AllTemps(LabelsOf(s)) :: tau(t) <= Solution(labels, s)(t)
  {
    InferredIsKnown(labels, s);
    SolutionMeets(labels, s);
    forall tau: Assignment | SatAll(tau, Given(s))
      ensures forall t | t in AllTemps(LabelsOf(s)) :: tau(t) <= Solution(labels, s)(t)
    {
      SolutionIsGreatest(labels, s, tau);
    }
    forall tau: Assignment | PlainTargets(s) && SatAll(tau, Collect(Con(TOP), s)) ensures SatAll(tau, Given(s)) {
      GivenMeans(s, tau);
    }
  }

  /** Inference fails exactly when a minimum among the targets has no known part or no labelling meets
      what inference is given; where no target is a minimum, exactly when no labelling meets the
      collected constraints. */
  lemma InferenceFailsIff(labels: seq<Label>, s: Stmt<Sym>)
    requires Checked(labels, s)
    ensures InferLabels(labels, s).None? <==>
              (exists c :: c in Collect(Con(TOP), s) && !Findable(c.low))
              || (Collapse(Collect(Con(TOP), s)).Some? && forall tau: Assignment :: !SatAll(tau, Given(s)))
    ensures PlainTargets(s) ==> (InferLabels(labels, s).None? <==> forall tau: Assignment :: !SatAll(tau, Collect(Con(TOP), s)))
  {
    CollapseFails(Collect(Con(TOP), s));
    if Collapse(Collect(Con(TOP), s)).Some? {
      HelperFails(labels, s, Given(s), map[]);
      if InferLabels(labels, s).Some? {
        InferenceIsGreatest(labels, s);
        assert SatAll(Solution(labels, s), Given(s)) && SatAll(Solution(labels, s), Collect(Con(TOP), s));
      }
      forall tau: Assignment | InferLabels(labels, s).None? ensures !SatAll(tau, Given(s)) {
        GivenSolvable(labels, s);
        if SatAll(tau, Given(s)) {
          RoundsGreatest(labels, Given(s), map[], tau);
        }
      }
      forall tau: Assignment | PlainTargets(s) && SatAll(tau, Collect(Con(TOP), s)) ensures SatAll(tau, Given(s)) {
        GivenMeans(s, tau);
      }
    }
  }
}
