/** What inference decides, said outright: a binding gets the weakest known label that flows into it. */
module InferencePaths {
  import opened Labels
  import opened Syntax
  import opened Symbolic
  import opened Solver
  import opened Inference
  import opened InferenceCorrect

  /** The known label `k` flows into the first of `ts`, and each of them into the next. */
  ghost predicate Path(cs: seq<Constraint>, k: Label, ts: seq<TempId>) {
    && ts != [] && Constraint(Con(k), Temp(ts[0])) in cs
    && forall i | 0 < i < |ts| :: Constraint(Temp(ts[i - 1]), Temp(ts[i])) in cs
  }

  ghost predicate Reaches(cs: seq<Constraint>, k: Label, t: TempId) {
    exists ts :: Path(cs, k, ts) && ts[|ts| - 1] == t
  }

  /** A label that reaches a binding bounds it. */
  lemma {:induction false} PathBounds(sigma: Assignment, cs: seq<Constraint>, k: Label, ts: seq<TempId>)
    requires SatAll(sigma, cs) && Path(cs, k, ts)
    ensures sigma(ts[|ts| - 1]) <= k
    decreases ts
  {
    if |ts| == 1 {
      assert Sat(sigma, Constraint(Con(k), Temp(ts[0])));
    } else {
      var before := ts[..|ts| - 1];
      assert Path(cs, k, before);
      PathBounds(sigma, cs, k, before);
      assert Sat(sigma, Constraint(Temp(ts[|ts| - 2]), Temp(ts[|ts| - 1])));
    }
  }

  lemma ReachBounds(sigma: Assignment, cs: seq<Constraint>, k: Label, t: TempId)
    requires SatAll(sigma, cs) && Reaches(cs, k, t)
    ensures sigma(t) <= k
  {
    var ts :| Path(cs, k, ts) && ts[|ts| - 1] == t;
    PathBounds(sigma, cs, k, ts);
  }

  lemma ReachStep(cs: seq<Constraint>, k: Label, t: TempId, u: TempId)
    requires Reaches(cs, k, t) && Constraint(Temp(t), Temp(u)) in cs
    ensures Reaches(cs, k, u)
  {
    var ts :| Path(cs, k, ts) && ts[|ts| - 1] == t;
    var next := ts + [u];
    forall i | 0 < i < |next| ensures Constraint(Temp(next[i - 1]), Temp(next[i])) in cs {
      if i < |ts| { assert next[i - 1] == ts[i - 1] && next[i] == ts[i]; }
    }
    assert Path(cs, k, next) && next[|next| - 1] == u;
  }

  /** The first of the labels that reaches `t`. */
  ghost function Weakest(labels: seq<Label>, cs: seq<Constraint>, t: TempId): Label {
    if labels == [] then TOP
    else if Reaches(cs, labels[0], t) then labels[0]
    else Weakest(labels[1..], cs, t)
  }

  lemma {:induction false} WeakestIs(labels: seq<Label>, cs: seq<Constraint>, t: TempId)
    requires Ascending(labels)
    ensures var w := Weakest(labels, cs, t); w == TOP || Reaches(cs, w, t)
    ensures forall k | k in labels && Reaches(cs, k, t) :: Weakest(labels, cs, t) <= k
    decreases labels
  {
    if labels != [] {
      assert Ascending(labels[1..]);
      WeakestIs(labels[1..], cs, t);
      forall k | k in labels && Reaches(cs, k, t) ensures Weakest(labels, cs, t) <= k {
        var i :| 0 <= i < |labels| && labels[i] == k;
        assert i > 0 ==> labels[0] < labels[i] && labels[i] == labels[1..][i - 1];
      }
    }
  }

  /** Labelling every binding with the weakest known label that reaches it meets the constraints, if
      anything does. */
  lemma WeakestMeets(labels: seq<Label>, cs: seq<Constraint>, sigma: Assignment, tau: Assignment)
    requires Solvable(labels, cs) && SatAll(sigma, cs) && forall t :: tau(t) == Weakest(labels, cs, t)
    ensures SatAll(tau, cs) && forall t :: sigma(t) <= tau(t)
  {
    forall t ensures sigma(t) <= tau(t) {
      WeakestIs(labels, cs, t);
      if tau(t) != TOP { ReachBounds(sigma, cs, tau(t), t); }
    }
    forall c | c in cs ensures Sat(tau, c) {
      assert Sat(sigma, c);
      if c.low.Temp? {
        WeakestIs(labels, cs, c.low.t);
        if c.high.Con? {
          assert Path(cs, c.high.c, [c.low.t]);
          assert Reaches(cs, c.high.c, c.low.t);
        } else {
          WeakestIs(labels, cs, c.high.t);
          if tau(c.high.t) != TOP {
            ReachStep(cs, tau(c.high.t), c.high.t, c.low.t);
            WeakestIn(labels, cs, c.high.t);
          }
        }
      }
    }
  }

  lemma {:induction false} WeakestIn(labels: seq<Label>, cs: seq<Constraint>, t: TempId)
    ensures Weakest(labels, cs, t) == TOP || Weakest(labels, cs, t) in labels
    decreases labels
  {
    if labels != [] { WeakestIn(labels[1..], cs, t); }
  }

  /** So the greatest such labelling is that one. */
  lemma GreatestIsWeakest(labels: seq<Label>, cs: seq<Constraint>, sigma: Assignment, t: TempId)
    requires Solvable(labels, cs) && SatAll(sigma, cs) && Constraint(Con(TOP), Temp(t)) in cs
    requires forall tau: Assignment | SatAll(tau, cs) :: tau(t) <= sigma(t)
    ensures Reaches(cs, sigma(t), t) && forall k | Reaches(cs, k, t) :: sigma(t) <= k
  {
    var tau: Assignment := u => Weakest(labels, cs, u);
    WeakestMeets(labels, cs, sigma, tau);
    assert tau(t) == sigma(t);
    WeakestIs(labels, cs, t);
    assert Path(cs, TOP, [t]) && [t][|[t]| - 1] == t;
    assert Reaches(cs, TOP, t);
    forall k | Reaches(cs, k, t) ensures sigma(t) <= k {
      ReachBounds(sigma, cs, k, t);
    }
  }

  /** What inference decides for a label is the weakest of the known labels that reach it through the
      constraints it is given. */
  lemma InferenceIsWeakestFlow(labels: seq<Label>, s: Stmt<Sym>, t: TempId)
    requires Checked(labels, s) && InferLabels(labels, s).Some? && t in AllTemps(LabelsOf(s))
    ensures Collapse(Collect(Con(TOP), s)).Some? && InferRounds(labels, Given(s), map[]).Some?
    ensures Reaches(Given(s), Solution(labels, s)(t), t)
    ensures forall k | Reaches(Given(s), k, t) :: Solution(labels, s)(t) <= k
  {
    var sigma := GreatestOf(labels, s, t);
    GreatestIsWeakest(labels, Given(s), sigma, t);
  }

  lemma GreatestOf(labels: seq<Label>, s: Stmt<Sym>, t: TempId) returns (sigma: Assignment)
    requires Checked(labels, s) && InferLabels(labels, s).Some? && t in AllTemps(LabelsOf(s))
    ensures Collapse(Collect(Con(TOP), s)).Some? && InferRounds(labels, Given(s), map[]).Some? && sigma == Solution(labels, s)
    ensures Solvable(labels, Given(s)) && SatAll(sigma, Given(s)) && Constraint(Con(TOP), Temp(t)) in Given(s)
    ensures forall tau: Assignment | SatAll(tau, Given(s)) :: tau(t) <= sigma(t)
  {
    InferenceIsGreatest(labels, s);
    GivenSolvable(labels, s);
    sigma := Solution(labels, s);
  }
}
