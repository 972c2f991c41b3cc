/** What minimizing a list of constraints leaves: each of them once, the last occurrence. */
module SolverLists {
  import opened Symbolic
  import opened Solver

  /** `r` lists the elements of `cs` at the places `at`, in order. */
  ghost predicate ListedAt(cs: seq<Constraint>, r: seq<Constraint>, at: seq<nat>) {
    && |at| == |r| && (forall i | 0 <= i < |at| :: at[i] < |cs| && cs[at[i]] == r[i])
    && forall i, j | 0 <= i < j < |at| :: at[i] < at[j]
  }

  /** None of the places is followed by the same element. */
  ghost predicate LastOnes(cs: seq<Constraint>, at: seq<nat>) {
    forall i, k | 0 <= i < |at| && at[i] < k < |cs| :: cs[k] != cs[at[i]]
  }

  function Later(at: seq<nat>): (r: seq<nat>)
    ensures |r| == |at| && forall i | 0 <= i < |at| :: r[i] == at[i] + 1
  {
    seq(|at|, i requires 0 <= i < |at| => at[i] + 1)
  }

  lemma LaterListed(cs: seq<Constraint>, r: seq<Constraint>, at: seq<nat>)
    requires cs != [] && ListedAt(cs[1..], r, at)
    ensures ListedAt(cs, r, Later(at)) && ListedAt(cs, [cs[0]] + r, [0] + Later(at))
  {
    var l, m, q := Later(at), [0] + Later(at), [cs[0]] + r;
    forall i | 0 <= i < |at| ensures l[i] < |cs| && cs[l[i]] == r[i] {
      assert cs[1..][at[i]] == cs[at[i] + 1];
    }
    forall i | 0 <= i < |m| ensures m[i] < |cs| && cs[m[i]] == q[i] {
      assert i > 0 ==> m[i] == l[i - 1] && q[i] == r[i - 1];
    }
    forall i, j | 0 <= i < j < |m| ensures m[i] < m[j] {
      assert m[j] == l[j - 1] && (i > 0 ==> m[i] == l[i - 1]);
    }
  }

  lemma LaterLast(cs: seq<Constraint>, at: seq<nat>)
    requires cs != [] && LastOnes(cs[1..], at) && forall i | 0 <= i < |at| :: at[i] < |cs| - 1
    ensures LastOnes(cs, Later(at)) && (cs[0] !in cs[1..] ==> LastOnes(cs, [0] + Later(at)))
  {
    var l, m := Later(at), [0] + Later(at);
    forall i, k | 0 <= i < |l| && l[i] < k < |cs| ensures cs[k] != cs[l[i]] {
      assert cs[1..][k - 1] == cs[k] && cs[1..][at[i]] == cs[l[i]];
    }
    forall i, k | cs[0] !in cs[1..] && 0 <= i < |m| && m[i] < k < |cs| ensures cs[k] != cs[m[i]] {
      assert i > 0 ==> m[i] == l[i - 1];
      assert cs[k] == cs[1..][k - 1] && cs[k] in cs[1..];
    }
  }

  lemma {:induction false} DedupeKeepsLast(cs: seq<Constraint>) returns (at: seq<nat>)
    ensures ListedAt(cs, Dedupe(cs), at) && LastOnes(cs, at)
  {
    if cs == [] {
      at := [];
    } else {
      var rest := DedupeKeepsLast(cs[1..]);
      LaterListed(cs, Dedupe(cs[1..]), rest);
      LaterLast(cs, rest);
      at := if cs[0] in cs[1..] then Later(rest) else [0] + Later(rest);
    }
  }

  lemma {:induction false} ReflexiveGo(cs: seq<Constraint>) returns (at: seq<nat>)
    ensures ListedAt(cs, RemoveReflexive(cs), at)
  {
    if cs == [] {
      at := [];
    } else {
      var rest := ReflexiveGo(cs[1..]);
      LaterListed(cs, RemoveReflexive(cs[1..]), rest);
      at := if cs[0].high == cs[0].low then Later(rest) else [0] + Later(rest);
    }
  }

  /** A minimized list holds each constraint that is not trivial exactly once, where it occurred last, in the
      order of those places. */
  lemma MinimizeKeepsLast(cs: seq<Constraint>) returns (at: seq<nat>)
    ensures ListedAt(cs, Minimize(cs), at) && LastOnes(cs, at)
    ensures forall i, j | 0 <= i < j < |Minimize(cs)| :: Minimize(cs)[i] != Minimize(cs)[j]
    ensures forall d :: d in Minimize(cs) <==> d in cs && d.high != d.low
  {
    var ds, r := Dedupe(cs), Minimize(cs);
    var first := DedupeKeepsLast(cs);
    var second := ReflexiveGo(ds);
    at := seq(|second|, i requires 0 <= i < |second| => first[second[i]]);
    forall i, j | 0 <= i < j < |r| ensures r[i] != r[j] {
      assert at[i] < at[j] && cs[at[j]] == r[j] && cs[at[i]] == r[i];
    }
  }
}
