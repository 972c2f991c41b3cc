/** When the compiler's names and ids are distinct: it numbers them by place, and places in neighbouring
    blocks can coincide. */
module OwnNames {
  import opened Labels
  import opened Syntax
  import opened Symbolic
  import opened Flatten
  import opened DesugarCorrect
  import opened Complete
  import opened EndToEnd
  import opened Semantics
  import opened Typecheck
  import opened Inference
  import opened Compile
  import W = WellLabelled

  /** Nothing is bound in an else-branch or behind the first statement of a list. */
  predicate Keeps<L>(s: Stmt<L>) {
    match s
    case Let(_, _, _, _, body) => Keeps(body)
    case If(_, _, a, b) => Keeps(a) && W.Bound(b) == {}
    case While(_, _, body, _) => Keeps(body)
    case Seq(_, a, b) => Keeps(a) && W.Bound(b) == {}
    case _ => true
  }

  /** Where something is bound in an else-branch or further on in a list, what comes before it binds only
      along its own line. */
  predicate Stepwise<L>(s: Stmt<L>) {
    match s
    case Let(_, _, _, _, body) => Stepwise(body)
    case If(_, _, a, b) => Stepwise(a) && Stepwise(b) && (Keeps(a) || W.Bound(b) == {})
    case While(_, _, body, _) => Stepwise(body)
    case Seq(_, a, b) => Stepwise(a) && Stepwise(b) && (Keeps(a) || W.Bound(b) == {})
    case _ => true
  }

  lemma {:induction false} NothingKeeps<L>(s: Stmt<L>)
    requires W.Bound(s) == {}
    ensures Keeps(s) && Stepwise(s)
  {
    match s
    case If(_, _, a, b) =>
      NothingKeeps(a);
      NothingKeeps(b);
    case While(_, _, body, _) => NothingKeeps(body);
    case Seq(_, a, b) =>
      NothingKeeps(a);
      NothingKeeps(b);
    case _ =>
  }

  // --- ids of labels ---

  lemma {:induction false} NoIds<L>(seqnum: int, depth: int, s: Stmt<L>)
    requires W.Bound(s) == {}
    ensures Ids(seqnum, depth, s) == {}
    decreases s
  {
    match s
    case If(_, _, a, b) =>
      NoIds(seqnum + 1, depth + 1, a);
      NoIds(seqnum + 2, depth + 1, b);
    case While(_, _, body, _) => NoIds(seqnum + 1, depth + 1, body);
    case Seq(_, a, b) =>
      NoIds(seqnum, depth, a);
      NoIds(seqnum + 1, depth, b);
    case _ =>
  }

  /** Sequence number and depth grow together along a line. */
  lemma {:induction false} IdsPlaced<L>(seqnum: int, depth: int, s: Stmt<L>)
    ensures forall t | t in Ids(seqnum, depth, s) :: t.depth >= depth && t.seqnum - t.depth >= seqnum - depth
    ensures Keeps(s) ==> forall t | t in Ids(seqnum, depth, s) :: t.seqnum - t.depth == seqnum - depth
    decreases s
  {
    match s
    case Let(_, _, _, _, body) => IdsPlaced(seqnum + 1, depth + 1, body);
    case If(_, _, a, b) =>
      IdsPlaced(seqnum + 1, depth + 1, a);
      IdsPlaced(seqnum + 2, depth + 1, b);
      if Keeps(s) { NoIds(seqnum + 2, depth + 1, b); }
    case While(_, _, body, _) => IdsPlaced(seqnum + 1, depth + 1, body);
    case Seq(_, a, b) =>
      IdsPlaced(seqnum, depth, a);
      IdsPlaced(seqnum + 1, depth, b);
      if Keeps(s) { NoIds(seqnum + 1, depth, b); }
    case _ =>
  }

  /** Then every binding has an id of its own. */
  lemma {:induction false} StepwiseOwns<L>(seqnum: int, depth: int, s: Stmt<L>)
    requires Stepwise(s)
    ensures OwnIds(seqnum, depth, s)
    decreases s
  {
    match s
    case Let(_, _, _, _, body) =>
      StepwiseOwns(seqnum + 1, depth + 1, body);
      IdsPlaced(seqnum + 1, depth + 1, body);
    case If(_, _, a, b) =>
      StepwiseOwns(seqnum + 1, depth + 1, a);
      StepwiseOwns(seqnum + 2, depth + 1, b);
      IdsPlaced(seqnum + 1, depth + 1, a);
      IdsPlaced(seqnum + 2, depth + 1, b);
      if !Keeps(a) { NoIds(seqnum + 2, depth + 1, b); }
    case While(_, _, body, _) => StepwiseOwns(seqnum + 1, depth + 1, body);
    case Seq(_, a, b) =>
      StepwiseOwns(seqnum, depth, a);
      StepwiseOwns(seqnum + 1, depth, b);
      IdsPlaced(seqnum, depth, a);
      IdsPlaced(seqnum + 1, depth, b);
      if !Keeps(a) { NoIds(seqnum + 1, depth, b); }
    case _ =>
  }

  // --- names ---

  type Kind = Name -> bool

  const Operation: Kind := (x: Name) => x.Anorm?
  const LoopFlag: Kind := (x: Name) => x.Flag?

  /** No name of the kind is bound twice. */
  ghost predicate Once<L>(kind: Kind, s: Stmt<L>) {
    match s
    case Let(_, _, x, _, body) => (kind(x) ==> x !in W.Bound(body)) && Once(kind, body)
    case If(_, _, a, b) => Once(kind, a) && Once(kind, b) && forall x | x in W.Bound(a) && x in W.Bound(b) :: !kind(x)
    case While(_, _, body, _) => Once(kind, body)
    case Seq(_, a, b) => Once(kind, a) && Once(kind, b) && forall x | x in W.Bound(a) && x in W.Bound(b) :: !kind(x)
    case _ => true
  }

  /** Where the generated names of a statement come from. */
  ghost predicate Placed<L>(kind: Kind, seqnum: int, depth: int, s: Stmt<L>) {
    forall x | x in W.Bound(s) && kind(x) :: NumberOf(x) >= seqnum && DepthOf(x) >= depth && (Keeps(s) ==> NumberOf(x) == seqnum)
  }

  function NumberOf(x: Name): int {
    match x
    case Anorm(seqnum, _) => seqnum
    case Flag(seqnum, _) => seqnum
    case _ => 0
  }

  function DepthOf(x: Name): int {
    match x
    case Anorm(_, depth) => depth
    case Flag(_, depth) => depth
    case _ => 0
  }

  /** Two parts next to each other, the second numbered one higher. */
  lemma PartsApart<L>(kind: Kind, seqnum: int, depth: int, depth': int, a: Stmt<L>, b: Stmt<L>)
    requires Placed(kind, seqnum, depth, a) && Placed(kind, seqnum + 1, depth', b) && (Keeps(a) || W.Bound(b) == {})
    ensures forall x | x in W.Bound(a) && x in W.Bound(b) :: !kind(x)
  {
  }

  ghost predicate Without<L>(kind: Kind, s: Stmt<L>) {
    forall x | x in W.Bound(s) :: !kind(x)
  }

  /** What desugaring a loop binds. */
  lemma LoopBinds(seqnum: int, depth: int, s: Stmt<()>)
    requires s.While?
    ensures var d, body := DesugarWhile(seqnum, depth, s), DesugarWhile(seqnum, depth + 1, s.body);
            && W.Bound(d) == {Flag(seqnum, depth)} + W.Bound(body) && Keeps(d) == Keeps(body) && Stepwise(d) == Stepwise(body)
            && (Once(LoopFlag, d) <==> Flag(seqnum, depth) !in W.Bound(body) && Once(LoopFlag, body))
  {
    var d, body := DesugarWhile(seqnum, depth, s), DesugarWhile(seqnum, depth + 1, s.body);
    var round := d.body.body;
    assert round.thn == body && round.els.Assign? && W.Bound(round.els) == {} && Once(LoopFlag, round.els);
    assert W.Bound(round) == W.Bound(body) && Keeps(round) == Keeps(body) && Stepwise(round) == Stepwise(body);
    assert Once(LoopFlag, round) <==> Once(LoopFlag, body);
    assert W.Bound(d.body) == W.Bound(body) && (Once(LoopFlag, d.body) <==> Once(LoopFlag, body));
  }

  /** The flags of loops. */
  lemma {:induction false} FlagsOnce(seqnum: int, depth: int, s: Stmt<()>)
    requires Without(LoopFlag, s)
    ensures var d := DesugarWhile(seqnum, depth, s); Placed(LoopFlag, seqnum, depth, d) && (Stepwise(d) ==> Once(LoopFlag, d))
    decreases s
  {
    var d := DesugarWhile(seqnum, depth, s);
    match s
    case Let(_, _, _, _, body) => FlagsOnce(seqnum, depth + 1, body);
    case If(_, _, a, b) =>
      FlagsOnce(seqnum, depth + 1, a);
      FlagsOnce(seqnum + 1, depth + 1, b);
      if Stepwise(d) { PartsApart(LoopFlag, seqnum, depth + 1, depth + 1, d.thn, d.els); }
    case While(_, _, body, _) =>
      FlagsOnce(seqnum, depth + 1, body);
      LoopBinds(seqnum, depth, s);
    case Seq(_, a, b) =>
      FlagsOnce(seqnum, depth, a);
      FlagsOnce(seqnum + 1, depth, b);
      if Stepwise(d) { PartsApart(LoopFlag, seqnum, depth, depth, d.first, d.rest); }
    case _ =>
  }

  /** A statement and the same with another header bind alike. */
  lemma HeaderBinds(s: Stmt<()>, e: Expr<()>)
    requires Header(s).Some?
    ensures var t := WithHeader(s, e);
            W.Bound(t) == W.Bound(s) && Keeps(t) == Keeps(s) && Stepwise(t) == Stepwise(s) && forall kind :: Once(kind, t) == Once(kind, s)
  {
  }

  /** Flattening a statement whose header is not flat. */
  lemma FlattensTo(seqnum: int, depth: int, s: Stmt<()>) returns (rest: Stmt<()>, rhs: Rhs<()>)
    requires depth < DEPTH_LIMIT && !FlatHeader(s)
    ensures FlattenExprs(seqnum, depth, s) == Let((), (), Anorm(seqnum, depth), rhs, FlattenExprs(seqnum, depth + 2, rest))
    ensures W.Bound(rest) == W.Bound(s) && Keeps(rest) == Keeps(s) && Stepwise(rest) == Stepwise(s) && forall kind :: Once(kind, rest) == Once(kind, s)
  {
    var n, e := Anorm(seqnum, depth), Header(s).value;
    var r := RemoveLayer(n, e);
    RemoveLayerShrinks(n, e);
    rest, rhs := WithHeader(s, r.1), Pure(r.0);
    HeaderBinds(s, r.1);
    assert Partial(n, s) == Let((), (), n, rhs, rest);
  }

  /** What flattening adds: names for operations, and nothing else. */
  ghost predicate Adds(seqnum: int, depth: int, s: Stmt<()>, f: Stmt<()>) {
    && Placed(Operation, seqnum, depth, f) && (Stepwise(f) ==> Once(Operation, f))
    && (forall x: Name | !x.Anorm? :: x in W.Bound(f) <==> x in W.Bound(s)) && W.Bound(s) <= W.Bound(f)
    && (Keeps(f) ==> Keeps(s)) && (Stepwise(f) ==> Stepwise(s)) && (Once(LoopFlag, s) ==> Once(LoopFlag, f))
  }

  lemma {:induction false} FlattenAdds(seqnum: int, depth: int, s: Stmt<()>)
    requires Without(Operation, s)
    ensures Adds(seqnum, depth, s, FlattenExprs(seqnum, depth, s))
    decreases DEPTH_LIMIT - depth, s, 1
  {
    if depth >= DEPTH_LIMIT {
      WithoutOnce(Operation, s);
    } else if !FlatHeader(s) {
      var rest, rhs := FlattensTo(seqnum, depth, s);
      FlattenAdds(seqnum, depth + 2, rest);
    } else {
      match s
      case Let(_, _, _, _, body) => FlattenAdds(seqnum, depth + 1, body);
      case If(_, _, _, _) => IfAdds(seqnum, depth, s);
      case While(_, _, body, _) => FlattenAdds(seqnum, depth + 1, body);
      case Seq(_, _, _) => SeqAdds(seqnum, depth, s);
      case _ =>
    }
  }

  lemma {:induction false} IfAdds(seqnum: int, depth: int, s: Stmt<()>)
    requires s.If? && depth < DEPTH_LIMIT && FlatHeader(s) && Without(Operation, s)
    ensures Adds(seqnum, depth, s, FlattenExprs(seqnum, depth, s))
    decreases DEPTH_LIMIT - depth, s, 0
  {
    FlattenAdds(seqnum, depth + 1, s.thn);
    FlattenAdds(seqnum + 1, depth + 1, s.els);
    var f := FlattenExprs(seqnum, depth, s);
    if Stepwise(f) { PartsApart(Operation, seqnum, depth + 1, depth + 1, f.thn, f.els); }
  }

  lemma {:induction false} SeqAdds(seqnum: int, depth: int, s: Stmt<()>)
    requires s.Seq? && depth < DEPTH_LIMIT && Without(Operation, s)
    ensures Adds(seqnum, depth, s, FlattenExprs(seqnum, depth, s))
    decreases DEPTH_LIMIT - depth, s, 0
  {
    FlattenAdds(seqnum, depth, s.first);
    FlattenAdds(seqnum + 1, depth, s.rest);
    var f := FlattenExprs(seqnum, depth, s);
    if Stepwise(f) { PartsApart(Operation, seqnum, depth, depth, f.first, f.rest); }
  }

  lemma {:induction false} WithoutOnce<L>(kind: Kind, s: Stmt<L>)
    requires Without(kind, s)
    ensures Once(kind, s)
  {
    match s
    case Let(_, _, _, _, body) => WithoutOnce(kind, body);
    case If(_, _, a, b) =>
      WithoutOnce(kind, a);
      WithoutOnce(kind, b);
    case While(_, _, body, _) => WithoutOnce(kind, body);
    case Seq(_, a, b) =>
      WithoutOnce(kind, a);
      WithoutOnce(kind, b);
    case _ =>
  }

  lemma {:induction false} ParsedBinds(s: Stmt<()>)
    requires Parsed(s)
    ensures Without(Operation, s) && Without(LoopFlag, s)
  {
    match s
    case Let(_, _, _, _, body) => ParsedBinds(body);
    case If(_, _, a, b) =>
      ParsedBinds(a);
      ParsedBinds(b);
    case While(_, _, body, _) => ParsedBinds(body);
    case Seq(_, a, b) =>
      ParsedBinds(a);
      ParsedBinds(b);
    case _ =>
  }

  lemma {:induction false} DesugarBinds(seqnum: int, depth: int, s: Stmt<()>)
    requires Without(Operation, s)
    ensures Without(Operation, DesugarWhile(seqnum, depth, s))
    decreases s
  {
    match s
    case Let(_, _, _, _, body) => DesugarBinds(seqnum, depth + 1, body);
    case If(_, _, a, b) =>
      DesugarBinds(seqnum, depth + 1, a);
      DesugarBinds(seqnum + 1, depth + 1, b);
    case While(_, _, body, _) =>
      DesugarBinds(seqnum, depth + 1, body);
      LoopBinds(seqnum, depth, s);
    case Seq(_, a, b) =>
      DesugarBinds(seqnum, depth, a);
      DesugarBinds(seqnum + 1, depth, b);
    case _ =>
  }

  /** If the flattened program is stepwise, no generated name is bound twice in it and every binding has
      an id of its own. */
  lemma StepwiseIsOwn(p: Stmt<()>)
    requires Parsed(p) && Stepwise(FlattenExpressions(p))
    ensures var f := FlattenExpressions(p); OwnIds(1, 1, f) && Once(Operation, f) && Once(LoopFlag, f)
  {
    ParsedBinds(p);
    DesugarBinds(1, 1, p);
    FlagsOnce(1, 1, p);
    FlattenAdds(1, 1, DesugarWhile(1, 1, p));
    StepwiseOwns(1, 1, FlattenExpressions(p));
  }

  /** A program whose flattened form is stepwise is accepted exactly if that can be labelled so that it
      meets its flows. */
  lemma AcceptedIff(env: Env, p: Stmt<()>)
    requires Stepwise(FlattenExpressions(p))
    ensures (exists labels :: Accepted(env, labels, p)) <==> exists q :: Labelled(env, FlattenExpressions(p), q)
  {
    var f := FlattenExpressions(p);
    StepwiseOwns(1, 1, f);
    forall labels | Accepted(env, labels, p) ensures exists q :: Labelled(env, f, q) {
      var sigma := AcceptedIsLabelled(env, labels, f);
    }
    forall q | Labelled(env, f, q) ensures exists labels :: Accepted(env, labels, p) {
      StripIds(1, 1, q);
      var tau := OwnPicks(1, 1, q);
      LabelledIsAccepted(env, [], tau, q);
      var c := Check(1, 1, RootScope(env), Con(TOP), f).value;
      var labels := LabelList(AllConcretes(LabelsOf(c)));
      assert (set k | k in labels) == AllConcretes(LabelsOf(c)) && KnownLabels(labels, c);
      LabelledIsAccepted(env, labels, tau, q);
      assert Accepted(env, labels, p);
    }
  }
}
