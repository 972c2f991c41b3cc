/** The same from the parsed program on: the passes before splitting keep what is always reached. */
module StoppingCompiled {
  import opened Labels
  import opened Syntax
  import opened Semantics
  import opened PhaseRun
  import opened Phases
  import opened Returns
  import opened Stopping
  import opened Flatten
  import opened FlattenCorrect
  import opened DesugarCorrect
  import opened EndToEnd
  import E = EndToEnd
  import W = WellLabelled

  lemma {:induction false} DesugarCuts(seqnum: int, depth: int, s: Stmt<()>)
    ensures var d := DesugarWhile(seqnum, depth, s); Ends(d) == Ends(s) && DesugarWhile(seqnum, depth, Cut(s)) == Cut(d)
    decreases s
  {
    match s
    case Let(_, _, _, _, body) => DesugarCuts(seqnum, depth + 1, body);
    case If(_, _, a, b) =>
      DesugarCuts(seqnum, depth + 1, a);
      DesugarCuts(seqnum + 1, depth + 1, b);
    case Seq(_, a, b) =>
      DesugarCuts(seqnum, depth, a);
      DesugarCuts(seqnum + 1, depth, b);
    case _ =>
  }

  lemma CutWithHeader(s: Stmt<()>, e: Expr<()>)
    requires Header(s).Some?
    ensures Header(Cut(s)) == Header(s) && Cut(WithHeader(s, e)) == WithHeader(Cut(s), e) && Ends(WithHeader(s, e)) == Ends(s)
  {
  }

  lemma CutFlat(s: Stmt<()>)
    ensures FlatHeader(Cut(s)) == FlatHeader(s)
  {
  }

  lemma CutHeader(s: Stmt<()>, n: Name)
    ensures FlatHeader(Cut(s)) == FlatHeader(s)
    ensures !FlatHeader(s) ==> Partial(n, Cut(s)) == Cut(Partial(n, s)) && Ends(Partial(n, s)) == Ends(s)
  {
    if !FlatHeader(s) {
      var r := RemoveLayer(n, Header(s).value);
      CutWithHeader(s, r.1);
      assert Cut(Partial(n, s)) == Let((), (), n, Pure(r.0), Cut(WithHeader(s, r.1)));
    }
  }

  lemma {:induction false} FlattenCuts(seqnum: int, depth: int, s: Stmt<()>)
    ensures var f := FlattenExprs(seqnum, depth, s); Ends(f) == Ends(s) && FlattenExprs(seqnum, depth, Cut(s)) == Cut(f)
    decreases DEPTH_LIMIT - depth, s
  {
    if depth >= DEPTH_LIMIT {
    } else if !FlatHeader(s) {
      CutHeader(s, Anorm(seqnum, depth));
      FlattenCuts(seqnum, depth + 1, Partial(Anorm(seqnum, depth), s));
    } else {
      CutFlat(s);
      match s
      case Let(_, _, _, _, body) => FlattenCuts(seqnum, depth + 1, body);
      case If(_, _, a, b) =>
        FlattenCuts(seqnum, depth + 1, a);
        FlattenCuts(seqnum + 1, depth + 1, b);
      case Seq(_, a, b) =>
        FlattenCuts(seqnum, depth, a);
        FlattenCuts(seqnum + 1, depth, b);
      case _ =>
    }
  }

  lemma {:induction false} PlainCuts<L>(s: Stmt<L>)
    ensures Ends(Plain(s)) == Ends(s) && Plain(Cut(s)) == Cut(Plain(s))
  {
    match s
    case Let(_, _, _, _, body) => PlainCuts(body);
    case If(_, _, a, b) =>
      PlainCuts(a);
      PlainCuts(b);
    case Seq(_, a, b) =>
      PlainCuts(a);
      PlainCuts(b);
    case _ =>
  }

  lemma {:induction false} CutParsed(s: Stmt<()>)
    requires Parsed(s)
    ensures Parsed(Cut(s))
  {
    match s
    case Let(_, _, _, _, body) => CutParsed(body);
    case If(_, _, a, b) =>
      CutParsed(a);
      CutParsed(b);
    case Seq(_, a, b) =>
      CutParsed(a);
      CutParsed(b);
    case _ =>
  }

  /** Compiling and taking away what follows a return can be done in either order. */
  lemma CompiledCuts(env: Env, labels: seq<Label>, p: Stmt<()>)
    requires E.Accepted(env, labels, p)
    ensures Plain(Cut(Compiled(env, labels, p).value)) == Plain(FlattenExpressions(Cut(p)))
  {
    CompiledFlows(env, labels, p);
    DesugarCuts(1, 1, p);
    FlattenCuts(1, 1, DesugarWhile(1, 1, p));
    PlainCuts(FlattenExpressions(p));
    PlainCuts(Compiled(env, labels, p).value);
  }

  lemma {:induction false} CutKeepsLast<L, M>(s: Stmt<L>, t: Stmt<M>)
    requires Plain(s) == Plain(t) && ReturnsLast(s)
    ensures ReturnsLast(t)
  {
    PlainReturns(s);
    PlainReturns(t);
  }

  /** Up to its first return, a compiled program runs as the parsed one does. */
  lemma CompiledStops(env: Env, labels: seq<Label>, p: Stmt<()>, remote: map<Label, seq<Event>>, fuel: nat)
    requires Parsed(p) && UserInputs(env) && E.Accepted(env, labels, p) && BottomBehind(Compiled(env, labels, p).value)
    requires ExecStops(p, env, Start(remote), fuel).Done?
    ensures var q := Compiled(env, labels, p).value;
            && ExecStops(q, env, Start(remote), fuel + 1).Done?
            && SameForUser(ExecStops(p, env, Start(remote), fuel).s, ExecStops(q, env, Start(remote), fuel + 1).s)
  {
    var q := Compiled(env, labels, p).value;
    var c := FlattenExpressions(Cut(p));
    CompiledCuts(env, labels, p);
    CutReturnsLast(q);
    CutKeepsLast(Cut(q), c);
    DesugarReturns(1, 1, Cut(p));
    FlattenReturns(1, 1, DesugarWhile(1, 1, Cut(p)));
    CutStops(p, env, Start(remote), fuel);
    CutStops(q, env, Start(remote), fuel + 1);
    StopsIsExec(Cut(p), env, Start(remote), fuel);
    StopsIsExec(Cut(q), env, Start(remote), fuel + 1);
    CutParsed(p);
    FlatteningPreservesMeaning(env, Cut(p), Start(remote), fuel);
    PlainRuns(c, Cut(q), env, Start(remote), fuel + 1);
  }

  /** Compiling preserves meaning also where something follows a return, if in the compiled program it
      belongs to the phase that returns. */
  lemma CompiledStoppingPreservesMeaning(sig: W.Sig, env: Env, labels: seq<Label>, phases: seq<Label>, p: Stmt<()>, remote: map<Label, seq<Event>>, fuel: nat)
    requires Compilable(sig, env, labels, phases, p) && BottomBehind(Compiled(env, labels, p).value)
    requires ExecStops(p, env, Start(remote), fuel).Done?
    ensures var r := RunPhasesStops(phases, Compiled(env, labels, p).value, env, Launch(remote), fuel + 1);
            r.Done? && Realizes(ExecStops(p, env, Start(remote), fuel).s, r.s)
  {
    CompiledStops(env, labels, p, remote, fuel);
    CompiledIs(sig, env, labels, phases, p);
    StoppingPreservesMeaning(sig, env, phases, Compiled(env, labels, p).value, remote, fuel + 1);
  }
}
