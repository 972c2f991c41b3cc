/** Moving loop conditions into loop bodies preserves meaning and termination. */
module DesugarCorrect {
  import opened Syntax
  import opened Semantics
  import opened Flatten
  import opened FlattenCorrect

  /** More fuel does not change an outcome that did not run out of it. */
  lemma {:induction false} ExecMore<L>(s: Stmt<L>, env: Env, w: World, f: nat, g: nat)
    requires !Exec(s, env, w, f).Timeout? && f <= g
    ensures Exec(s, env, w, g) == Exec(s, env, w, f)
    decreases f, s, 1
  {
    match s
    case Let(_, _, x, rhs, body) =>
      var r := ExecRhs(rhs, env, w);
      if r.Some? { ExecMore(body, env, Write(r.value.0, x, r.value.1), f, g); }
    case If(_, cond, a, b) =>
      var c := Eval(cond, Reads(env, w));
      if c.Some? { ExecMore(if c.value != 0 then a else b, env, w, f, g); }
    case While(_, _, _, name) => IterateMore(s, env, w.(loops := w.loops[name := 0]), 0, f, g);
    case Seq(_, a, b) =>
      ExecMore(a, env, w, f, g);
      var r := Exec(a, env, w, f);
      if r.Done? { ExecMore(b, env, r.s, f, g); }
    case _ =>
  }

  lemma {:induction false} IterateMore<L>(s: Stmt<L>, env: Env, w: World, i: nat, f: nat, g: nat)
    requires s.While? && !Iterate(s, env, w, i, f).Timeout? && f <= g
    ensures Iterate(s, env, w, i, g) == Iterate(s, env, w, i, f)
    decreases f, s, 0
  {
    var c := Eval(s.cond, Reads(env, w));
    if c.Some? && c.value != 0 {
      var w1 := w.(loops := w.loops[s.name := i + 1]);
      ExecMore(s.body, env, w1, f - 1, g - 1);
      var r := Exec(s.body, env, w1, f - 1);
      if r.Done? { IterateMore(s, env, r.s, i + 1, f - 1, g - 1); }
    }
  }

  /** The loop inside a desugared loop. */
  function Inner(seqnum: int, depth: int, s: Stmt<()>): Stmt<()>
    requires s.While?
  {
    DesugarWhile(seqnum, depth, s).body
  }

  // --- programs without flags, and what desugaring adds ---

  predicate NoFlags(s: Stmt<()>) {
    match s
    case Let(_, _, x, rhs, body) => !x.Flag? && (forall y | y in RhsNames(rhs) :: !y.Flag?) && NoFlags(body)
    case Assign(_, r, e) => !r.x.Flag? && (forall y | y in Names(e) :: !y.Flag?)
    case Perform(_, c) => forall y | y in CallNames(c) :: !y.Flag?
    case Return(_, e) => forall y | y in Names(e) :: !y.Flag?
    case If(_, cond, a, b) => (forall y | y in Names(cond) :: !y.Flag?) && NoFlags(a) && NoFlags(b)
    case While(_, cond, body, _) => (forall y | y in Names(cond) :: !y.Flag?) && NoFlags(body)
    case Skip(_) => true
    case Seq(_, a, b) => NoFlags(a) && NoFlags(b)
  }

  /** Flags the statement writes are of depth `d` or more. */
  predicate FlagsFrom(d: int, s: Stmt<()>) {
    match s
    case Let(_, _, x, _, body) => (x.Flag? ==> x.depth >= d) && FlagsFrom(d, body)
    case Assign(_, r, _) => r.x.Flag? ==> r.x.depth >= d
    case If(_, _, a, b) => FlagsFrom(d, a) && FlagsFrom(d, b)
    case While(_, _, body, _) => FlagsFrom(d, body)
    case Seq(_, a, b) => FlagsFrom(d, a) && FlagsFrom(d, b)
    case _ => true
  }

  lemma {:induction false} DesugarFlags(seqnum: int, depth: int, d: int, s: Stmt<()>)
    requires NoFlags(s) && d <= depth
    ensures FlagsFrom(d, DesugarWhile(seqnum, depth, s))
    decreases s
  {
    match s
    case Let(_, _, _, _, body) => DesugarFlags(seqnum, depth + 1, d, body);
    case If(_, _, a, b) =>
      DesugarFlags(seqnum, depth + 1, d, a);
      DesugarFlags(seqnum + 1, depth + 1, d, b);
    case While(_, _, body, _) =>
      DesugarFlags(seqnum, depth + 1, d, body);
      assert FlagsFrom(d, Inner(seqnum, depth, s).body);
    case Seq(_, a, b) =>
      DesugarFlags(seqnum, depth, d, a);
      DesugarFlags(seqnum + 1, depth, d, b);
    case _ =>
  }

  lemma {:induction false} FlagKept(d: int, s: Stmt<()>, x: Name, env: Env, w: World, w': World, fuel: nat)
    requires FlagsFrom(d, s) && x.Flag? && x.depth < d && Exec(s, env, w, fuel) == Done(w')
    ensures Hist(w', x) == Hist(w, x)
    decreases fuel, s, 1
  {
    match s
    case Let(_, _, y, rhs, body) =>
      var r := ExecRhs(rhs, env, w).value;
      FlagKept(d, body, x, env, Write(r.0, y, r.1), w', fuel);
    case If(_, cond, a, b) => FlagKept(d, if Eval(cond, Reads(env, w)).value != 0 then a else b, x, env, w, w', fuel);
    case While(_, _, _, name) => FlagKeptLoop(d, s, x, env, w.(loops := w.loops[name := 0]), w', 0, fuel);
    case Seq(_, a, b) =>
      var w1 := Exec(a, env, w, fuel).s;
      FlagKept(d, a, x, env, w, w1, fuel);
      FlagKept(d, b, x, env, w1, w', fuel);
    case _ =>
  }

  lemma {:induction false} FlagKeptLoop(d: int, s: Stmt<()>, x: Name, env: Env, w: World, w': World, i: nat, fuel: nat)
    requires s.While? && FlagsFrom(d, s) && x.Flag? && x.depth < d && Iterate(s, env, w, i, fuel) == Done(w')
    ensures Hist(w', x) == Hist(w, x)
    decreases fuel, s, 0
  {
    if Eval(s.cond, Reads(env, w)).value != 0 {
      var w1 := w.(loops := w.loops[s.name := i + 1]);
      var w2 := Exec(s.body, env, w1, fuel - 1).s;
      FlagKept(d, s.body, x, env, w1, w2, fuel - 1);
      FlagKeptLoop(d, s, x, env, w2, w', i + 1, fuel - 1);
    }
  }

  // --- meaning ---

  /** The worlds agree on everything a program without flags can see. */
  ghost predicate SameView(w: World, v: World) {
    (forall x: Name :: !x.Flag? ==> Hist(w, x) == Hist(v, x)) && w.remote == v.remote && w.ret == v.ret
  }

  lemma SameViewWrite(w: World, v: World, x: Name, i: int)
    requires SameView(w, v)
    ensures SameView(Write(w, x, i), Write(v, x, i))
    ensures x.Flag? ==> SameView(w, Write(v, x, i))
  {
    forall y: Name | !y.Flag? ensures Hist(Write(w, x, i), y) == Hist(Write(v, x, i), y) && (x.Flag? ==> Hist(w, y) == Hist(Write(v, x, i), y)) {
      assert Hist(w, y) == Hist(v, y);
    }
  }

  lemma EvalView(env: Env, e: Expr<()>, w: World, v: World)
    requires SameView(w, v) && forall y | y in Names(e) :: !y.Flag?
    ensures Eval(e, Reads(env, w)) == Eval(e, Reads(env, v))
  {
    EvalAgree(e, Reads(env, w), Reads(env, v));
  }

  lemma EventView(env: Env, c: Invoke<()>, w: World, v: World)
    requires SameView(w, v) && forall y | y in CallNames(c) :: !y.Flag?
    ensures EventOf(c, Reads(env, w)) == EventOf(c, Reads(env, v))
  {
    CallAgrees(c, Reads(env, w), Reads(env, v));
  }

  /** `a` is the outcome of a statement, `b` of its desugared form. */
  ghost predicate Matches(a: Outcome<World>, b: Outcome<World>) {
    match a
    case Done(w) => b.Done? && SameView(w, b.s)
    case Fault => b.Fault?
    case Timeout => true
  }

  /** One more unit of fuel is all the desugared form needs. */
  lemma {:induction false} DesugarDoes(seqnum: int, depth: int, env: Env, s: Stmt<()>, w: World, v: World, fuel: nat)
    requires UserInputs(env) && NoFlags(s) && SameView(w, v)
    ensures Matches(Exec(s, env, w, fuel), Exec(DesugarWhile(seqnum, depth, s), env, v, fuel + 1))
    decreases fuel, s, 1
  {
    match s
    case Let(_, _, x, rhs, body) =>
      match rhs {
        case Pure(e) => EvalView(env, e, w, v);
        case Remote(_, c) => EventView(env, c, w, v);
      }
      var a, b := ExecRhs(rhs, env, w), ExecRhs(rhs, env, v);
      if a.Some? {
        SameViewWrite(a.value.0, b.value.0, x, a.value.1);
        DesugarDoes(seqnum, depth + 1, env, body, Write(a.value.0, x, a.value.1), Write(b.value.0, x, b.value.1), fuel);
      }
    case Assign(_, r, e) =>
      EvalView(env, e, w, v);
      if Eval(e, Reads(env, w)).Some? { SameViewWrite(w, v, r.x, Eval(e, Reads(env, w)).value); }
    case Perform(_, c) => EventView(env, c, w, v);
    case Return(_, e) => EvalView(env, e, w, v);
    case If(_, cond, a, b) =>
      EvalView(env, cond, w, v);
      DesugarDoes(seqnum, depth + 1, env, a, w, v, fuel);
      DesugarDoes(seqnum + 1, depth + 1, env, b, w, v, fuel);
    case While(_, _, _, name) =>
      var flag := Flag(seqnum, depth);
      var v0 := Write(v, flag, 1);
      SameViewWrite(w, v, flag, 1);
      DesugarLoop(seqnum, depth, env, s, w.(loops := w.loops[name := 0]), v0.(loops := v0.loops[name := 0]), 0, 0, fuel);
    case Skip(_) =>
    case Seq(_, _, _) => DesugarSeqDoes(seqnum, depth, env, s, w, v, fuel);
  }

  lemma {:induction false} DesugarSeqDoes(seqnum: int, depth: int, env: Env, s: Stmt<()>, w: World, v: World, fuel: nat)
    requires s.Seq? && UserInputs(env) && NoFlags(s) && SameView(w, v)
    ensures Matches(Exec(s, env, w, fuel), Exec(DesugarWhile(seqnum, depth, s), env, v, fuel + 1))
    decreases fuel, s, 0
  {
    DesugarDoes(seqnum, depth, env, s.first, w, v, fuel);
    var o, p := Exec(s.first, env, w, fuel), Exec(DesugarWhile(seqnum, depth, s.first), env, v, fuel + 1);
    if o.Done? { DesugarDoes(seqnum + 1, depth, env, s.rest, o.s, p.s, fuel); }
  }

  ghost predicate FlagUp(env: Env, x: Name, v: World) {
    Read(env, v, x) == Some(1)
  }

  lemma {:induction false} DesugarLoop(seqnum: int, depth: int, env: Env, s: Stmt<()>, w: World, v: World, i: nat, j: nat, fuel: nat)
    requires s.While? && UserInputs(env) && NoFlags(s) && SameView(w, v) && FlagUp(env, Flag(seqnum, depth), v)
    ensures Matches(Iterate(s, env, w, i, fuel), Iterate(Inner(seqnum, depth, s), env, v, j, fuel + 1))
    decreases fuel, s, 0
  {
    var flag, t, d := Flag(seqnum, depth), Inner(seqnum, depth, s), DesugarWhile(seqnum, depth + 1, s.body);
    var c := Eval(s.cond, Reads(env, w));
    var v1 := v.(loops := v.loops[t.name := j + 1]);
    EvalView(env, s.cond, w, v1);
    assert t.body == If(s.l, s.cond, d, Assign(s.l, Ref(s.l, flag), Use(False)));
    if c.Some? && c.value == 0 {
      SameViewWrite(w, v1, flag, 0);
      assert Exec(t.body, env, v1, fuel) == Done(Write(v1, flag, 0));
      assert Iterate(t, env, Write(v1, flag, 0), j + 1, fuel) == Done(Write(v1, flag, 0));
    } else if c.Some? && fuel > 0 {
      var w1 := w.(loops := w.loops[s.name := i + 1]);
      DesugarDoes(seqnum, depth + 1, env, s.body, w1, v1, fuel - 1);
      var o, p := Exec(s.body, env, w1, fuel - 1), Exec(d, env, v1, fuel);
      assert Exec(t.body, env, v1, fuel) == p;
      if o.Done? {
        DesugarFlags(seqnum, depth + 1, depth + 1, s.body);
        FlagKept(depth + 1, d, flag, env, v1, p.s, fuel);
        DesugarLoop(seqnum, depth, env, s, o.s, p.s, i + 1, j + 1, fuel - 1);
      }
    }
  }

  /** The desugared form does not terminate on fuel the original runs out of. */
  lemma {:induction false} DesugarTimeout(seqnum: int, depth: int, env: Env, s: Stmt<()>, w: World, v: World, fuel: nat)
    requires UserInputs(env) && NoFlags(s) && SameView(w, v) && Exec(s, env, w, fuel).Timeout?
    ensures Exec(DesugarWhile(seqnum, depth, s), env, v, fuel).Timeout?
    decreases fuel, s, 1
  {
    match s
    case Let(_, _, x, rhs, body) =>
      match rhs {
        case Pure(e) => EvalView(env, e, w, v);
        case Remote(_, c) => EventView(env, c, w, v);
      }
      var a, b := ExecRhs(rhs, env, w).value, ExecRhs(rhs, env, v).value;
      SameViewWrite(a.0, b.0, x, a.1);
      DesugarTimeout(seqnum, depth + 1, env, body, Write(a.0, x, a.1), Write(b.0, x, b.1), fuel);
    case If(_, cond, a, b) =>
      EvalView(env, cond, w, v);
      if Eval(cond, Reads(env, w)).value != 0 {
        DesugarTimeout(seqnum, depth + 1, env, a, w, v, fuel);
      } else {
        DesugarTimeout(seqnum + 1, depth + 1, env, b, w, v, fuel);
      }
    case While(_, _, _, name) =>
      var flag := Flag(seqnum, depth);
      var v0 := Write(v, flag, 1);
      SameViewWrite(w, v, flag, 1);
      DesugarLoopTimeout(seqnum, depth, env, s, w.(loops := w.loops[name := 0]), v0.(loops := v0.loops[name := 0]), 0, 0, fuel);
    case Seq(_, _, _) => DesugarSeqTimeout(seqnum, depth, env, s, w, v, fuel);
  }

  lemma {:induction false} DesugarSeqTimeout(seqnum: int, depth: int, env: Env, s: Stmt<()>, w: World, v: World, fuel: nat)
    requires s.Seq? && UserInputs(env) && NoFlags(s) && SameView(w, v) && Exec(s, env, w, fuel).Timeout?
    ensures Exec(DesugarWhile(seqnum, depth, s), env, v, fuel).Timeout?
    decreases fuel, s, 0
  {
    var d := DesugarWhile(seqnum, depth, s.first);
    if Exec(s.first, env, w, fuel).Timeout? {
      DesugarTimeout(seqnum, depth, env, s.first, w, v, fuel);
    } else {
      DesugarDoes(seqnum, depth, env, s.first, w, v, fuel);
      if !Exec(d, env, v, fuel).Timeout? {
        ExecMore(d, env, v, fuel, fuel + 1);
        DesugarTimeout(seqnum + 1, depth, env, s.rest, Exec(s.first, env, w, fuel).s, Exec(d, env, v, fuel).s, fuel);
      }
    }
  }

  lemma {:induction false} DesugarLoopTimeout(seqnum: int, depth: int, env: Env, s: Stmt<()>, w: World, v: World, i: nat, j: nat, fuel: nat)
    requires s.While? && UserInputs(env) && NoFlags(s) && SameView(w, v) && FlagUp(env, Flag(seqnum, depth), v)
    requires Iterate(s, env, w, i, fuel).Timeout?
    ensures Iterate(Inner(seqnum, depth, s), env, v, j, fuel).Timeout?
    decreases fuel, s, 0
  {
    var w1, v1 := w.(loops := w.loops[s.name := i + 1]), v.(loops := v.loops[s.name := j + 1]);
    EvalView(env, s.cond, w, v1);
    InnerRound(seqnum, depth, env, s, v, j, fuel);
    if fuel > 0 { DesugarRestTimeout(seqnum, depth, env, s, w1, v1, i + 1, j + 1, fuel - 1); }
  }

  /** The rest of a loop from inside a round on. */
  lemma {:induction false} DesugarRestTimeout(seqnum: int, depth: int, env: Env, s: Stmt<()>, w: World, v: World, i: nat, j: nat, fuel: nat)
    requires s.While? && UserInputs(env) && NoFlags(s) && SameView(w, v) && FlagUp(env, Flag(seqnum, depth), v)
    requires var r := Exec(s.body, env, w, fuel); r.Timeout? || (r.Done? && Iterate(s, env, r.s, i, fuel).Timeout?)
    ensures var r := Exec(DesugarWhile(seqnum, depth + 1, s.body), env, v, fuel);
            r.Timeout? || (r.Done? && Iterate(Inner(seqnum, depth, s), env, r.s, j, fuel).Timeout?)
    decreases fuel, s, 1
  {
    var o, p := Exec(s.body, env, w, fuel), Exec(DesugarWhile(seqnum, depth + 1, s.body), env, v, fuel);
    if o.Timeout? {
      DesugarTimeout(seqnum, depth + 1, env, s.body, w, v, fuel);
    } else if !p.Timeout? {
      DesugarRound(seqnum, depth, env, s, w, v, fuel, o.s, p);
      DesugarLoopTimeout(seqnum, depth, env, s, o.s, p.s, i, j, fuel);
    }
  }

  /** One round of the desugared loop, while the original condition holds. */
  lemma InnerRound(seqnum: int, depth: int, env: Env, s: Stmt<()>, v: World, j: nat, fuel: nat)
    requires s.While? && FlagUp(env, Flag(seqnum, depth), v)
    requires var v1 := v.(loops := v.loops[s.name := j + 1]);
             Eval(s.cond, Reads(env, v1)).Some? && Eval(s.cond, Reads(env, v1)).value != 0
    ensures var t, v1 := Inner(seqnum, depth, s), v.(loops := v.loops[s.name := j + 1]);
            Iterate(t, env, v, j, fuel) ==
              if fuel == 0 then Timeout
              else
                var r := Exec(DesugarWhile(seqnum, depth + 1, s.body), env, v1, fuel - 1);
                if r.Done? then Iterate(t, env, r.s, j + 1, fuel - 1) else r
  {
    var t, v1 := Inner(seqnum, depth, s), v.(loops := v.loops[s.name := j + 1]);
    if fuel > 0 {
      assert Exec(t.body, env, v1, fuel - 1) == Exec(DesugarWhile(seqnum, depth + 1, s.body), env, v1, fuel - 1);
    }
  }

  /** After a round of both loops the worlds agree and the flag is still up. */
  lemma DesugarRound(seqnum: int, depth: int, env: Env, s: Stmt<()>, w: World, v: World, fuel: nat, o: World, p: Outcome<World>)
    requires s.While? && UserInputs(env) && NoFlags(s) && SameView(w, v) && FlagUp(env, Flag(seqnum, depth), v)
    requires Exec(s.body, env, w, fuel) == Done(o) && p == Exec(DesugarWhile(seqnum, depth + 1, s.body), env, v, fuel) && !p.Timeout?
    ensures p.Done? && SameView(o, p.s) && FlagUp(env, Flag(seqnum, depth), p.s)
  {
    var d := DesugarWhile(seqnum, depth + 1, s.body);
    DesugarDoes(seqnum, depth + 1, env, s.body, w, v, fuel);
    ExecMore(d, env, v, fuel, fuel + 1);
    DesugarFlags(seqnum, depth + 1, depth + 1, s.body);
    FlagKept(depth + 1, d, Flag(seqnum, depth), env, v, p.s, fuel);
  }

  // --- both passes ---

  predicate Written(x: Name) {
    x.User? || x == True || x == False
  }

  /** A program as the parser delivers it: no generated names. */
  predicate Parsed(s: Stmt<()>) {
    match s
    case Let(_, _, x, rhs, body) => Written(x) && (forall y | y in RhsNames(rhs) :: Written(y)) && Parsed(body)
    case Assign(_, r, e) => Written(r.x) && (forall y | y in Names(e) :: Written(y))
    case Perform(_, c) => forall y | y in CallNames(c) :: Written(y)
    case Return(_, e) => forall y | y in Names(e) :: Written(y)
    case If(_, cond, a, b) => (forall y | y in Names(cond) :: Written(y)) && Parsed(a) && Parsed(b)
    case While(_, cond, body, _) => (forall y | y in Names(cond) :: Written(y)) && Parsed(body)
    case Skip(_) => true
    case Seq(_, a, b) => Parsed(a) && Parsed(b)
  }

  lemma {:induction false} ParsedIs(s: Stmt<()>)
    requires Parsed(s)
    ensures NoFlags(s)
  {
    match s
    case Let(_, _, _, _, body) => ParsedIs(body);
    case If(_, _, a, b) =>
      ParsedIs(a);
      ParsedIs(b);
    case While(_, _, body, _) => ParsedIs(body);
    case Seq(_, a, b) =>
      ParsedIs(a);
      ParsedIs(b);
    case _ =>
  }

  lemma {:induction false} DesugaredIs(seqnum: int, depth: int, d: int, s: Stmt<()>)
    requires Parsed(s)
    ensures Below(d, DesugarWhile(seqnum, depth, s)) && LoopsFlat(DesugarWhile(seqnum, depth, s))
    ensures BindsNoAnorm(DesugarWhile(seqnum, depth, s))
    decreases s
  {
    match s
    case Let(_, _, _, _, body) => DesugaredIs(seqnum, depth + 1, d, body);
    case If(_, _, a, b) =>
      DesugaredIs(seqnum, depth + 1, d, a);
      DesugaredIs(seqnum + 1, depth + 1, d, b);
    case While(_, cond, body, _) =>
      DesugaredIs(seqnum, depth + 1, d, body);
      var t := Inner(seqnum, depth, s);
      assert Below(d, t.body) && LoopsFlat(t.body) && BindsNoAnorm(t.body);
    case Seq(_, a, b) =>
      DesugaredIs(seqnum, depth, d, a);
      DesugaredIs(seqnum + 1, depth, d, b);
    case _ =>
  }

  /** The worlds agree on everything a parsed program can see. */
  ghost predicate SameForUser(w: World, v: World) {
    (forall x: Name :: Written(x) ==> Hist(w, x) == Hist(v, x)) && w.remote == v.remote && w.ret == v.ret
  }

  /** Desugaring and flattening preserve meaning: the flat program terminates exactly when the
      parsed one does, on at most one more unit of fuel, with the same histories of the program's
      own variables, the same remote calls and the same result; and it faults when it does. */
  lemma FlatteningPreservesMeaning(env: Env, s: Stmt<()>, w: World, fuel: nat)
    requires UserInputs(env) && Parsed(s)
    ensures var a, b := Exec(s, env, w, fuel), Exec(FlattenExpressions(s), env, w, fuel + 1);
            && (a.Done? ==> b.Done? && SameForUser(a.s, b.s))
            && (a.Fault? ==> b.Fault?)
            && (a.Timeout? ==> Exec(FlattenExpressions(s), env, w, fuel).Timeout?)
  {
    var d := DesugarWhile(1, 1, s);
    ParsedIs(s);
    DesugaredIs(1, 1, 1, s);
    DesugarDoes(1, 1, env, s, w, w, fuel);
    FlattenMeans(1, 1, env, d, w, fuel + 1);
    if Exec(s, env, w, fuel).Timeout? {
      DesugarTimeout(1, 1, env, s, w, w, fuel);
      FlattenMeans(1, 1, env, d, w, fuel);
    }
  }

  /** Within the depth limit the result is in A-normal form, and no binder captures a name. */
  lemma FlatteningIsAnf(s: Stmt<()>)
    requires Parsed(s)
    ensures 1 + Work(DesugarWhile(1, 1, s)) <= DEPTH_LIMIT ==> InAnf(FlattenExpressions(s))
    ensures NoCapture({}, FlattenExpressions(s))
  {
    DesugaredIs(1, 1, 1, s);
    if 1 + Work(DesugarWhile(1, 1, s)) <= DEPTH_LIMIT {
      FlattenIsAnf(1, 1, DesugarWhile(1, 1, s));
    }
    FlattenCapturesNothing({}, 1, 1, DesugarWhile(1, 1, s));
  }
}
