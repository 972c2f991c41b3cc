/** A call made in a context weaker than its object: the compiler accepts it, and the phases send the
    calls of one object in another order than the program does. */
module CallContext {
  import opened Labels
  import opened Syntax
  import opened Semantics
  import opened SplitPhase
  import opened PhaseRun
  import opened Phases
  import opened Flatten
  import opened DesugarCorrect
  import opened EndToEnd
  import opened Complete
  import opened Samples
  import opened Flows
  import N = Noninterference
  import W = WellLabelled

  /** `x = weak.get(); if (x) { strong.put() } strong.add()` */
  const Source: Stmt<()> :=
    Let((), (), X, GetRhs,
        Seq((),
            If((), Var(Ref((), X)), Perform((), Call(TOP, "put", Ref((), STRONG))), Skip(())),
            Perform((), Call(TOP, "add", Ref((), STRONG)))))

  /** What the compiler makes of it: everything that depends on `x` is weak. */
  const Labelled: Stmt<Label> :=
    Let(BOTTOM, BOTTOM, X, GetLabelled,
        Seq(TOP,
            If(BOTTOM, Var(Ref(BOTTOM, X)), Perform(BOTTOM, Call(TOP, "put", Ref(TOP, STRONG))), Skip(BOTTOM)),
            Perform(TOP, Call(TOP, "add", Ref(TOP, STRONG)))))

  lemma LabelledFlows(env: Env)
    requires env.inputs == ARGS.inputs
    ensures StmtFlows(env, map[], TOP, Labelled)
  {
    var scope: Places := map[][X := Place(BOTTOM, BOTTOM)];
    assert W.IsInput(env, WEAK) && W.IsInput(env, STRONG) && STRONG !in scope;
    var s := Labelled.body;
    assert W.RefsLabel(s.first.thn.call.args) == TOP && W.RefsLabel(s.rest.call.args) == TOP;
    assert StmtFlows(env, scope, BOTTOM, s.first.thn) && StmtFlows(env, scope, BOTTOM, s.first.els);
    assert StmtFlows(env, scope, TOP, s.first) && StmtFlows(env, scope, TOP, s.rest);
    assert W.RefsLabel(GetLabelled.call.args) == TOP;
  }

  lemma SourceIsLabelled()
    ensures StripStmt(Labelled) == Source && InAnf(Source) && W.Loops(Labelled) == {}
  {
    var s := Labelled.body;
    GetStrips();
    assert StripCall(s.first.thn.call) == Source.body.first.thn.call && StripCall(s.rest.call) == Source.body.rest.call;
    assert StripStmt(s.first) == Source.body.first && StripStmt(s.rest) == Source.body.rest;
    assert InAnf(Source.body.first.thn) && InAnf(Source.body.first) && InAnf(Source.body.rest);
    assert W.Loops(s.first) == {} && W.Loops(s.rest) == {};
  }

  lemma SourceIsParsed()
    ensures Parsed(Source)
  {
    CallsAreParsed();
    var a, b := Source.body.first, Source.body.rest;
    assert RefNames(a.thn.call.args) == {} && RefNames(b.call.args) == {};
    assert Parsed(a.thn) && Parsed(a) && Parsed(b) && Parsed(Source.body);
  }

  lemma SourceIsWeak(env: Env, r: Stmt<Label>)
    requires Plain(r) == Plain(Labelled) && StmtFlows(env, map[], TOP, r)
    ensures Weaker(r, Labelled)
  {
    GetStrips();
    GetIsWeak(env, map[], r);
    assert Plain(r.body) == Plain(Labelled.body) && Plain(r.body.first) == Plain(Labelled.body.first);
    assert Weaker(r.body.first, Labelled.body.first) && Weaker(r.body.rest, Labelled.body.rest);
    assert Weaker(r.body, Labelled.body);
  }

  /** The compiler accepts the program. */
  lemma SourceIsAccepted(env: Env)
    requires env.inputs == ARGS.inputs
    ensures CompilesTo(env, Source, Labelled)
  {
    SourceIsLabelled();
    SourceIsParsed();
    ArgsAreUsers(env);
    LabelledFlows(env);
    assert Picks(t => BOTTOM, 2, 2, Labelled.body.first) && Picks(t => BOTTOM, 2, 2, Labelled.body);
    forall r | Plain(r) == Plain(Labelled) && StmtFlows(env, map[], TOP, r) ensures Weaker(r, Labelled) {
      SourceIsWeak(env, r);
    }
    StraightIsCompiled(env, t => BOTTOM, Source, Labelled);
  }

  const BottomSig := W.Sig(x => BOTTOM, x => BOTTOM, x => false, n => TOP)

  const STRONG_PUT := Event("put", 20, [])
  const ADD := Event("add", 20, [])

  /** What the weak object answers. */
  function Answer(env: Env, remote: map<Label, seq<Event>>): int {
    env.respond(BOTTOM, Received(remote, BOTTOM) + [GET])
  }

  lemma SourceRuns(env: Env, remote: map<Label, seq<Event>>)
    requires env.inputs == ARGS.inputs
    ensures var r := Exec(Labelled, env, Start(remote), 0);
            r.Done? && Received(r.s.remote, TOP) == Received(remote, TOP) + if Answer(env, remote) != 0 then [STRONG_PUT, ADD] else [ADD]
  {
    var w0 := Start(remote);
    assert EventOf(Labelled.rhs.call, Reads(env, w0)) == Some(GET);
    var w1 := Write(w0.(remote := Send(env, remote, BOTTOM, GET).0), X, Answer(env, remote));
    assert ExecRhs(Labelled.rhs, env, w0).value.1 == Answer(env, remote);
    BodyRuns(env, w1, Answer(env, remote));
    assert Received(remote, TOP) + [STRONG_PUT] + [ADD] == Received(remote, TOP) + [STRONG_PUT, ADD];
  }

  lemma BodyRuns(env: Env, w: World, i: int)
    requires env.inputs == ARGS.inputs && Hist(w, X) == [i]
    ensures var r := Exec(Labelled.body, env, w, 0);
            r.Done? && Received(r.s.remote, TOP) == (if i != 0 then Received(w.remote, TOP) + [STRONG_PUT] else Received(w.remote, TOP)) + [ADD]
  {
    var s := Labelled.body;
    assert Read(env, w, X) == Some(i);
    assert EventOf(s.first.thn.call, Reads(env, w)) == Some(STRONG_PUT);
    var w1 := if i != 0 then w.(remote := Send(env, w.remote, TOP, STRONG_PUT).0) else w;
    assert Exec(s.first, env, w, 0) == Exec(if i != 0 then s.first.thn else s.first.els, env, w, 0) == Done(w1);
    assert EventOf(s.rest.call, Reads(env, w1)) == Some(ADD);
  }

  // --- its phases ---

  const PutCall: Invoke<()> := Call(TOP, "put", Ref((), STRONG))
  const AddCall: Invoke<()> := Call(TOP, "add", Ref((), STRONG))

  lemma LabelledProjects()
    ensures Project(TOP, Labelled) == PSeq(PIncrement(X), PSeq(PSkip, PPerform(AddCall)))
    ensures Project(BOTTOM, Labelled) == PLet(BOTTOM, X, GetRhs, PSeq(PIf(Var(Ref((), X)), PPerform(PutCall), PSkip), PSkip))
  {
    var s := Labelled;
    assert StripCall(s.body.first.thn.call) == PutCall && StripCall(s.body.rest.call) == AddCall && StripCall(s.rhs.call) == GetRhs.call;
    assert Project(TOP, s.body) == PSeq(PSkip, PPerform(AddCall));
    assert Project(BOTTOM, s.body.first) == PIf(Var(Ref((), X)), PPerform(PutCall), PSkip);
    assert Project(BOTTOM, s.body) == PSeq(PIf(Var(Ref((), X)), PPerform(PutCall), PSkip), PSkip);
  }

  lemma StrongPhase(st: Store) returns (st': Store)
    requires At(st, X) == Holder([], -1)
    ensures Run(Project(TOP, Labelled), ARGS, st, 0) == Done(st') && At(st', X) == Holder([], 0)
    ensures Received(st'.remote, TOP) == Received(st.remote, TOP) + [ADD]
  {
    LabelledProjects();
    var st1 := Update(st, X, Increment(At(st, X)));
    assert EventOf(AddCall, Gets(ARGS, st1)) == Some(ADD);
    st' := st1.(remote := Send(ARGS, st1.remote, TOP, ADD).0);
    assert Run(PPerform(AddCall), ARGS, st1, 0) == Done(st');
    Then(PSkip, PPerform(AddCall), ARGS, st1, st1, 0);
    Then(PIncrement(X), PSeq(PSkip, PPerform(AddCall)), ARGS, st, st1, 0);
  }

  lemma WeakPhase(st: Store) returns (st': Store)
    requires At(st, X) == Holder([], -1)
    ensures Run(Project(BOTTOM, Labelled), ARGS, st, 0) == Done(st')
    ensures Received(st'.remote, TOP) == Received(st.remote, TOP) + [STRONG_PUT]
  {
    LabelledProjects();
    assert EventOf(GetRhs.call, Gets(ARGS, st)) == Some(GET);
    var st1 := st.(remote := Send(ARGS, st.remote, BOTTOM, GET).0);
    assert RunRhs(GetRhs, ARGS, st) == Some((st1, 1));
    assert Push(At(st1, X), 1) == Holder([1], 0);
    st' := WeakBody(Update(st1, X, Holder([1], 0)));
  }

  lemma WeakBody(st: Store) returns (st': Store)
    requires At(st, X) == Holder([1], 0)
    ensures Run(PSeq(PIf(Var(Ref((), X)), PPerform(PutCall), PSkip), PSkip), ARGS, st, 0) == Done(st')
    ensures Received(st'.remote, TOP) == Received(st.remote, TOP) + [STRONG_PUT]
  {
    var p := PIf(Var(Ref((), X)), PPerform(PutCall), PSkip);
    assert EventOf(PutCall, Gets(ARGS, st)) == Some(STRONG_PUT);
    st' := st.(remote := Send(ARGS, st.remote, TOP, STRONG_PUT).0);
    assert Get(ARGS, st, X) == Some(1);
    assert Run(p, ARGS, st, 0) == Run(PPerform(PutCall), ARGS, st, 0) == Done(st');
    Then(p, PSkip, ARGS, st, st', 0);
  }

  /** The program is accepted and meets every other condition, but its call sits in a context that
      may not influence the object: the object receives `put` before `add` from the program, and
      `add` before `put` from its phases. */
  lemma PermittedCallsAreNeeded(remote: map<Label, seq<Event>>)
    ensures CompilesTo(ARGS, Source, Labelled)
    ensures Described(BottomSig, ARGS, Labelled) && W.LateOnce(BottomSig, Labelled) && W.LoopsOnce(BottomSig, BOTTOM, Labelled)
    ensures !CallsPermitted(TOP, Labelled)
    ensures var w, r := Exec(Labelled, ARGS, Start(remote), 0), RunPhases(PHASES, Labelled, ARGS, Launch(remote), 0);
            && w.Done? && Received(w.s.remote, TOP) == Received(remote, TOP) + [STRONG_PUT, ADD]
            && r.Done? && Received(r.s.remote, TOP) == Received(remote, TOP) + [ADD, STRONG_PUT]
  {
    SourceIsAccepted(ARGS);
    SourceRuns(ARGS, remote);
    OtherwiseFine();
    PhasesRun(remote);
  }

  lemma OtherwiseFine()
    ensures Described(BottomSig, ARGS, Labelled) && W.LateOnce(BottomSig, Labelled) && W.LoopsOnce(BottomSig, BOTTOM, Labelled)
    ensures !CallsPermitted(TOP, Labelled)
  {
    assert !CallsPermitted(TOP, Labelled.body.first);
    assert Described(BottomSig, ARGS, Labelled.body.first.thn) && Described(BottomSig, ARGS, Labelled.body.first.els);
    assert Described(BottomSig, ARGS, Labelled.body.first);
  }

  lemma PhasesRun(remote: map<Label, seq<Event>>)
    ensures var r := RunPhases(PHASES, Labelled, ARGS, Launch(remote), 0);
            r.Done? && Received(r.s.remote, TOP) == Received(remote, TOP) + [ADD, STRONG_PUT]
  {
    var st1 := StrongPhase(BeginPhase(Launch(remote)));
    var st2 := WeakPhase(BeginPhase(st1));
    assert Received(remote, TOP) + [ADD] + [STRONG_PUT] == Received(remote, TOP) + [ADD, STRONG_PUT];
    TwoPhases(Labelled, ARGS, Launch(remote), 0);
  }

  // --- and what its strong store gives away ---

  /** The same handles; an object answers how many calls it had received before. */
  const COUNTING := Env(map[WEAK := 10, STRONG := 20], (k, events: seq<Event>) => |events| - 1)

  const TopView := N.View(TOP, x => false, n => false)
  const NothingSent: map<Label, seq<Event>> := map[]
  const OneSent: map<Label, seq<Event>> := map[BOTTOM := [GET]]

  lemma StrongStoreDiffers()
    ensures var a, b := Exec(Labelled, COUNTING, Start(NothingSent), 0), Exec(Labelled, COUNTING, Start(OneSent), 0);
            && a.Done? && Received(a.s.remote, TOP) == [ADD]
            && b.Done? && Received(b.s.remote, TOP) == [STRONG_PUT, ADD]
  {
    SourceRuns(COUNTING, NothingSent);
    SourceRuns(COUNTING, OneSent);
    assert Received(OneSent, BOTTOM) == [GET] && Received(NothingSent, BOTTOM) == [];
    assert Received(OneSent, TOP) == [] && Received(NothingSent, TOP) == [];
  }

  lemma OnlyContextIsWrong()
    ensures N.Sides(TopView, Labelled) && !CallsFrom(TOP, TOP, Labelled)
    ensures N.Alike(TopView, Start(NothingSent), Start(OneSent))
  {
    assert !CallsFrom(TOP, TOP, Labelled.body.first) && !CallsFrom(TOP, TOP, Labelled.body);
    assert N.Sides(TopView, Labelled.body.first) && N.Sides(TopView, Labelled.body);
  }

  /** Two runs of the accepted program that start alike at `top` and differ there in the end: whether
      the strong object receives `put` depends on what the weak one answers. */
  lemma ContextsMatterToNoninterference()
    ensures CompilesTo(COUNTING, Source, Labelled)
    ensures N.Sides(TopView, Labelled) && !CallsFrom(TOP, TOP, Labelled)
    ensures N.Alike(TopView, Start(NothingSent), Start(OneSent))
    ensures var a, b := Exec(Labelled, COUNTING, Start(NothingSent), 0), Exec(Labelled, COUNTING, Start(OneSent), 0);
            a.Done? && b.Done? && Received(a.s.remote, TOP) == [ADD] && Received(b.s.remote, TOP) == [STRONG_PUT, ADD]
  {
    SourceIsAccepted(COUNTING);
    StrongStoreDiffers();
    OnlyContextIsWrong();
  }
}
