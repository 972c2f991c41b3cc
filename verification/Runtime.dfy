/** The interpreter of a phase, and the attempts it takes to commit one. */
module Runtime {
  import opened Labels
  import opened Syntax
  import opened Semantics
  import opened SplitPhase
  import opened PhaseRun
  import opened Environments
  import opened Frame

  datatype Status = Ran | Failed | Interrupted

  /** `status` and `now` are what the run `out` says. */
  ghost predicate Reports(out: Outcome<Store>, status: Status, now: Store) {
    match out
    case Done(st) => status == Ran && now == st
    case Fault => status == Failed
    case Timeout => status == Interrupted
  }

  class TxnStore {
    const vars: map<Name, TypeHolder>
    const counters: map<LoopName, ValueHolder>
    var remote: map<Label, seq<Event>>
    var ret: Option<int>

    constructor (vars: map<Name, TypeHolder>, counters: map<LoopName, ValueHolder>, remote: map<Label, seq<Event>>, ret: Option<int>)
      ensures this.vars == vars && this.counters == counters && this.remote == remote && this.ret == ret
    {
      this.vars, this.counters, this.remote, this.ret := vars, counters, remote, ret;
    }

    /** Every name has a holder of its own. */
    ghost predicate Valid() {
      && (forall x, y | x in vars && y in vars && x != y :: vars[x] != vars[y])
      && (forall m, n | m in counters && n in counters && m != n :: counters[m] != counters[n])
    }

    ghost function Repr(): set<object> {
      {this} + (set x | x in vars :: vars[x] as object) + (set n | n in counters :: counters[n] as object)
    }

    /** The store as a value. */
    ghost function Model(): Store
      reads Repr()
    {
      Store(map x | x in vars :: vars[x].Value(),
            map n | n in counters && counters[n].Value().Some? :: counters[n].Value().value,
            remote, ret)
    }

    predicate Readable(env: Env, xs: set<Name>) {
      forall x | x in xs :: x in vars || Input(env, x).Some?
    }

    /** The store has a holder for all a phase mentions. */
    predicate Covers(env: Env, p: PStmt) {
      && Readable(env, Uses(p))
      && (forall x | x in Touched(p) :: x in vars)
      && (forall n | n in Counts(p) + Repeats(p) :: n in counters)
    }

    function EvalVar(env: Env, x: Name): (r: Option<int>)
      requires Readable(env, {x})
      reads Repr()
      ensures r == Get(env, Model(), x)
    {
      if Input(env, x).Some? then Input(env, x)
      else
        assert x in {x};
        vars[x].Current()
    }

    function EvalExpr(env: Env, e: Expr<()>): (r: Option<int>)
      requires Readable(env, Names(e))
      reads Repr()
      ensures r == Eval(e, Gets(env, Model()))
      decreases e
    {
      match e
      case Const(i) => Some(i)
      case Var(v) => EvalVar(env, v.x)
      case Bin(_, op, a, b) =>
        var va, vb := EvalExpr(env, a), EvalExpr(env, b);
        if va.None? || vb.None? then None else Apply(op, va.value, vb.value)
    }

    function EvalArgs(env: Env, rs: seq<Ref<()>>): (r: Option<seq<int>>)
      requires Readable(env, RefNames(rs))
      reads Repr()
      ensures r == EvalRefs(rs, Gets(env, Model()))
      decreases rs
    {
      if rs == [] then Some([])
      else
        var v, vs := EvalVar(env, rs[0].x), EvalArgs(env, rs[1..]);
        if v.None? || vs.None? then None else Some([v.value] + vs.value)
    }

    function EvalCall(env: Env, c: Invoke<()>): (r: Option<Event>)
      requires Readable(env, CallNames(c))
      reads Repr()
      ensures r == EventOf(c, Gets(env, Model()))
    {
      var h, vs := EvalVar(env, c.handle.x), EvalArgs(env, c.args);
      if h.None? || vs.None? then None else Some(Event(c.name, h.value, vs.value))
    }

    /** Performs a call on the store of label `k`; the answer is the remote object's. */
    method SendEvent(env: Env, k: Label, ev: Event) returns (v: int)
      modifies this`remote
      ensures Model() == old(Model()).(remote := Send(env, old(remote), k, ev).0)
      ensures v == Send(env, old(remote), k, ev).1
    {
      var log := Received(remote, k) + [ev];
      remote := remote[k := log];
      v := env.respond(k, log);
    }

    lemma Updated(x: Name, st: Store, h: Holder)
      requires Valid() && x in vars && st.vars.Keys == vars.Keys
      requires vars[x].Value() == h
      requires forall y | y in vars && y != x :: vars[y].Value() == st.vars[y]
      requires st.(vars := Model().vars) == Model()
      ensures Model() == Update(st, x, h)
    {
      assert Model().vars == st.vars[x := h];
    }

    method AdvanceVar(x: Name)
      requires Valid() && x in vars
      modifies vars[x]
      ensures Model() == Update(old(Model()), x, Increment(At(old(Model()), x)))
    {
      ghost var st := Model();
      vars[x].Advance();
      Updated(x, st, Increment(At(st, x)));
    }

    method PushVar(x: Name, v: int)
      requires Valid() && x in vars
      modifies vars[x]
      ensures Model() == Update(old(Model()), x, Push(At(old(Model()), x), v))
    {
      ghost var st := Model();
      vars[x].Append(v);
      Updated(x, st, Push(At(st, x), v));
    }

    method BindVar(x: Name, v: int) returns (ok: bool)
      requires Valid() && x in vars
      modifies vars[x]
      ensures var h := Push(At(old(Model()), x), v); Model() == Update(old(Model()), x, h) && ok == InRange(h)
    {
      ghost var st := Model();
      ok := vars[x].Bind(v);
      Updated(x, st, Push(At(st, x), v));
    }

    /** The right-hand side of a binding. */
    method Evaluate(env: Env, rhs: Rhs<()>) returns (r: Option<int>)
      requires Readable(env, RhsNames(rhs))
      modifies this`remote
      ensures r.None? <==> RunRhs(rhs, env, old(Model())).None?
      ensures r.Some? ==> RunRhs(rhs, env, old(Model())) == Some((Model(), r.value))
    {
      match rhs
      case Pure(e) => r := EvalExpr(env, e);
      case Remote(_, c) =>
        var ev := EvalCall(env, c);
        if ev.None? { return None; }
        var v := SendEvent(env, c.handleLabel, ev.value);
        r := Some(v);
    }

    /** Runs a phase's statement. A return unwinds to its end: what follows it is not run. */
    method Run(env: Env, p: PStmt, fuel: nat) returns (status: Status)
      requires Valid() && Covers(env, p)
      modifies Repr()
      ensures Reports(PhaseRun.RunStops(p, env, old(Model()), fuel), status, Model())
      decreases fuel, p, 1
    {
      match p
      case PLet(_, _, _, _) => status := RunLet(env, p, fuel);
      case PIncrement(x) =>
        AdvanceVar(x);
        status := Ran;
      case PAssign(_, _) => status := RunSimple(env, p, fuel);
      case PPerform(_) => status := RunSimple(env, p, fuel);
      case PReturn(_) => status := RunSimple(env, p, fuel);
      case PIf(_, _, _) => status := RunIf(env, p, fuel);
      case PWhile(_, _, _) => status := RunLoop(env, p, fuel);
      case PForEach(_, _) => status := RunCounted(env, p, fuel);
      case PSkip => status := Ran;
      case PSeq(_, _) => status := RunSeq(env, p, fuel);
    }

    method RunSimple(env: Env, p: PStmt, ghost fuel: nat) returns (status: Status)
      requires p.PAssign? || p.PPerform? || p.PReturn?
      requires Valid() && Covers(env, p)
      modifies Repr()
      ensures Reports(PhaseRun.RunStops(p, env, old(Model()), fuel), status, Model())
    {
      match p
      case PAssign(x, e) =>
        var v := EvalExpr(env, e);
        if v.None? { return Failed; }
        PushVar(x, v.value);
        status := Ran;
      case PPerform(c) =>
        var ev := EvalCall(env, c);
        if ev.None? { return Failed; }
        var _ := SendEvent(env, c.handleLabel, ev.value);
        status := Ran;
      case PReturn(e) =>
        var v := EvalExpr(env, e);
        if v.None? { return Failed; }
        ret := v;
        status := Ran;
    }

    method RunIf(env: Env, p: PStmt, fuel: nat) returns (status: Status)
      requires Valid() && p.PIf? && Covers(env, p)
      modifies Repr()
      ensures Reports(PhaseRun.RunStops(p, env, old(Model()), fuel), status, Model())
      decreases fuel, p, 0
    {
      var v := EvalExpr(env, p.cond);
      if v.None? { return Failed; }
      if v.value != 0 {
        status := Run(env, p.thn, fuel);
      } else {
        status := Run(env, p.els, fuel);
      }
    }

    method RunSeq(env: Env, p: PStmt, fuel: nat) returns (status: Status)
      requires Valid() && p.PSeq? && Covers(env, p)
      modifies Repr()
      ensures Reports(PhaseRun.RunStops(p, env, old(Model()), fuel), status, Model())
      decreases fuel, p, 0
    {
      status := Run(env, p.first, fuel);
      if status == Ran && ret.None? {
        status := Run(env, p.rest, fuel);
      }
    }

    method RunLet(env: Env, p: PStmt, fuel: nat) returns (status: Status)
      requires Valid() && p.PLet? && Covers(env, p)
      modifies Repr()
      ensures Reports(PhaseRun.RunStops(p, env, old(Model()), fuel), status, Model())
      decreases fuel, p, 0
    {
      var v := Evaluate(env, p.rhs);
      if v.None? { return Failed; }
      var ok := BindVar(p.x, v.value);
      if !ok { return Failed; }
      status := Run(env, p.body, fuel);
    }

    lemma Counted(n: LoopName, st: Store, i: int)
      requires Valid() && n in counters && counters[n].Value() == Some(i)
      requires forall m | m in counters && m != n :: (m in st.loops <==> counters[m].Value().Some?) && (m in st.loops ==> counters[m].Value() == Some(st.loops[m]))
      requires forall m | m in st.loops :: m in counters
      requires st.(loops := Model().loops) == Model()
      ensures Model() == st.(loops := st.loops[n := i])
    {
      assert Model().loops == st.loops[n := i];
    }

    method SetCounter(n: LoopName, i: int)
      requires Valid() && n in counters
      modifies counters[n]
      ensures Model() == old(Model()).(loops := old(Model()).loops[n := i])
    {
      ghost var st := Model();
      counters[n].Bind(i);
      Counted(n, st, i);
    }

    /** The `i`-th round of a loop. */
    method RunRound(env: Env, p: PStmt, i: int, fuel: nat) returns (status: Status)
      requires Valid() && p.PWhile? && Covers(env, p)
      modifies Repr()
      ensures Reports(PhaseRun.RunStops(p.body, env, old(Model()).(loops := old(Model()).loops[p.name := i]), fuel), status, Model())
      decreases fuel, p, 0
    {
      SetCounter(p.name, i);
      status := Run(env, p.body, fuel);
    }

    /** Goes round as long as the condition holds, counting the rounds in the loop's holder. */
    method RunLoop(env: Env, p: PStmt, fuel: nat) returns (status: Status)
      requires Valid() && p.PWhile? && Covers(env, p)
      modifies Repr()
      ensures Reports(PhaseRun.RunStops(p, env, old(Model()), fuel), status, Model())
      decreases fuel, p, 0
    {
      var i: nat, left: nat := 0, fuel;
      ghost var out := PhaseRun.RunStops(p, env, Model(), fuel);
      SetCounter(p.name, i);
      var v := EvalExpr(env, p.cond);
      while v.Some? && v.value != 0
        invariant left <= fuel
        invariant v == Eval(p.cond, Gets(env, Model()))
        invariant out == RunWhileStops(p, env, Model(), i, left)
        decreases left
      {
        if left == 0 { return Interrupted; }
        i := i + 1;
        status := RunRound(env, p, i, left - 1);
        if status != Ran || ret.Some? { return; }
        left := left - 1;
        v := EvalExpr(env, p.cond);
      }
      status := if v.None? then Failed else Ran;
    }

    /** Goes round as often as the loop's holder says. */
    method RunCounted(env: Env, p: PStmt, fuel: nat) returns (status: Status)
      requires Valid() && p.PForEach? && Covers(env, p)
      modifies Repr()
      ensures Reports(PhaseRun.RunStops(p, env, old(Model()), fuel), status, Model())
      decreases fuel, p, 0
    {
      if counters[p.name].uninitialized { return Failed; }
      var bound := counters[p.name].t;
      ghost var out := PhaseRun.RunStops(p, env, Model(), fuel);
      var i := 0;
      while i < bound
        invariant out == RunTimesStops(p, env, Model(), bound - i, fuel)
      {
        status := Run(env, p.body, fuel);
        if status != Ran || ret.Some? { return; }
        i := i + 1;
      }
      status := Ran;
    }

    method ResetVars()
      requires Valid()
      modifies set x | x in vars :: vars[x]
      ensures forall x | x in vars :: vars[x].Value() == old(vars[x].Value()).(pos := -1)
    {
      var todo := vars.Keys;
      while todo != {}
        invariant todo <= vars.Keys
        invariant forall x | x in todo :: vars[x].Value() == old(vars[x].Value())
        invariant forall x | x in vars && x !in todo :: vars[x].Value() == old(vars[x].Value()).(pos := -1)
        decreases todo
      {
        var x :| x in todo;
        vars[x].ResetIndex();
        todo := todo - {x};
      }
    }

    /** Every cursor goes back before its first entry. */
    method StartPhase()
      requires Valid()
      modifies Repr()
      ensures Model() == BeginPhase(old(Model()))
    {
      ghost var st := Model();
      ResetVars();
      assert Model().vars == BeginPhase(st).vars;
      assert Model().loops == st.loops;
    }

    /** A store with holders of its own and the same contents. */
    method Clone() returns (c: TxnStore)
      requires Valid()
      ensures c.Valid() && fresh(c.Repr()) && Apart(c)
      ensures c.Model() == old(Model())
    {
      ghost var st := Model();
      ContainsModel(st);
      var newVars := CloneVars();
      var newCounters := CloneCounters();
      c := new TxnStore(newVars, newCounters, remote, ret);
      assert c.Contains(st);
      c.ContainsModel(st);
    }

    method CloneVars() returns (m: map<Name, TypeHolder>)
      requires Valid()
      ensures m.Keys == vars.Keys
      ensures forall x | x in m :: fresh(m[x]) && m[x].Value() == vars[x].Value()
      ensures forall x, y | x in m && y in m && x != y :: m[x] != m[y]
    {
      m := map[];
      var todo := vars.Keys;
      while todo != {}
        invariant todo <= vars.Keys && m.Keys == vars.Keys - todo
        invariant forall x | x in m :: fresh(m[x]) && m[x].Value() == vars[x].Value()
        invariant forall x, y | x in m && y in m && x != y :: m[x] != m[y]
        decreases todo
      {
        var x :| x in todo;
        var h := new TypeHolder();
        h.CopyFrom(vars[x]);
        m := m[x := h];
        todo := todo - {x};
      }
    }

    method CloneCounters() returns (m: map<LoopName, ValueHolder>)
      requires Valid()
      ensures m.Keys == counters.Keys
      ensures forall n | n in m :: fresh(m[n]) && m[n].Value() == counters[n].Value()
      ensures forall n, k | n in m && k in m && n != k :: m[n] != m[k]
    {
      m := map[];
      var todo := counters.Keys;
      while todo != {}
        invariant todo <= counters.Keys && m.Keys == counters.Keys - todo
        invariant forall n | n in m :: fresh(m[n]) && m[n].Value() == counters[n].Value()
        invariant forall n, k | n in m && k in m && n != k :: m[n] != m[k]
        decreases todo
      {
        var n :| n in todo;
        var h := new ValueHolder();
        h.CopyFrom(counters[n]);
        m := m[n := h];
        todo := todo - {n};
      }
    }

    /** `o` has a holder for the same names, and shares none with this store. */
    ghost predicate Apart(o: TxnStore) {
      && o != this && o.vars.Keys == vars.Keys && o.counters.Keys == counters.Keys
      && (forall x, y | x in vars && y in vars :: vars[x] != o.vars[y])
      && (forall m, n | m in counters && n in counters :: counters[m] != o.counters[n])
    }

    /** The store's value, holder by holder. */
    ghost predicate Contains(st: Store)
      reads Repr()
    {
      && st.vars.Keys == vars.Keys && (forall x | x in vars :: vars[x].Value() == st.vars[x])
      && (forall n | n in st.loops :: n in counters)
      && (forall n | n in counters :: counters[n].Value() == if n in st.loops then Some(st.loops[n]) else None)
      && remote == st.remote && ret == st.ret
    }

    lemma ContainsModel(st: Store)
      ensures Contains(st) <==> Model() == st
    {
      if Contains(st) {
        assert Model().vars == st.vars;
        assert Model().loops == st.loops;
      }
    }

    /** Takes over the contents of another store, holder by holder. */
    method Take(o: TxnStore)
      requires Valid() && Apart(o)
      modifies Repr()
      ensures Model() == old(o.Model())
    {
      ghost var st := o.Model();
      o.ContainsModel(st);
      remote, ret := o.remote, o.ret;
      TakeHolders(o, st);
      ContainsModel(st);
    }

    method TakeHolders(o: TxnStore, ghost st: Store)
      requires Valid() && Apart(o) && o.Contains(st)
      modifies set x | x in vars :: vars[x], set n | n in counters :: counters[n]
      ensures forall x | x in vars :: vars[x].Value() == st.vars[x]
      ensures forall n | n in counters :: counters[n].Value() == if n in st.loops then Some(st.loops[n]) else None
    {
      TakeVars(o);
      TakeCounters(o);
    }

    method TakeVars(o: TxnStore)
      requires Valid() && Apart(o)
      modifies set x | x in vars :: vars[x]
      ensures forall x | x in vars :: vars[x].Value() == old(o.vars[x].Value())
    {
      var todo := vars.Keys;
      while todo != {}
        invariant todo <= vars.Keys
        invariant forall x | x in vars && x !in todo :: vars[x].Value() == old(o.vars[x].Value())
        decreases todo
      {
        var x :| x in todo;
        vars[x].CopyFrom(o.vars[x]);
        todo := todo - {x};
      }
    }

    method TakeCounters(o: TxnStore)
      requires Valid() && Apart(o)
      modifies set n | n in counters :: counters[n]
      ensures forall n | n in counters :: counters[n].Value() == old(o.counters[n].Value())
    {
      var todo := counters.Keys;
      while todo != {}
        invariant todo <= counters.Keys
        invariant forall n | n in counters && n !in todo :: counters[n].Value() == old(o.counters[n].Value())
        decreases todo
      {
        var n :| n in todo;
        counters[n].CopyFrom(o.counters[n]);
        todo := todo - {n};
      }
    }

    method RunAfresh(env: Env, p: PStmt, fuel: nat) returns (status: Status)
      requires Valid() && Covers(env, p)
      modifies Repr()
      ensures Reports(PhaseRun.RunStops(p, env, BeginPhase(old(Model())), fuel), status, Model())
    {
      StartPhase();
      status := Run(env, p, fuel);
    }

    /** Runs a phase on a clone. */
    method Try(env: Env, p: PStmt, fuel: nat) returns (s: TxnStore, status: Status)
      requires Valid() && Covers(env, p)
      ensures s.Valid() && fresh(s.Repr()) && Apart(s)
      ensures Reports(PhaseRun.RunStops(p, env, BeginPhase(old(Model())), fuel), status, s.Model())
    {
      s := Clone();
      assert s.Model() == old(Model());
      status := s.RunAfresh(env, p, fuel);
    }

    /** Takes over a finished attempt, if it is to be kept. */
    method Commit(o: TxnStore, keep: bool)
      requires Valid() && Apart(o)
      modifies Repr()
      ensures Model() == if keep then old(o.Model()) else old(Model())
    {
      if keep { Take(o); }
    }

    /** One attempt at a phase; only a successful one is committed. */
    method Attempt(env: Env, p: PStmt, fuel: nat, commit: bool) returns (status: Status)
      requires Valid() && Covers(env, p)
      modifies Repr()
      ensures !commit ==> Model() == old(Model())
      ensures commit ==> Commits(PhaseRun.RunStops(p, env, BeginPhase(old(Model())), fuel), status, old(Model()), Model())
    {
      var s;
      s, status := Try(env, p, fuel);
      Commit(s, commit && status == Ran);
    }

    /** Runs a phase to its commit. `aborted` lists the attempts the database aborts, by how far
        each gets; a phase that may abort gives up at the first of them, any other tries again. */
    method CommonInterp(env: Env, p: PStmt, canAbort: bool, aborted: seq<nat>, fuel: nat) returns (gaveUp: bool, status: Status)
      requires Valid() && Covers(env, p)
      modifies Repr()
      ensures gaveUp <==> canAbort && aborted != []
      ensures gaveUp ==> Model() == old(Model())
      ensures !gaveUp ==> Commits(PhaseRun.RunStops(p, env, BeginPhase(old(Model())), fuel), status, old(Model()), Model())
    {
      gaveUp := false;
      ghost var st := Model();
      var i := 0;
      while i < |aborted|
        invariant i <= |aborted| && Model() == st
        invariant i > 0 ==> !canAbort
      {
        status := Attempt(env, p, aborted[i], false);
        if canAbort { return true, Interrupted; }
        i := i + 1;
      }
      status := Attempt(env, p, fuel, true);
    }

    /** The next phase of a transaction that started on `start`. */
    method RunNext(env: Env, labels: seq<Label>, i: nat, s: Stmt<Label>, canAbort: Label -> bool, aborted: Label -> seq<nat>, ghost start: Store, fuel: nat)
      returns (gaveUp: bool, status: Status)
      requires Valid() && i < |labels| && Covers(env, Project(labels[i], s))
      requires RunPhasesStops(labels[..i], s, env, start, fuel) == Done(Model())
      modifies Repr()
      ensures gaveUp <==> GivesUp(labels[i], canAbort, aborted)
      ensures if !gaveUp && status == Ran then RunPhasesStops(labels[..i + 1], s, env, start, fuel) == Done(Model()) else Model() == old(Model())
      ensures !gaveUp && status != Ran ==> !RunPhasesStops(labels, s, env, start, fuel).Done?
    {
      PhaseAfter(labels, i, s, env, start, Model(), fuel);
      gaveUp, status := CommonInterp(env, Project(labels[i], s), canAbort(labels[i]), aborted(labels[i]), fuel);
    }

    /** The phases of a program, each retried until it commits. If the database aborts one that may
        abort, the transaction stops there, and the phases before it stay committed. */
    method RunTransaction(env: Env, labels: seq<Label>, s: Stmt<Label>, canAbort: Label -> bool, aborted: Label -> seq<nat>, fuel: nat)
      returns (gaveUp: bool, status: Status, done: nat)
      requires Valid() && forall l | l in labels :: Covers(env, Project(l, s))
      modifies Repr()
      ensures done <= |labels| && RunPhasesStops(labels[..done], s, env, old(Model()), fuel) == Done(Model())
      ensures forall j | 0 <= j < done :: !GivesUp(labels[j], canAbort, aborted)
      ensures gaveUp ==> done < |labels| && GivesUp(labels[done], canAbort, aborted)
      ensures !gaveUp ==> (status == Ran <==> RunPhasesStops(labels, s, env, old(Model()), fuel).Done?)
      ensures !gaveUp && status == Ran ==> done == |labels|
    {
      ghost var start := Model();
      done, gaveUp, status := 0, false, Ran;
      while done < |labels|
        invariant done <= |labels| && !gaveUp && status == Ran
        invariant RunPhasesStops(labels[..done], s, env, start, fuel) == Done(Model())
        invariant forall j | 0 <= j < done :: !GivesUp(labels[j], canAbort, aborted)
      {
        gaveUp, status := RunNext(env, labels, done, s, canAbort, aborted, start, fuel);
        if gaveUp || status != Ran { return; }
        done := done + 1;
      }
      assert labels[..done] == labels;
    }
  }

  /** The database aborts a phase that may abort. */
  predicate GivesUp(l: Label, canAbort: Label -> bool, aborted: Label -> seq<nat>) {
    canAbort(l) && aborted(l) != []
  }

  lemma OnlyPhase(l: Label, s: Stmt<Label>, env: Env, st: Store, fuel: nat)
    ensures RunPhasesStops([l], s, env, st, fuel) == PhaseRun.RunStops(Project(l, s), env, BeginPhase(st), fuel)
  {
    var r := PhaseRun.RunStops(Project(l, s), env, BeginPhase(st), fuel);
    assert [l][1..] == [];
    if r.Done? { assert RunPhasesStops([], s, env, r.s, fuel) == r; }
  }

  /** The `i`-th phase continues the run of those before it. */
  lemma PhaseAfter(labels: seq<Label>, i: nat, s: Stmt<Label>, env: Env, start: Store, st: Store, fuel: nat)
    requires i < |labels| && RunPhasesStops(labels[..i], s, env, start, fuel) == Done(st)
    ensures var r := PhaseRun.RunStops(Project(labels[i], s), env, BeginPhase(st), fuel);
            RunPhasesStops(labels[..i + 1], s, env, start, fuel) == r && (!r.Done? ==> RunPhasesStops(labels, s, env, start, fuel) == r)
  {
    PhasesSplit(labels, i, s, env, start, fuel);
    PhasesSplit(labels[..i + 1], i, s, env, start, fuel);
    assert labels[..i + 1][..i] == labels[..i] && labels[..i + 1][i..] == [labels[i]];
    OnlyPhase(labels[i], s, env, st, fuel);
    assert labels[i..][0] == labels[i] && labels[i..][1..] == labels[i + 1..];
  }

  lemma {:induction false} PhasesSplit(labels: seq<Label>, i: nat, s: Stmt<Label>, env: Env, st: Store, fuel: nat)
    requires i <= |labels|
    ensures var r := RunPhasesStops(labels[..i], s, env, st, fuel);
            RunPhasesStops(labels, s, env, st, fuel) == if r.Done? then RunPhasesStops(labels[i..], s, env, r.s, fuel) else r
    decreases i
  {
    if i == 0 {
      assert labels[..i] == [] && labels[i..] == labels;
    } else {
      assert labels[..i][0] == labels[0] && labels[..i][1..] == labels[1..][..i - 1] && labels[i..] == labels[1..][i - 1..];
      var r := PhaseRun.RunStops(Project(labels[0], s), env, BeginPhase(st), fuel);
      if r.Done? { PhasesSplit(labels[1..], i - 1, s, env, r.s, fuel); }
    }
  }

  /** The effect of a committed attempt that would end in `out`: exactly one successful run, or
      none at all. */
  ghost predicate Commits(out: Outcome<Store>, status: Status, before: Store, after: Store) {
    match out
    case Done(st) => status == Ran && after == st
    case Fault => status == Failed && after == before
    case Timeout => status == Interrupted && after == before
  }
}
