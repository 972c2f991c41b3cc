/** Running a phase: every local variable is an append-only log read through a cursor. */
module PhaseRun {
  import opened Labels
  import opened Syntax
  import opened Semantics
  import opened SplitPhase

  /** `log` holds every value written so far, by this phase and by earlier ones; the current
      value is the one at `pos`, which a fresh phase starts before the first entry. */
  datatype Holder = Holder(log: seq<int>, pos: int)

  datatype Store = Store(
    vars: map<Name, Holder>,
    loops: map<LoopName, int>,
    remote: map<Label, seq<Event>>,
    ret: Option<int>)

  function At(st: Store, x: Name): Holder {
    if x in st.vars then st.vars[x] else Holder([], -1)
  }

  /** Appends a value and moves the cursor one step, wherever it stands. */
  function Push(h: Holder, v: int): Holder {
    Holder(h.log + [v], h.pos + 1)
  }

  function Increment(h: Holder): Holder {
    Holder(h.log, h.pos + 1)
  }

  predicate InRange(h: Holder) {
    0 <= h.pos < |h.log|
  }

  function Get(env: Env, st: Store, x: Name): Option<int> {
    if Input(env, x).Some? then Input(env, x)
    else if InRange(At(st, x)) then Some(At(st, x).log[At(st, x).pos])
    else None
  }

  function Gets(env: Env, st: Store): Reader {
    x => Get(env, st, x)
  }

  function Update(st: Store, x: Name, h: Holder): Store {
    st.(vars := st.vars[x := h])
  }

  /** All cursors go back before the first entry; logs and loop counters stay. */
  function BeginPhase(st: Store): Store {
    st.(vars := map x | x in st.vars :: st.vars[x].(pos := -1))
  }

  function RunRhs(r: Rhs<()>, env: Env, st: Store): Option<(Store, int)> {
    match r
    case Pure(e) =>
      var v := Eval(e, Gets(env, st));
      if v.None? then None else Some((st, v.value))
    case Remote(_, c) =>
      var ev := EventOf(c, Gets(env, st));
      if ev.None? then None
      else
        var (m, v) := Send(env, st.remote, c.handleLabel, ev.value);
        Some((st.(remote := m), v))
  }

  /** Runs a phase's statement to its end, past any return in it. A read through a cursor outside its
      log, a binding that leaves the cursor outside its log, and an unset loop counter are faults. */
  function Run(p: PStmt, env: Env, st: Store, fuel: nat): Outcome<Store>
    decreases fuel, p, 1, 0
  {
    match p
    case PLet(_, x, rhs, body) =>
      var r := RunRhs(rhs, env, st);
      if r.None? then Fault
      else
        var h := Push(At(r.value.0, x), r.value.1);
        if InRange(h) then Run(body, env, Update(r.value.0, x, h), fuel) else Fault
    case PIncrement(x) =>
      Done(Update(st, x, Increment(At(st, x))))
    case PAssign(x, e) =>
      var v := Eval(e, Gets(env, st));
      if v.None? then Fault else Done(Update(st, x, Push(At(st, x), v.value)))
    case PPerform(c) =>
      var ev := EventOf(c, Gets(env, st));
      if ev.None? then Fault else Done(st.(remote := Send(env, st.remote, c.handleLabel, ev.value).0))
    case PReturn(e) =>
      var v := Eval(e, Gets(env, st));
      if v.None? then Fault else Done(st.(ret := v))
    case PIf(cond, thn, els) =>
      var v := Eval(cond, Gets(env, st));
      if v.None? then Fault else Run(if v.value != 0 then thn else els, env, st, fuel)
    case PWhile(_, _, name) =>
      RunWhile(p, env, st.(loops := st.loops[name := 0]), 0, fuel)
    case PForEach(body, name) =>
      if name !in st.loops then Fault else RunTimes(p, env, st, st.loops[name], fuel)
    case PSkip =>
      Done(st)
    case PSeq(a, b) =>
      var r := Run(a, env, st, fuel);
      if r.Done? then Run(b, env, r.s, fuel) else r
  }

  /** The loop `p` after it has gone round `i` times. */
  function RunWhile(p: PStmt, env: Env, st: Store, i: nat, fuel: nat): Outcome<Store>
    requires p.PWhile?
    decreases fuel, p, 0, 0
  {
    var v := Eval(p.cond, Gets(env, st));
    if v.None? then Fault
    else if v.value == 0 then Done(st)
    else if fuel == 0 then Timeout
    else
      var r := Run(p.body, env, st.(loops := st.loops[p.name := i + 1]), fuel - 1);
      if r.Done? then RunWhile(p, env, r.s, i + 1, fuel - 1) else r
  }

  /** The body of the counted loop `p`, `n` times. */
  function RunTimes(p: PStmt, env: Env, st: Store, n: int, fuel: nat): Outcome<Store>
    requires p.PForEach?
    decreases fuel, p, 0, n
  {
    if n <= 0 then Done(st)
    else
      var r := Run(p.body, env, st, fuel);
      if r.Done? then RunTimes(p, env, r.s, n - 1, fuel) else r
  }

  /** The phases of a program, strongest first, on one store, each to its end. */
  function RunPhases(labels: seq<Label>, s: Stmt<Label>, env: Env, st: Store, fuel: nat): Outcome<Store>
  {
    if labels == [] then Done(st)
    else
      var r := Run(Project(labels[0], s), env, BeginPhase(st), fuel);
      if r.Done? then RunPhases(labels[1..], s, env, r.s, fuel) else r
  }

  // --- stopping at a return ---

  /** Runs a phase's statement from a store without a result, up to its first return: a return ends
      the phase, and what it has done so far is kept. */
  function RunStops(p: PStmt, env: Env, st: Store, fuel: nat): Outcome<Store>
    decreases fuel, p, 1, 0
  {
    match p
    case PLet(_, x, rhs, body) =>
      var r := RunRhs(rhs, env, st);
      if r.None? then Fault
      else
        var h := Push(At(r.value.0, x), r.value.1);
        if InRange(h) then RunStops(body, env, Update(r.value.0, x, h), fuel) else Fault
    case PIf(cond, thn, els) =>
      var v := Eval(cond, Gets(env, st));
      if v.None? then Fault else RunStops(if v.value != 0 then thn else els, env, st, fuel)
    case PWhile(_, _, name) =>
      RunWhileStops(p, env, st.(loops := st.loops[name := 0]), 0, fuel)
    case PForEach(_, name) =>
      if name !in st.loops then Fault else RunTimesStops(p, env, st, st.loops[name], fuel)
    case PSeq(a, b) =>
      var r := RunStops(a, env, st, fuel);
      if r.Done? && r.s.ret.None? then RunStops(b, env, r.s, fuel) else r
    case _ => Run(p, env, st, fuel)
  }

  function RunWhileStops(p: PStmt, env: Env, st: Store, i: nat, fuel: nat): Outcome<Store>
    requires p.PWhile?
    decreases fuel, p, 0, 0
  {
    var v := Eval(p.cond, Gets(env, st));
    if v.None? then Fault
    else if v.value == 0 then Done(st)
    else if fuel == 0 then Timeout
    else
      var r := RunStops(p.body, env, st.(loops := st.loops[p.name := i + 1]), fuel - 1);
      if r.Done? && r.s.ret.None? then RunWhileStops(p, env, r.s, i + 1, fuel - 1) else r
  }

  function RunTimesStops(p: PStmt, env: Env, st: Store, n: int, fuel: nat): Outcome<Store>
    requires p.PForEach?
    decreases fuel, p, 0, n
  {
    if n <= 0 then Done(st)
    else
      var r := RunStops(p.body, env, st, fuel);
      if r.Done? && r.s.ret.None? then RunTimesStops(p, env, r.s, n - 1, fuel) else r
  }

  /** The phases of a program as they are run: strongest first, each up to a return in it. */
  function RunPhasesStops(labels: seq<Label>, s: Stmt<Label>, env: Env, st: Store, fuel: nat): Outcome<Store>
  {
    if labels == [] then Done(st)
    else
      var r := RunStops(Project(labels[0], s), env, BeginPhase(st), fuel);
      if r.Done? then RunPhasesStops(labels[1..], s, env, r.s, fuel) else r
  }
}
