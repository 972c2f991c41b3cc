/** What an unsplit program means: statements run in program order on one world. */
module Semantics {
  import opened Labels
  import opened Syntax

  /** One remote call, as the object's store receives it. */
  datatype Event = Event(op: string, handle: int, args: seq<int>)

  /** What a transaction is started with: its arguments, and how a store of a given label
      answers the last call of a history. */
  datatype Env = Env(inputs: map<Name, int>, respond: (Label, seq<Event>) -> int)

  /** `hist` holds all values written to a variable so far, `loops` how often each loop
      went round when it last ran, `remote` the calls each label's store has received. */
  datatype World = World(
    hist: map<Name, seq<int>>,
    loops: map<LoopName, int>,
    remote: map<Label, seq<Event>>,
    ret: Option<int>)

  datatype Outcome<+S> = Done(s: S) | Fault | Timeout

  function Hist(w: World, x: Name): seq<int> {
    if x in w.hist then w.hist[x] else []
  }

  function Received(m: map<Label, seq<Event>>, k: Label): seq<Event> {
    if k in m then m[k] else []
  }

  function Write(w: World, x: Name, v: int): World {
    w.(hist := w.hist[x := Hist(w, x) + [v]])
  }

  /** Transaction arguments and the two boolean constants. */
  function Input(env: Env, x: Name): Option<int> {
    if x == True then Some(1)
    else if x == False then Some(0)
    else if x in env.inputs then Some(env.inputs[x])
    else None
  }

  function Read(env: Env, w: World, x: Name): Option<int> {
    if Input(env, x).Some? then Input(env, x)
    else if Hist(w, x) == [] then None
    else Some(Hist(w, x)[|Hist(w, x)| - 1])
  }

  type Reader = Name -> Option<int>

  function Reads(env: Env, w: World): Reader {
    x => Read(env, w, x)
  }

  function Truth(b: bool): int {
    if b then 1 else 0
  }

  /** Integer division truncates toward zero; dividing by zero has no value. */
  function Quotient(a: int, b: int): Option<int> {
    if b == 0 then None
    else if a >= 0 then (if b > 0 then Some(a / b) else Some(-(a / -b)))
    else if b > 0 then Some(-(-a / b))
    else Some(-a / -b)
  }

  function Apply(op: Op, a: int, b: int): Option<int> {
    match op
    case Add => Some(a + b)
    case Sub => Some(a - b)
    case Mul => Some(a * b)
    case Div => Quotient(a, b)
    case Eq => Some(Truth(a == b))
    case And => Some(Truth(a != 0 && b != 0))
    case Or => Some(Truth(a != 0 || b != 0))
    case Gt => Some(Truth(a > b))
    case Lt => Some(Truth(a < b))
  }

  /** Both operands are always evaluated. */
  function Eval<L>(e: Expr<L>, rd: Reader): Option<int> {
    match e
    case Const(i) => Some(i)
    case Var(r) => rd(r.x)
    case Bin(_, op, a, b) =>
      var va, vb := Eval(a, rd), Eval(b, rd);
      if va.None? || vb.None? then None else Apply(op, va.value, vb.value)
  }

  function EvalRefs<L>(rs: seq<Ref<L>>, rd: Reader): Option<seq<int>> {
    if rs == [] then Some([])
    else
      var v, vs := rd(rs[0].x), EvalRefs(rs[1..], rd);
      if v.None? || vs.None? then None else Some([v.value] + vs.value)
  }

  /** The event a call sends, if all its arguments have a value. */
  function EventOf<L>(c: Invoke<L>, rd: Reader): Option<Event> {
    var h, vs := rd(c.handle.x), EvalRefs(c.args, rd);
    if h.None? || vs.None? then None else Some(Event(c.name, h.value, vs.value))
  }

  /** Sends an event to the store of label `k`; the answer depends on all it has received. */
  function Send(env: Env, m: map<Label, seq<Event>>, k: Label, ev: Event): (map<Label, seq<Event>>, int) {
    var log := Received(m, k) + [ev];
    (m[k := log], env.respond(k, log))
  }

  function ExecRhs<L>(r: Rhs<L>, env: Env, w: World): Option<(World, int)> {
    match r
    case Pure(e) =>
      var v := Eval(e, Reads(env, w));
      if v.None? then None else Some((w, v.value))
    case Remote(_, c) =>
      var ev := EventOf(c, Reads(env, w));
      if ev.None? then None
      else
        var (m, v) := Send(env, w.remote, c.handleLabel, ev.value);
        Some((w.(remote := m), v))
  }

  /** Runs a statement; `fuel` bounds how many loop iterations may be nested or chained. */
  function Exec<L>(s: Stmt<L>, env: Env, w: World, fuel: nat): Outcome<World>
    decreases fuel, s, 1
  {
    match s
    case Let(_, _, x, rhs, body) =>
      var r := ExecRhs(rhs, env, w);
      if r.None? then Fault else Exec(body, env, Write(r.value.0, x, r.value.1), fuel)
    case Assign(_, target, e) =>
      var v := Eval(e, Reads(env, w));
      if v.None? then Fault else Done(Write(w, target.x, v.value))
    case Perform(_, c) =>
      var ev := EventOf(c, Reads(env, w));
      if ev.None? then Fault else Done(w.(remote := Send(env, w.remote, c.handleLabel, ev.value).0))
    case Return(_, e) =>
      var v := Eval(e, Reads(env, w));
      if v.None? then Fault else Done(w.(ret := v))
    case If(_, cond, thn, els) =>
      var v := Eval(cond, Reads(env, w));
      if v.None? then Fault else Exec(if v.value != 0 then thn else els, env, w, fuel)
    case While(_, _, _, name) =>
      Iterate(s, env, w.(loops := w.loops[name := 0]), 0, fuel)
    case Skip(_) =>
      Done(w)
    case Seq(_, a, b) =>
      var r := Exec(a, env, w, fuel);
      if r.Done? then Exec(b, env, r.s, fuel) else r
  }

  /** The loop `s` after it has gone round `i` times. */
  function Iterate<L>(s: Stmt<L>, env: Env, w: World, i: nat, fuel: nat): Outcome<World>
    requires s.While?
    decreases fuel, s, 0
  {
    var v := Eval(s.cond, Reads(env, w));
    if v.None? then Fault
    else if v.value == 0 then Done(w)
    else if fuel == 0 then Timeout
    else
      var r := Exec(s.body, env, w.(loops := w.loops[s.name := i + 1]), fuel - 1);
      if r.Done? then Iterate(s, env, r.s, i + 1, fuel - 1) else r
  }

  // --- a value depends on the names it mentions only ---

  lemma {:induction false} EvalAgree<L>(e: Expr<L>, rd: Reader, rd': Reader)
    requires forall x | x in Names(e) :: rd(x) == rd'(x)
    ensures Eval(e, rd) == Eval(e, rd')
  {
    match e
    case Const(_) =>
    case Var(r) => assert r.x in Names(e);
    case Bin(_, _, a, b) =>
      EvalAgree(a, rd, rd');
      EvalAgree(b, rd, rd');
  }

  lemma {:induction false} RefsAgree<L>(rs: seq<Ref<L>>, rd: Reader, rd': Reader)
    requires forall x | x in RefNames(rs) :: rd(x) == rd'(x)
    ensures EvalRefs(rs, rd) == EvalRefs(rs, rd')
  {
    if rs != [] {
      assert rs[0].x in RefNames(rs);
      RefsAgree(rs[1..], rd, rd');
    }
  }

  lemma CallAgrees<L>(c: Invoke<L>, rd: Reader, rd': Reader)
    requires forall x | x in CallNames(c) :: rd(x) == rd'(x)
    ensures EventOf(c, rd) == EventOf(c, rd')
  {
    assert c.handle.x in CallNames(c);
    RefsAgree(c.args, rd, rd');
  }
}
