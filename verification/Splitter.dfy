/** What the splitter asserts about a program while it projects it, and what each phase
    contributes to the next. */
module Splitter {
  import opened Labels
  import opened Syntax
  import opened Semantics
  import opened WellLabelled
  import opened Flows
  import opened Phases

  /** The bindings a phase can refer to: made by enclosing bindings of the same phase
      (`provided`), or by earlier phases. */
  datatype Api = Api(provided: set<Name>, inherits: set<Name>, loops: set<LoopName>)

  predicate Present(api: Api, x: Name) {
    x == True || x == False || x in api.provided || x in api.inherits
  }

  /** A reference is met only in phases it may influence, with its binding at hand. */
  predicate RefAccepted(l: Label, api: Api, r: Ref<Label>) {
    r.x == True || r.x == False || (FlowsTo(r.l, l) && Present(api, r.x))
  }

  predicate RefsAccepted(l: Label, api: Api, rs: seq<Ref<Label>>) {
    rs == [] || (RefAccepted(l, api, rs[0]) && RefsAccepted(l, api, rs[1..]))
  }

  predicate ExprAccepted(l: Label, api: Api, e: Expr<Label>) {
    match e
    case Const(_) => true
    case Var(r) => RefAccepted(l, api, r)
    case Bin(_, _, a, b) => ExprAccepted(l, api, a) && ExprAccepted(l, api, b)
  }

  predicate CallAccepted(l: Label, api: Api, c: Invoke<Label>) {
    RefAccepted(l, api, c.handle) && RefsAccepted(l, api, c.args)
  }

  predicate RhsAccepted(l: Label, api: Api, r: Rhs<Label>) {
    match r
    case Pure(e) => ExprAccepted(l, api, e)
    case Remote(_, c) => CallAccepted(l, api, c)
  }

  /** No assertion fails while the projection of `s` onto `l` is computed. */
  predicate Accepts(l: Label, api: Api, s: Stmt<Label>)
    decreases s
  {
    match s
    case Let(sl, bl, x, rhs, body) =>
      if sl == l then FlowsTo(l, bl) && RhsAccepted(l, api, rhs) && Accepts(l, api.(provided := api.provided + {x}), body)
      else Accepts(l, api, body)
    case Assign(sl, r, e) => sl == l ==> RefAccepted(l, api, r) && ExprAccepted(l, api, e)
    case Perform(sl, c) => sl == l ==> CallAccepted(l, api, c)
    case Return(sl, e) => sl == l ==> ExprAccepted(l, api, e)
    case If(sl, cond, a, b) =>
      FlowsTo(sl, l) ==> ExprAccepted(l, api, cond) && Accepts(l, api, a) && Accepts(l, api, b)
    case While(sl, cond, body, n) =>
      if sl == l then ExprAccepted(l, api, cond) && Accepts(l, api, body)
      else FlowsTo(sl, l) ==> n in api.loops && Accepts(l, api, body)
    case Skip(_) => true
    case Seq(_, a, b) => Accepts(l, api, a) && Accepts(l, api, b)
  }

  /** The variables the phase of `l` binds. */
  function Provides(l: Label, s: Stmt<Label>): set<Name> {
    match s
    case Let(sl, _, x, _, body) => (if sl == l then {x} else {}) + Provides(l, body)
    case If(sl, _, a, b) => if FlowsTo(sl, l) then Provides(l, a) + Provides(l, b) else {}
    case While(sl, _, body, _) => if FlowsTo(sl, l) then Provides(l, body) else {}
    case Seq(_, a, b) => Provides(l, a) + Provides(l, b)
    case _ => {}
  }

  /** The loop counters it sets. */
  function ProvidesLoops(l: Label, s: Stmt<Label>): set<LoopName> {
    match s
    case Let(_, _, _, _, body) => ProvidesLoops(l, body)
    case If(sl, _, a, b) => if FlowsTo(sl, l) then ProvidesLoops(l, a) + ProvidesLoops(l, b) else {}
    case While(sl, _, body, n) =>
      if sl == l then {n} + ProvidesLoops(l, body)
      else if FlowsTo(sl, l) then ProvidesLoops(l, body) else {}
    case Seq(_, a, b) => ProvidesLoops(l, a) + ProvidesLoops(l, b)
    case _ => {}
  }

  /** The splitter goes through all phases; each hands on what it inherited and what it provides. */
  predicate SplitsCleanly(labels: seq<Label>, inherits: set<Name>, loops: set<LoopName>, s: Stmt<Label>)
    decreases labels
  {
    labels == [] ||
    (Accepts(labels[0], Api({}, inherits, loops), s) &&
     SplitsCleanly(labels[1..], inherits + Provides(labels[0], s), loops + ProvidesLoops(labels[0], s), s))
  }

  // --- why no assertion fails ---

  /** The bindings of a program, each with the label of the statement that makes it. A name can be
      bound more than once, at different labels. */
  function Births(s: Stmt<Label>): set<(Name, Label)> {
    match s
    case Let(l, _, x, _, body) => {(x, l)} + Births(body)
    case If(_, _, a, b) => Births(a) + Births(b)
    case While(_, _, body, _) => Births(body)
    case Seq(_, a, b) => Births(a) + Births(b)
    case _ => {}
  }

  /** Its loops, each with its label. */
  function LoopsAt(s: Stmt<Label>): set<(LoopName, Label)> {
    match s
    case Let(_, _, _, _, body) => LoopsAt(body)
    case If(_, _, a, b) => LoopsAt(a) + LoopsAt(b)
    case While(l, _, body, n) => {(n, l)} + LoopsAt(body)
    case Seq(_, a, b) => LoopsAt(a) + LoopsAt(b)
    case _ => {}
  }

  /** Everything a reference of label `l` or stronger can mean is at hand. */
  ghost predicate AtHand(env: Env, scope: Places, l: Label, api: Api) {
    && (forall x | x in env.inputs :: Present(api, x))
    && (forall x | x in scope && scope[x].level >= l :: Present(api, x))
  }

  lemma {:induction false} ExprAcceptedOk(env: Env, scope: Places, l: Label, api: Api, e: Expr<Label>)
    requires ExprFlows(env, scope, e) && FlowsTo(ExprLabel(e), l) && AtHand(env, scope, l, api)
    ensures ExprAccepted(l, api, e)
  {
    if e.Bin? {
      ExprAcceptedOk(env, scope, l, api, e.left);
      ExprAcceptedOk(env, scope, l, api, e.right);
    }
  }

  lemma {:induction false} RefsAcceptedOk(env: Env, scope: Places, l: Label, api: Api, rs: seq<Ref<Label>>)
    requires RefsFlow(env, scope, rs) && FlowsTo(RefsLabel(rs), l) && AtHand(env, scope, l, api)
    ensures RefsAccepted(l, api, rs)
  {
    if rs != [] {
      RefsAcceptedOk(env, scope, l, api, rs[1..]);
    }
  }

  /** What the splitter knows at a point of the program with `scope` in scope. */
  ghost predicate Supplied(env: Env, scope: Places, l: Label, api: Api, s: Stmt<Label>) {
    && (forall x | x in env.inputs :: x in api.inherits)
    && (forall x | x in scope :: scope[x].birth >= scope[x].level)
    && (forall x | x in scope && scope[x].birth == l :: x in api.provided)
    && (forall x | x in scope && scope[x].birth > l :: x in api.inherits)
    && (forall b | b in Births(s) && b.1 > l :: b.0 in api.inherits)
    && (forall n | n in LoopsAt(s) && n.1 > l :: n.0 in api.loops)
  }

  lemma {:induction false} AcceptsOk(env: Env, scope: Places, pc: Label, l: Label, api: Api, s: Stmt<Label>)
    requires StmtFlows(env, scope, pc, s) && Supplied(env, scope, l, api, s)
    ensures Accepts(l, api, s)
    decreases s, 1
  {
    match s
    case Let(_, _, _, _, _) => AcceptsLetOk(env, scope, pc, l, api, s);
    case Assign(sl, r, e) =>
      if sl == l { ExprAcceptedOk(env, scope, l, api, e); }
    case Perform(sl, c) =>
      if sl == l { RefsAcceptedOk(env, scope, l, api, c.args); }
    case Return(sl, e) =>
      if sl == l { ExprAcceptedOk(env, scope, l, api, e); }
    case If(sl, cond, a, b) =>
      if FlowsTo(sl, l) {
        ExprAcceptedOk(env, scope, l, api, cond);
        AcceptsOk(env, scope, sl, l, api, a);
        AcceptsOk(env, scope, sl, l, api, b);
      }
    case While(sl, cond, body, n) =>
      if FlowsTo(sl, l) {
        ExprAcceptedOk(env, scope, l, api, cond);
        assert (n, sl) in LoopsAt(s);
        AcceptsOk(env, scope, sl, l, api, body);
      }
    case Skip(_) =>
    case Seq(_, a, b) =>
      AcceptsOk(env, scope, pc, l, api, a);
      AcceptsOk(env, scope, pc, l, api, b);
  }

  lemma {:induction false} AcceptsLetOk(env: Env, scope: Places, pc: Label, l: Label, api: Api, s: Stmt<Label>)
    requires s.Let? && StmtFlows(env, scope, pc, s) && Supplied(env, scope, l, api, s)
    ensures Accepts(l, api, s)
    decreases s, 0
  {
    var inside := scope[s.x := Place(s.bl, s.l)];
    assert (s.x, s.l) in Births(s);
    if s.l == l {
      match s.rhs {
        case Pure(e) => ExprAcceptedOk(env, scope, l, api, e);
        case Remote(_, c) => RefsAcceptedOk(env, scope, l, api, c.args);
      }
      AcceptsOk(env, inside, pc, l, api.(provided := api.provided + {s.x}), s.body);
    } else {
      AcceptsOk(env, inside, pc, l, api, s.body);
    }
  }

  /** A phase provides exactly the variables bound at its label, and the counters of its own loops. */
  lemma {:induction false} ProvidesIs(env: Env, scope: Places, pc: Label, l: Label, s: Stmt<Label>)
    requires StmtFlows(env, scope, pc, s)
    ensures forall x :: x in Provides(l, s) <==> (x, l) in Births(s)
    ensures forall n :: n in ProvidesLoops(l, s) <==> (n, l) in LoopsAt(s)
    decreases s
  {
    match s
    case Let(sl, bl, x, _, body) => ProvidesIs(env, scope[x := Place(bl, sl)], pc, l, body);
    case If(sl, _, a, b) =>
      ProvidesIs(env, scope, sl, l, a);
      ProvidesIs(env, scope, sl, l, b);
      Below(env, scope, pc, s);
    case While(sl, _, body, _) =>
      ProvidesIs(env, scope, sl, l, body);
      Below(env, scope, pc, s);
    case Seq(_, a, b) =>
      ProvidesIs(env, scope, pc, l, a);
      ProvidesIs(env, scope, pc, l, b);
    case _ =>
  }

  /** Nothing inside a context is born stronger than the context. */
  lemma {:induction false} Below(env: Env, scope: Places, pc: Label, s: Stmt<Label>)
    requires StmtFlows(env, scope, pc, s)
    ensures forall b | b in Births(s) :: b.1 <= (if s.If? || s.While? then s.l else pc)
    ensures forall n | n in LoopsAt(s) :: n.1 <= (if s.If? || s.While? then s.l else pc)
    decreases s
  {
    match s
    case Let(sl, bl, x, _, body) => Below(env, scope[x := Place(bl, sl)], pc, body);
    case If(sl, _, a, b) =>
      Below(env, scope, sl, a);
      Below(env, scope, sl, b);
    case While(sl, _, body, _) => Below(env, scope, sl, body);
    case Seq(_, a, b) =>
      Below(env, scope, pc, a);
      Below(env, scope, pc, b);
    case _ =>
  }

  lemma {:induction false} BirthsCollected(s: Stmt<Label>)
    ensures forall b | b in Births(s) :: b.1 in Collected(s)
    ensures forall n | n in LoopsAt(s) :: n.1 in Collected(s)
  {
    match s
    case Let(_, _, _, _, body) => BirthsCollected(body);
    case If(_, _, a, b) =>
      BirthsCollected(a);
      BirthsCollected(b);
    case While(_, _, body, _) => BirthsCollected(body);
    case Seq(_, a, b) =>
      BirthsCollected(a);
      BirthsCollected(b);
    case _ =>
  }

  /** The phases from the `i`-th on split cleanly. */
  lemma {:induction false} SplitsFrom(env: Env, labels: seq<Label>, i: nat, inherits: set<Name>, loops: set<LoopName>, s: Stmt<Label>)
    requires StmtFlows(env, map[], TOP, s) && Descending(labels) && i <= |labels|
    requires forall k | k in Collected(s) :: k in labels
    requires forall x | x in env.inputs :: x in inherits
    requires forall b | b in Births(s) && b.1 in labels[..i] :: b.0 in inherits
    requires forall n | n in LoopsAt(s) && n.1 in labels[..i] :: n.0 in loops
    ensures SplitsCleanly(labels[i..], inherits, loops, s)
    decreases |labels| - i
  {
    if i < |labels| {
      var l := labels[i];
      assert labels[i..][0] == l && labels[i..][1..] == labels[i + 1..];
      BirthsCollected(s);
      forall k: Label | k in labels && k > l ensures k in labels[..i] {
        var j :| 0 <= j < |labels| && labels[j] == k;
        assert j < i && labels[..i][j] == k;
      }
      AcceptsOk(env, map[], TOP, l, Api({}, inherits, loops), s);
      ProvidesIs(env, map[], TOP, l, s);
      assert forall k :: k in labels[..i + 1] <==> k in labels[..i] || k == l;
      SplitsFrom(env, labels, i + 1, inherits + Provides(l, s), loops + ProvidesLoops(l, s), s);
    }
  }

  /** On every lexically scoped program that meets its constraints no phase trips an assertion of the
      splitter: every variable it refers to is strong enough and bound at hand, every binding is no
      stronger than its statement, and every loop it replays has a counter. Names may be bound again
      at other labels, and calls may stand anywhere. */
  lemma SplitterNeverTrips(env: Env, labels: seq<Label>, s: Stmt<Label>)
    requires StmtFlows(env, map[], TOP, s) && Descending(labels)
    requires forall k | k in Collected(s) :: k in labels
    ensures SplitsCleanly(labels, env.inputs.Keys, {}, s)
  {
    assert labels[0..] == labels && labels[..0] == [];
    SplitsFrom(env, labels, 0, env.inputs.Keys, {}, s);
  }
}
