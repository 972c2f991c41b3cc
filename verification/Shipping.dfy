/** Running phases on remote stores: what is sent there and what comes back. */
module Shipping {
  import opened Syntax
  import opened Semantics
  import opened SplitPhase
  import opened PhaseRun
  import opened Frame
  import opened Prune

  /** A phase with the variables and counters it needs from earlier ones and those it binds. A phase
      that runs `away` runs on another store than the client's. */
  datatype Piece = Piece(ast: PStmt, needs: set<Name>, gives: set<Name>, needsLoops: set<LoopName>, givesLoops: set<LoopName>, away: bool)

  function Needed(ps: seq<Piece>): set<Name> {
    if ps == [] then {} else ps[0].needs + Needed(ps[1..])
  }

  function NeededLoops(ps: seq<Piece>): set<LoopName> {
    if ps == [] then {} else ps[0].needsLoops + NeededLoops(ps[1..])
  }

  function Given(ps: seq<Piece>): set<Name> {
    if ps == [] then {} else ps[0].gives + Given(ps[1..])
  }

  function GivenLoops(ps: seq<Piece>): set<LoopName> {
    if ps == [] then {} else ps[0].givesLoops + GivenLoops(ps[1..])
  }

  /** The part of the client's store that is sent; all else is empty on the other side. */
  function Sent(p: Piece, st: Store): Store {
    Store(map x | x in st.vars && x in p.needs - p.gives :: st.vars[x],
          map n | n in st.loops && n in p.needsLoops - p.givesLoops :: st.loops[n],
          st.remote, st.ret)
  }

  /** Of what the phase binds, what this or a later phase needs comes back. */
  function Returned(ps: seq<Piece>): set<Name>
    requires ps != []
  {
    ps[0].gives * Needed(ps)
  }

  function ReturnedLoops(ps: seq<Piece>): set<LoopName>
    requires ps != []
  {
    ps[0].givesLoops * NeededLoops(ps)
  }

  function Merge(client: Store, server: Store, names: set<Name>, loops: set<LoopName>): Store {
    Store(map x | x in client.vars.Keys + names :: if x in names then At(server, x) else client.vars[x],
          map n | n in client.loops.Keys + (loops * server.loops.Keys) && (n in loops ==> n in server.loops) ::
            if n in loops then server.loops[n] else client.loops[n],
          server.remote, server.ret)
  }

  function RunPiece(ps: seq<Piece>, env: Env, st: Store, fuel: nat): Outcome<Store>
    requires ps != []
  {
    if ps[0].away then
      var r := Run(ps[0].ast, env, BeginPhase(Sent(ps[0], st)), fuel);
      if r.Done? then Done(Merge(st, r.s, Returned(ps), ReturnedLoops(ps))) else r
    else Run(ps[0].ast, env, BeginPhase(st), fuel)
  }

  function RunShipped(ps: seq<Piece>, env: Env, st: Store, fuel: nat): Outcome<Store> {
    if ps == [] then Done(st)
    else
      var r := RunPiece(ps, env, st, fuel);
      if r.Done? then RunShipped(ps[1..], env, r.s, fuel) else r
  }

  /** The same, with a return ending the phase it is in. */
  function RunPieceStops(ps: seq<Piece>, env: Env, st: Store, fuel: nat): Outcome<Store>
    requires ps != []
  {
    if ps[0].away then
      var r := RunStops(ps[0].ast, env, BeginPhase(Sent(ps[0], st)), fuel);
      if r.Done? then Done(Merge(st, r.s, Returned(ps), ReturnedLoops(ps))) else r
    else RunStops(ps[0].ast, env, BeginPhase(st), fuel)
  }

  function RunShippedStops(ps: seq<Piece>, env: Env, st: Store, fuel: nat): Outcome<Store> {
    if ps == [] then Done(st)
    else
      var r := RunPieceStops(ps, env, st, fuel);
      if r.Done? then RunShippedStops(ps[1..], env, r.s, fuel) else r
  }

  /** All phases on one store. */
  function RunTogether(ps: seq<Piece>, env: Env, st: Store, fuel: nat): Outcome<Store> {
    if ps == [] then Done(st)
    else
      var r := Run(ps[0].ast, env, BeginPhase(st), fuel);
      if r.Done? then RunTogether(ps[1..], env, r.s, fuel) else r
  }

  /** A phase only refers to what it needs or binds; what it binds belongs to it alone. */
  predicate Fits(ps: seq<Piece>) {
    ps == [] ||
    (var p, rest := ps[0], ps[1..];
     && Uses(p.ast) + Moves(p.ast) <= p.needs + p.gives + BUILTINS && p.needs !! p.gives
     && Repeats(p.ast) <= p.needsLoops + p.givesLoops && p.needsLoops !! p.givesLoops
     && Writes(p.ast) !! Given(rest) + BUILTINS && Counts(p.ast) !! GivenLoops(rest)
     && Fits(rest))
  }

  /** What a phase that runs away writes and a later one needs, it also binds. */
  predicate ShipsBack(ps: seq<Piece>) {
    ps == [] ||
    (var p, rest := ps[0], ps[1..];
     && (p.away ==> Writes(p.ast) * Needed(rest) <= p.gives) && Counts(p.ast) * NeededLoops(rest) <= p.givesLoops
     && ShipsBack(rest))
  }

  /** The client's store `c` is as good as the full store `f` for the phases to come. */
  ghost predicate Serves(ps: seq<Piece>, f: Store, c: Store) {
    && (forall x | x in Needed(ps) :: At(f, x).log == At(c, x).log)
    && (forall x | x in Given(ps) + BUILTINS :: At(f, x).log == [] && At(c, x).log == [])
    && (forall n | n in NeededLoops(ps) :: SameCount(f, c, n))
    && (forall n | n in GivenLoops(ps) :: n !in f.loops && n !in c.loops)
    && f.remote == c.remote && f.ret == c.ret
  }

  function ViewOf(p: Piece): View {
    View(p.needs + p.gives + BUILTINS, p.needs + p.gives + BUILTINS, p.needsLoops + p.givesLoops)
  }

  lemma BeginAt(st: Store, x: Name)
    ensures At(BeginPhase(st), x) == Holder(At(st, x).log, -1)
  {
  }

  lemma SentAt(p: Piece, st: Store, x: Name)
    ensures At(Sent(p, st), x) == if x in p.needs - p.gives then At(st, x) else Holder([], -1)
  {
  }

  /** What a piece starts from, away or not, agrees with the full store. */
  lemma StartsAgree(ps: seq<Piece>, f: Store, c: Store)
    requires ps != [] && Fits(ps) && Serves(ps, f, c)
    ensures Agree(ViewOf(ps[0]), BeginPhase(f), BeginPhase(if ps[0].away then Sent(ps[0], c) else c))
  {
    var p := ps[0];
    var b := if p.away then Sent(p, c) else c;
    forall x | x in ViewOf(p).used ensures At(BeginPhase(f), x) == At(BeginPhase(b), x) {
      BeginAt(f, x);
      BeginAt(b, x);
      SentAt(p, c, x);
    }
    forall n | n in ViewOf(p).loops ensures SameCount(BeginPhase(f), BeginPhase(b), n) {
      if n in p.needsLoops {
        assert SameCount(f, c, n);
      } else {
        assert n !in f.loops && n !in c.loops;
      }
    }
  }

  lemma MergeAt(client: Store, server: Store, names: set<Name>, loops: set<LoopName>, x: Name)
    ensures At(Merge(client, server, names, loops), x) == if x in names then At(server, x) else At(client, x)
  {
  }

  lemma MergeCount(client: Store, server: Store, names: set<Name>, loops: set<LoopName>, n: LoopName)
    ensures SameCount(Merge(client, server, names, loops), if n in loops then server else client, n)
  {
  }

  lemma SentCount(p: Piece, st: Store, n: LoopName)
    ensures n in Sent(p, st).loops <==> n in st.loops && n in p.needsLoops && n !in p.givesLoops
    ensures n in Sent(p, st).loops ==> Sent(p, st).loops[n] == st.loops[n]
    ensures Sent(p, st).remote == st.remote && Sent(p, st).ret == st.ret
  {
  }

  /** A log or a counter that neither an away phase nor a later one needs is at the client afterwards what
      it was before. */
  lemma UnneededStays(ps: seq<Piece>, env: Env, c: Store, fuel: nat, x: Name, n: LoopName)
    requires ps != [] && ps[0].away
    ensures var a, b := RunPiece(ps, env, c, fuel), RunPieceStops(ps, env, c, fuel);
            && (x !in Needed(ps) ==> (a.Done? ==> At(a.s, x) == At(c, x)) && (b.Done? ==> At(b.s, x) == At(c, x)))
            && (n !in NeededLoops(ps) ==> (a.Done? ==> SameCount(a.s, c, n)) && (b.Done? ==> SameCount(b.s, c, n)))
  {
    var st := BeginPhase(Sent(ps[0], c));
    var a, b := Run(ps[0].ast, env, st, fuel), RunStops(ps[0].ast, env, st, fuel);
    if a.Done? {
      MergeAt(c, a.s, Returned(ps), ReturnedLoops(ps), x);
      MergeCount(c, a.s, Returned(ps), ReturnedLoops(ps), n);
    }
    if b.Done? {
      MergeAt(c, b.s, Returned(ps), ReturnedLoops(ps), x);
      MergeCount(c, b.s, Returned(ps), ReturnedLoops(ps), n);
    }
  }

  /** What running a piece leaves at the client: `s` is the store it ran on. */
  ghost predicate Left(ps: seq<Piece>, c: Store, s: Store, c': Store)
    requires ps != []
  {
    && (forall x :: At(c', x).log == (if ps[0].away && x !in Returned(ps) then At(c, x).log else At(s, x).log))
    && (forall n :: if ps[0].away && n !in ReturnedLoops(ps) then SameCount(c', c, n) else SameCount(c', s, n))
    && c'.remote == s.remote && c'.ret == s.ret
  }

  lemma PieceLeaves(ps: seq<Piece>, env: Env, c: Store, s: Store, fuel: nat)
    requires ps != []
    requires Run(ps[0].ast, env, BeginPhase(if ps[0].away then Sent(ps[0], c) else c), fuel) == Done(s)
    ensures RunPiece(ps, env, c, fuel).Done? && Left(ps, c, s, RunPiece(ps, env, c, fuel).s)
  {
    var c' := RunPiece(ps, env, c, fuel).s;
    forall x ensures At(c', x).log == (if ps[0].away && x !in Returned(ps) then At(c, x).log else At(s, x).log) {
      MergeAt(c, s, Returned(ps), ReturnedLoops(ps), x);
    }
    forall n ensures if ps[0].away && n !in ReturnedLoops(ps) then SameCount(c', c, n) else SameCount(c', s, n) {
      MergeCount(c, s, Returned(ps), ReturnedLoops(ps), n);
    }
  }

  /** After a piece the client's store serves the rest. */
  lemma StepServes(ps: seq<Piece>, env: Env, f: Store, c: Store, f': Store, fuel: nat) returns (c': Store)
    requires ps != [] && Fits(ps) && ShipsBack(ps) && Serves(ps, f, c)
    requires Run(ps[0].ast, env, BeginPhase(f), fuel) == Done(f')
    ensures RunPiece(ps, env, c, fuel) == Done(c') && Serves(ps[1..], f', c')
  {
    var p, v := ps[0], ViewOf(ps[0]);
    var b := BeginPhase(if p.away then Sent(p, c) else c);
    StartsAgree(ps, f, c);
    RunAgrees(v, p.ast, env, BeginPhase(f), b, fuel);
    var s := Run(p.ast, env, b, fuel).s;
    RunKeeps(p.ast, env, BeginPhase(f), f', fuel);
    RunKeeps(p.ast, env, b, s, fuel);
    PieceLeaves(ps, env, c, s, fuel);
    c' := RunPiece(ps, env, c, fuel).s;
    LogsServe(ps, f, c, b, f', s, c');
    CountsServe(ps, f, c, b, f', s, c');
  }

  lemma {:induction false} WritesAreUses(p: PStmt)
    ensures Writes(p) <= Uses(p)
  {
    match p
    case PLet(_, _, _, body) => WritesAreUses(body);
    case PIf(_, a, b) =>
      WritesAreUses(a);
      WritesAreUses(b);
    case PWhile(_, body, _) => WritesAreUses(body);
    case PForEach(body, _) => WritesAreUses(body);
    case PSeq(a, b) =>
      WritesAreUses(a);
      WritesAreUses(b);
    case _ =>
  }

  lemma LogsServe(ps: seq<Piece>, f: Store, c: Store, b: Store, f': Store, s: Store, c': Store)
    requires ps != [] && Fits(ps) && ShipsBack(ps) && Serves(ps, f, c) && Left(ps, c, s, c')
    requires b == BeginPhase(if ps[0].away then Sent(ps[0], c) else c)
    requires Agree(ViewOf(ps[0]), f', s) && Kept(ps[0].ast, BeginPhase(f), f') && Kept(ps[0].ast, b, s)
    ensures forall x | x in Needed(ps[1..]) :: At(f', x).log == At(c', x).log
    ensures forall x | x in Given(ps[1..]) + BUILTINS :: At(f', x).log == [] && At(c', x).log == []
  {
    var p, rest := ps[0], ps[1..];
    forall x ensures At(BeginPhase(f), x).log == At(f, x).log && (At(b, x).log == At(c, x).log || At(b, x).log == []) && (!p.away ==> At(b, x).log == At(c, x).log) {
      BeginAt(f, x);
      BeginAt(c, x);
      BeginAt(Sent(p, c), x);
      SentAt(p, c, x);
    }
    forall x | x in Needed(rest) ensures At(f', x).log == At(c', x).log {
      assert x in Needed(ps);
      if x in p.gives {
        assert x in ViewOf(p).logs;
        assert x in Returned(ps);
      } else if x in Writes(p.ast) {
        WritesAreUses(p.ast);
        assert x in ViewOf(p).logs;
      } else {
        assert x !in Returned(ps);
        assert At(f', x).log == At(f, x).log == At(c, x).log;
      }
    }
    forall x | x in Given(rest) + BUILTINS ensures At(f', x).log == [] && At(c', x).log == [] {
      assert x !in Writes(p.ast) && x in Given(ps) + BUILTINS;
    }
  }

  lemma CountsServe(ps: seq<Piece>, f: Store, c: Store, b: Store, f': Store, s: Store, c': Store)
    requires ps != [] && Fits(ps) && ShipsBack(ps) && Serves(ps, f, c) && Left(ps, c, s, c')
    requires b == BeginPhase(if ps[0].away then Sent(ps[0], c) else c)
    requires Agree(ViewOf(ps[0]), f', s) && Kept(ps[0].ast, BeginPhase(f), f') && Kept(ps[0].ast, b, s)
    ensures forall n | n in NeededLoops(ps[1..]) :: SameCount(f', c', n)
    ensures forall n | n in GivenLoops(ps[1..]) :: n !in f'.loops && n !in c'.loops
  {
    var p, rest := ps[0], ps[1..];
    forall n | n in NeededLoops(rest) ensures SameCount(f', c', n) {
      assert n in NeededLoops(ps);
      if n in p.givesLoops {
        assert n in ViewOf(p).loops && SameCount(f', s, n);
        assert n in ReturnedLoops(ps);
      } else {
        assert n !in Counts(p.ast) && n !in ReturnedLoops(ps);
        assert SameCount(f, f', n) && SameCount(f, c, n);
        assert SameCount(b, s, n);
      }
    }
    forall n | n in GivenLoops(rest) ensures n !in f'.loops && n !in c'.loops {
      assert n !in Counts(p.ast) && n in GivenLoops(ps);
      assert SameCount(BeginPhase(f), f', n) && SameCount(b, s, n);
      assert SameCount(c', c, n) || SameCount(c', s, n);
    }
  }

  /** Shipping suffices: if everything an away phase writes for later phases is also bound in it, sending
      each phase what it needs and taking back what it provides gives every phase the same inputs as
      one shared store would, and the same calls and the same result. */
  lemma {:induction false} ShippingSuffices(ps: seq<Piece>, env: Env, f: Store, c: Store, fuel: nat)
    requires Fits(ps) && ShipsBack(ps) && Serves(ps, f, c)
    ensures var a, b := RunTogether(ps, env, f, fuel), RunShipped(ps, env, c, fuel);
            match a
            case Done(r) => b.Done? && r.remote == b.s.remote && r.ret == b.s.ret
            case Fault => b.Fault?
            case Timeout => b.Timeout?
    decreases |ps|
  {
    if ps != [] {
      var p := ps[0];
      var r := Run(p.ast, env, BeginPhase(f), fuel);
      if r.Done? {
        var c' := StepServes(ps, env, f, c, r.s, fuel);
        ShippingSuffices(ps[1..], env, r.s, c', fuel);
      } else {
        StartsAgree(ps, f, c);
        RunAgrees(ViewOf(p), p.ast, env, BeginPhase(f), BeginPhase(if p.away then Sent(p, c) else c), fuel);
      }
    }
  }

  /** The condition is exact, step by step: of a variable that a later phase needs and an away phase
      does not bind, the client's log is right afterwards exactly if the run did not write it, which is
      certain if the phase has no write of it. */
  lemma UnboundWritesAreLost(ps: seq<Piece>, env: Env, f: Store, c: Store, f': Store, fuel: nat, x: Name)
    requires ps != [] && ps[0].away && Fits(ps) && Serves(ps, f, c)
    requires Run(ps[0].ast, env, BeginPhase(f), fuel) == Done(f')
    requires x in Needed(ps[1..]) && x !in ps[0].gives
    ensures RunPiece(ps, env, c, fuel).Done?
    ensures At(RunPiece(ps, env, c, fuel).s, x).log == At(f', x).log <==> At(f', x).log == At(f, x).log
    ensures x !in Writes(ps[0].ast) ==> At(RunPiece(ps, env, c, fuel).s, x).log == At(f', x).log
  {
    RunKeeps(ps[0].ast, env, BeginPhase(f), f', fuel);
    BeginAt(f, x);
    var b := BeginPhase(Sent(ps[0], c));
    StartsAgree(ps, f, c);
    RunAgrees(ViewOf(ps[0]), ps[0].ast, env, BeginPhase(f), b, fuel);
    PieceLeaves(ps, env, c, Run(ps[0].ast, env, b, fuel).s, fuel);
    assert x in Needed(ps);
  }
}
