/** Syntax trees in an array of slots, as the parser hands them over. References count from one; zero
    is no reference. */
module Arena {
  import opened Syntax

  const NAME_LENGTH := 20
  const MAX_REFS := 20
  const DEPTH_BUDGET := 1000

  /** `Args` nodes have any number of children up to the limit, the others a fixed one. */
  datatype Kind = Transaction | Fixed(id: nat, arity: nat) | Args

  datatype Tree = Tree(kind: Kind, name: string, number: int, children: seq<Tree>)

  datatype Slot = Slot(kind: Kind, name: seq<char>, number: int, refs: seq<nat>)

  const EMPTY := Slot(Args, [], 0, [])

  // --- names ---

  predicate Blank(c: char) {
    c == ' ' || c == '\0'
  }

  function TrimEnd(s: string): string {
    if s != [] && Blank(s[|s| - 1]) then TrimEnd(s[..|s| - 1]) else s
  }

  function TrimStart(s: string): string {
    if s != [] && Blank(s[0]) then TrimStart(s[1..]) else s
  }

  function Trim(s: string): string {
    TrimStart(TrimEnd(s))
  }

  function Zeros(n: nat): string {
    if n == 0 then [] else ['\0'] + Zeros(n - 1)
  }

  /** A name in its array of characters. */
  function Padded(s: string): seq<char>
    requires |s| <= NAME_LENGTH
  {
    s + Zeros(NAME_LENGTH - |s|)
  }

  lemma {:induction false} TrimZeros(s: string, n: nat)
    ensures TrimEnd(s + Zeros(n)) == TrimEnd(s)
    decreases n
  {
    if n == 0 {
      assert s + Zeros(0) == s;
    } else {
      assert s + Zeros(n) == (s + ['\0']) + Zeros(n - 1);
      TrimZeros(s + ['\0'], n - 1);
      assert (s + ['\0'])[..|s|] == s;
    }
  }

  /** Trimming takes blanks off both ends, and all of them. */
  lemma {:induction false} TrimEndIs(s: string)
    ensures TrimEnd(s) <= s && (forall i | |TrimEnd(s)| <= i < |s| :: Blank(s[i]))
    ensures TrimEnd(s) != [] ==> !Blank(TrimEnd(s)[|TrimEnd(s)| - 1])
  {
    if s != [] && Blank(s[|s| - 1]) {
      TrimEndIs(s[..|s| - 1]);
    }
  }

  lemma {:induction false} TrimStartIs(s: string)
    ensures |TrimStart(s)| <= |s| && s[|s| - |TrimStart(s)|..] == TrimStart(s) && (forall i | 0 <= i < |s| - |TrimStart(s)| :: Blank(s[i]))
    ensures TrimStart(s) != [] ==> !Blank(TrimStart(s)[0])
  {
    if s != [] && Blank(s[0]) {
      TrimStartIs(s[1..]);
      var r := TrimStart(s[1..]);
      assert s[|s| - |r|..] == s[1..][|s| - 1 - |r|..];
      assert forall i | 0 < i < |s| - |r| :: s[i] == s[1..][i - 1];
    }
  }

  /** A name stays as it is exactly if it neither begins nor ends with a blank or a zero. */
  lemma TrimKeepsIff(s: string)
    ensures Trim(s) == s <==> s == [] || (s[0] !in " \0" && s[|s| - 1] !in " \0")
  {
    TrimEndIs(s);
    TrimStartIs(TrimEnd(s));
  }

  // --- trees that fit ---

  function Arity(k: Kind): nat {
    match k
    case Transaction => 1
    case Fixed(_, n) => n
    case Args => 0
  }

  predicate Fits(t: Tree) {
    && |t.name| <= NAME_LENGTH && Trim(t.name) == t.name
    && |t.children| <= MAX_REFS && (!t.kind.Args? ==> |t.children| == Arity(t.kind))
    && forall c | c in t.children :: Fits(c)
  }

  function Size(t: Tree): nat {
    1 + Sizes(t.children)
  }

  function Sizes(ts: seq<Tree>): nat {
    if ts == [] then 0 else Size(ts[0]) + Sizes(ts[1..])
  }

  function Height(t: Tree): nat {
    1 + Heights(t.children)
  }

  function Heights(ts: seq<Tree>): nat {
    if ts == [] then 0
    else if Height(ts[0]) >= Heights(ts[1..]) then Height(ts[0]) else Heights(ts[1..])
  }

  // --- where a tree goes ---

  /** References to trees laid out one after the other from slot `base` on. */
  function Refs(ts: seq<Tree>, base: nat): (r: seq<nat>)
    ensures |r| == |ts|
  {
    if ts == [] then [] else [base + 1] + Refs(ts[1..], base + Size(ts[0]))
  }

  function NoRefs(n: nat): (r: seq<nat>)
    ensures |r| == n && forall i | 0 <= i < n :: r[i] == 0
  {
    if n == 0 then [] else [0] + NoRefs(n - 1)
  }

  function Root(t: Tree, base: nat): Slot
    requires |t.name| <= NAME_LENGTH && |t.children| <= MAX_REFS
  {
    Slot(t.kind, Padded(t.name), t.number, Refs(t.children, base + 1) + NoRefs(MAX_REFS - |t.children|))
  }

  /** The slots of a tree whose root is in slot `base`: parents before children, in order. */
  function Layout(t: Tree, base: nat): seq<Slot>
    requires Fits(t)
    decreases t, 0
  {
    [Root(t, base)] + Layouts(t.children, base + 1)
  }

  function Layouts(ts: seq<Tree>, base: nat): seq<Slot>
    requires forall t | t in ts :: Fits(t)
    decreases ts, 1
  {
    if ts == [] then [] else Layout(ts[0], base) + Layouts(ts[1..], base + Size(ts[0]))
  }

  lemma {:induction false} LayoutSize(t: Tree, base: nat)
    requires Fits(t)
    ensures |Layout(t, base)| == Size(t)
    decreases t, 0
  {
    LayoutsSize(t.children, base + 1);
  }

  lemma {:induction false} LayoutsSize(ts: seq<Tree>, base: nat)
    requires forall t | t in ts :: Fits(t)
    ensures |Layouts(ts, base)| == Sizes(ts)
    decreases ts, 1
  {
    if ts != [] {
      LayoutSize(ts[0], base);
      LayoutsSize(ts[1..], base + Size(ts[0]));
    }
  }

  // --- reading a tree back ---

  /** The tree at a reference; the recursion is cut off at a depth of `budget`. */
  function Decode(slots: seq<Slot>, ref: nat, budget: nat): Option<Tree>
    decreases budget, 1, 0
  {
    if budget == 0 || ref == 0 || ref > |slots| then None
    else
      var s := slots[ref - 1];
      var ts := DecodeAll(slots, s.refs, if s.kind.Args? then None else Some(Arity(s.kind)), budget - 1);
      if ts.None? then None else Some(Tree(s.kind, Trim(s.name), s.number, ts.value))
  }

  /** The given number of references, or all up to the first missing one. */
  function DecodeAll(slots: seq<Slot>, refs: seq<nat>, count: Option<nat>, budget: nat): Option<seq<Tree>>
    decreases budget, 2, |refs|
  {
    if (count.Some? && count.value == 0) || (count.None? && (refs == [] || refs[0] == 0)) then Some([])
    else if refs == [] then None
    else
      var t := Decode(slots, refs[0], budget);
      var ts := DecodeAll(slots, refs[1..], if count.Some? then Some(count.value - 1) else None, budget);
      if t.None? || ts.None? then None else Some([t.value] + ts.value)
  }

  /** The slots from `base` on hold `layout`. */
  predicate HoldsAt(slots: seq<Slot>, base: nat, layout: seq<Slot>) {
    base + |layout| <= |slots| && forall i | 0 <= i < |layout| :: slots[base + i] == layout[i]
  }

  lemma HoldsParts(slots: seq<Slot>, base: nat, a: seq<Slot>, b: seq<Slot>)
    ensures HoldsAt(slots, base, a + b) <==> HoldsAt(slots, base, a) && HoldsAt(slots, base + |a|, b)
  {
    if HoldsAt(slots, base, a + b) {
      forall i | 0 <= i < |a| ensures slots[base + i] == a[i] {
        assert (a + b)[i] == a[i];
      }
      forall i | 0 <= i < |b| ensures slots[base + |a| + i] == b[i] {
        assert (a + b)[|a| + i] == b[i];
      }
    } else if HoldsAt(slots, base, a) && HoldsAt(slots, base + |a|, b) {
      forall i | 0 <= i < |a + b| ensures slots[base + i] == (a + b)[i] {
        if i >= |a| { assert slots[base + |a| + (i - |a|)] == b[i - |a|]; }
      }
    }
  }

  lemma {:induction false} DecodeLayout(slots: seq<Slot>, base: nat, t: Tree, budget: nat)
    requires Fits(t) && HoldsAt(slots, base, Layout(t, base)) && Height(t) <= budget
    ensures Decode(slots, base + 1, budget) == Some(t)
    decreases t, 0
  {
    var s := Root(t, base);
    HoldsParts(slots, base, [s], Layouts(t.children, base + 1));
    assert slots[base + 0] == [s][0];
    TrimZeros(t.name, NAME_LENGTH - |t.name|);
    DecodeLayouts(slots, base + 1, t.children, MAX_REFS - |t.children|, if t.kind.Args? then None else Some(|t.children|), budget - 1);
  }

  lemma DecodeOne(slots: seq<Slot>, refs: seq<nat>, count: Option<nat>, budget: nat, t: Tree, ts: seq<Tree>)
    requires refs != [] && refs[0] != 0 && count != Some(0) && Decode(slots, refs[0], budget) == Some(t)
    requires DecodeAll(slots, refs[1..], if count.Some? then Some(count.value - 1) else None, budget) == Some(ts)
    ensures DecodeAll(slots, refs, count, budget) == Some([t] + ts)
  {
  }

  lemma {:induction false} DecodeLayouts(slots: seq<Slot>, base: nat, ts: seq<Tree>, rest: nat, count: Option<nat>, budget: nat)
    requires (forall t | t in ts :: Fits(t)) && HoldsAt(slots, base, Layouts(ts, base)) && Heights(ts) <= budget
    requires count.Some? ==> count.value == |ts|
    ensures DecodeAll(slots, Refs(ts, base) + NoRefs(rest), count, budget) == Some(ts)
    decreases ts, 1
  {
    var refs := Refs(ts, base) + NoRefs(rest);
    if ts != [] {
      var first, others := Layout(ts[0], base), Layouts(ts[1..], base + Size(ts[0]));
      LayoutSize(ts[0], base);
      HoldsParts(slots, base, first, others);
      DecodeLayout(slots, base, ts[0], budget);
      DecodeLayouts(slots, base + Size(ts[0]), ts[1..], rest, if count.Some? then Some(count.value - 1) else None, budget);
      assert refs[0] == base + 1 && refs[1..] == Refs(ts[1..], base + Size(ts[0])) + NoRefs(rest);
      DecodeOne(slots, refs, count, budget, ts[0], ts[1..]);
      assert [ts[0]] + ts[1..] == ts;
    }
  }

  // --- the order of slots ---

  /** Every reference leads to a later slot, and the references of a node lead to ever later ones. */
  predicate Forward(slots: seq<Slot>, base: nat) {
    forall i | 0 <= i < |slots| :: ForwardFrom(slots[i].refs, base + i + 1)
  }

  predicate ForwardFrom(refs: seq<nat>, own: nat) {
    && (forall j | 0 <= j < |refs| :: refs[j] == 0 || refs[j] > own)
    && (forall j, k | 0 <= j < k < |refs| :: refs[k] == 0 || refs[j] < refs[k])
  }

  lemma {:induction false} RefsForward(ts: seq<Tree>, base: nat)
    ensures forall j | 0 <= j < |ts| :: Refs(ts, base)[j] > base
    ensures forall j, k | 0 <= j < k < |ts| :: Refs(ts, base)[j] < Refs(ts, base)[k]
  {
    if ts != [] { RefsForward(ts[1..], base + Size(ts[0])); }
  }

  lemma {:induction false} LayoutForward(t: Tree, base: nat)
    requires Fits(t)
    ensures Forward(Layout(t, base), base)
    decreases t, 0
  {
    var s := Root(t, base);
    RefsForward(t.children, base + 1);
    assert ForwardFrom(s.refs, base + 1);
    LayoutsForward(t.children, base + 1);
    ForwardJoin([s], Layouts(t.children, base + 1), base);
  }

  lemma {:induction false} LayoutsForward(ts: seq<Tree>, base: nat)
    requires forall t | t in ts :: Fits(t)
    ensures Forward(Layouts(ts, base), base)
    decreases ts, 1
  {
    if ts != [] {
      LayoutForward(ts[0], base);
      LayoutSize(ts[0], base);
      LayoutsForward(ts[1..], base + Size(ts[0]));
      ForwardJoin(Layout(ts[0], base), Layouts(ts[1..], base + Size(ts[0])), base);
    }
  }

  lemma ForwardJoin(a: seq<Slot>, b: seq<Slot>, base: nat)
    requires Forward(a, base) && Forward(b, base + |a|)
    ensures Forward(a + b, base)
  {
    forall i | 0 <= i < |a + b| ensures ForwardFrom((a + b)[i].refs, base + i + 1) {
      if i >= |a| { assert (a + b)[i] == b[i - |a|]; }
    }
  }

  lemma {:induction false} RefsMore(ts: seq<Tree>, t: Tree, base: nat)
    ensures Sizes(ts + [t]) == Sizes(ts) + Size(t)
    ensures Refs(ts + [t], base) == Refs(ts, base) + [base + Sizes(ts) + 1]
    decreases ts
  {
    if ts == [] {
      assert [] + [t] == [t] && [t][1..] == [];
    } else {
      RefsMore(ts[1..], t, base + Size(ts[0]));
      assert (ts + [t])[0] == ts[0] && (ts + [t])[1..] == ts[1..] + [t];
    }
  }

  lemma {:induction false} LayoutsMore(ts: seq<Tree>, t: Tree, base: nat)
    requires forall u | u in ts + [t] :: Fits(u)
    requires (forall u | u in ts :: Fits(u)) && Fits(t)
    ensures Layouts(ts + [t], base) == Layouts(ts, base) + Layout(t, base + Sizes(ts))
    decreases ts
  {
    if ts == [] {
      assert [] + [t] == [t] && [t][1..] == [];
      assert Layouts([t], base) == Layout(t, base) + Layouts([], base + Size(t));
    } else {
      assert (ts + [t])[0] == ts[0] && (ts + [t])[1..] == ts[1..] + [t];
      LayoutsMore(ts[1..], t, base + Size(ts[0]));
      var first, mid, last := Layout(ts[0], base), Layouts(ts[1..], base + Size(ts[0])), Layout(t, base + Sizes(ts));
      assert first + (mid + last) == (first + mid) + last;
    }
  }

  lemma {:induction false} SizesMore(ts: seq<Tree>, k: nat)
    requires k <= |ts|
    ensures Sizes(ts[..k]) <= Sizes(ts)
    ensures k < |ts| ==> Sizes(ts[..k]) + Size(ts[k]) <= Sizes(ts)
    decreases ts
  {
    if k > 0 {
      SizesMore(ts[1..], k - 1);
      assert ts[..k][0] == ts[0] && ts[..k][1..] == ts[1..][..k - 1];
    } else if ts != [] {
      assert ts[..0] == [];
    }
  }

  // --- the arena itself ---

  /** The root of `t` is in slot `base`, and its first `k` children follow it, up to slot `used`. */
  ghost predicate PartlyAt(slots: seq<Slot>, base: nat, t: Tree, k: nat, used: nat)
    requires Fits(t) && k <= |t.children|
  {
    && used == base + 1 + Sizes(t.children[..k]) && used <= |slots|
    && slots[base] == Slot(t.kind, Padded(t.name), t.number, Refs(t.children[..k], base + 1) + NoRefs(MAX_REFS - k))
    && HoldsAt(slots, base + 1, Layouts(t.children[..k], base + 1))
  }

  lemma RefsNext(ts: seq<Tree>, t: Tree, base: nat)
    requires |ts| < MAX_REFS
    ensures (Refs(ts, base) + NoRefs(MAX_REFS - |ts|))[|ts| := base + Sizes(ts) + 1] == Refs(ts + [t], base) + NoRefs(MAX_REFS - |ts| - 1)
  {
    RefsMore(ts, t, base);
  }

  lemma PartlyNext(a: seq<Slot>, b: seq<Slot>, base: nat, t: Tree, k: nat, used: nat)
    requires Fits(t) && k < |t.children| && PartlyAt(a, base, t, k, used) && |a| == |b| && b[..used] == a[..used]
    requires HoldsAt(b, used, Layout(t.children[k], used))
    ensures |b[base].refs| == MAX_REFS
    ensures PartlyAt(b[base := b[base].(refs := b[base].refs[k := used + 1])], base, t, k + 1, used + Size(t.children[k]))
  {
    var done, c := t.children[..k], t.children[k];
    assert t.children[..k + 1] == done + [c];
    RefsMore(done, c, base + 1);
    RefsNext(done, c, base + 1);
    assert b[base] == b[..used][base] == a[base];
    var r := b[base := b[base].(refs := b[base].refs[k := used + 1])];
    LayoutSize(c, used);
    NextHolds(a, b, r, base, done, c, used);
  }

  lemma NextHolds(a: seq<Slot>, b: seq<Slot>, r: seq<Slot>, base: nat, done: seq<Tree>, c: Tree, used: nat)
    requires (forall u | u in done + [c] :: Fits(u)) && used == base + 1 + Sizes(done)
    requires |a| == |b| == |r| && used <= |a| && b[..used] == a[..used] && r[base + 1..] == b[base + 1..]
    requires (forall u | u in done :: Fits(u)) && HoldsAt(a, base + 1, Layouts(done, base + 1))
    requires Fits(c) && HoldsAt(b, used, Layout(c, used))
    ensures HoldsAt(r, base + 1, Layouts(done + [c], base + 1))
  {
    LayoutsMore(done, c, base + 1);
    LayoutsSize(done, base + 1);
    forall i | base < i < |r| ensures r[i] == b[i] {
      assert r[base + 1..][i - base - 1] == b[base + 1..][i - base - 1];
    }
    forall i | base < i < used ensures r[i] == a[i] {
      assert b[..used][i] == a[..used][i];
    }
    HoldsSame(a, r, base + 1, Layouts(done, base + 1));
    HoldsSame(b, r, used, Layout(c, used));
    HoldsParts(r, base + 1, Layouts(done, base + 1), Layout(c, used));
  }

  lemma HoldsSame(a: seq<Slot>, b: seq<Slot>, base: nat, layout: seq<Slot>)
    requires HoldsAt(a, base, layout) && |b| == |a|
    requires forall i | base <= i < base + |layout| :: b[i] == a[i]
    ensures HoldsAt(b, base, layout)
  {
  }

  lemma PartlyAll(slots: seq<Slot>, base: nat, t: Tree, used: nat)
    requires Fits(t) && PartlyAt(slots, base, t, |t.children|, used)
    ensures used == base + Size(t) && HoldsAt(slots, base, Layout(t, base))
  {
    assert t.children[..|t.children|] == t.children;
    HoldsParts(slots, base, [Root(t, base)], Layouts(t.children, base + 1));
  }

  class SlotArena {
    const slots: array<Slot>
    const openSlots: array<bool>
    ghost var used: nat

    /** The slots in use are the first ones. */
    ghost predicate Valid()
      reads this, openSlots
    {
      slots.Length == openSlots.Length && used <= slots.Length && forall i | 0 <= i < slots.Length :: openSlots[i] <==> i >= used
    }

    constructor (size: nat)
      ensures Valid() && fresh(slots) && fresh(openSlots) && slots.Length == size && used == 0
    {
      slots := new Slot[size](i => EMPTY);
      openSlots := new bool[size](i => true);
      used := 0;
    }

    /** The first open slot; past the end if there is none. */
    method Allocate() returns (i: nat)
      requires Valid()
      modifies this, openSlots
      ensures Valid() && i == old(used)
      ensures used == if old(used) < slots.Length then old(used) + 1 else old(used)
    {
      i := 0;
      while i < slots.Length
        invariant i <= used
      {
        if openSlots[i] {
          openSlots[i] := false;
          used := used + 1;
          return;
        }
        i := i + 1;
      }
    }

    /** Puts a tree into open slots, its root first; 0 if they do not suffice. */
    method Encode(t: Tree) returns (ref: nat)
      requires Valid() && Fits(t)
      modifies this, slots, openSlots
      ensures Valid() && slots[..old(used)] == old(slots[..used])
      ensures ref != 0 <==> old(used) + Size(t) <= slots.Length
      ensures ref != 0 ==> ref == old(used) + 1 && used == old(used) + Size(t) && HoldsAt(slots[..], old(used), Layout(t, old(used)))
      decreases t, 1
    {
      var b := Allocate();
      if b == slots.Length { return 0; }
      slots[b] := Slot(t.kind, Padded(t.name), t.number, NoRefs(MAX_REFS));
      var k := 0;
      while k < |t.children|
        invariant k <= |t.children| && Valid() && slots[..b] == old(slots[..used])
        invariant PartlyAt(slots[..], b, t, k, used)
      {
        var ok := Attach(b, t, k);
        if !ok {
          SizesMore(t.children, k);
          return 0;
        }
        k := k + 1;
      }
      PartlyAll(slots[..], b, t, used);
      ref := b + 1;
    }

    /** Encodes the next child and makes the slot `b` refer to it. */
    method Attach(b: nat, t: Tree, k: nat) returns (ok: bool)
      requires Valid() && Fits(t) && k < |t.children| && PartlyAt(slots[..], b, t, k, used)
      modifies this, slots, openSlots
      ensures Valid() && slots[..b] == old(slots[..b])
      ensures ok <==> old(used) + Size(t.children[k]) <= slots.Length
      ensures ok ==> PartlyAt(slots[..], b, t, k + 1, used)
      decreases t, 0
    {
      ghost var was := slots[..];
      var r := Encode(t.children[k]);
      ok := r != 0;
      assert slots[..b] == slots[..old(used)][..b];
      if ok {
        PartlyNext(was, slots[..], b, t, k, old(used));
        slots[b] := slots[b].(refs := slots[b].refs[k := r]);
      }
    }
  }

  // --- the round trip ---

  /** Encoding a transaction in an empty arena that is large enough uses the first slots, one for each
      node, parents first; decoding gives the transaction back. The root is copied out of its slot,
      and decoding starts at its child. */
  method RoundTrip(t: Tree, size: nat) returns (back: Option<Tree>)
    requires Fits(t) && t.kind == Transaction && t.name == [] && Height(t.children[0]) <= DEPTH_BUDGET
    ensures back == if Size(t) <= size then Some(t) else None
  {
    var a := new SlotArena(size);
    var ref := a.Encode(t);
    if ref == 0 { return None; }
    var top := a.slots[ref - 1];
    assert top == Layout(t, 0)[0];
    HoldsParts(a.slots[..], 0, [Root(t, 0)], Layouts(t.children, 1));
    assert Layouts(t.children, 1) == Layout(t.children[0], 1) + Layouts(t.children[1..], 1 + Size(t.children[0]));
    HoldsParts(a.slots[..], 1, Layout(t.children[0], 1), Layouts(t.children[1..], 1 + Size(t.children[0])));
    DecodeLayout(a.slots[..], 1, t.children[0], DEPTH_BUDGET);
    var e := Decode(a.slots[..], top.refs[0], DEPTH_BUDGET);
    assert t.children == [e.value];
    back := Some(Tree(Transaction, [], top.number, [e.value]));
  }
}
