/** The holders of a transaction's store: cursor-read logs for variables, single values for
    loop counters. */
module Environments {
  import opened Syntax
  import opened PhaseRun

  class TypeHolder {
    var t: seq<int>
    var currPos: int
    var bound: bool

    constructor ()
      ensures Value() == Holder([], -1) && !bound
    {
      t, currPos, bound := [], -1, false;
    }

    function Value(): Holder
      reads this
    {
      Holder(t, currPos)
    }

    method ResetIndex()
      modifies this
      ensures Value() == Holder(old(t), -1) && bound == old(bound)
    {
      currPos := -1;
    }

    /** Appends; the cursor moves one step, which is to the new entry only if it stood at the
        last one. */
    method Append(v: int)
      modifies this
      ensures Value() == Push(old(Value()), v) && bound == old(bound)
      ensures old(currPos) == |old(t)| - 1 ==> Current() == Some(v)
    {
      t := t + [v];
      currPos := currPos + 1;
    }

    /** `ok` is the source's assertion that the cursor ends inside the log. */
    method Bind(v: int) returns (ok: bool)
      modifies this
      ensures bound && Value() == Push(old(Value()), v) && ok == InRange(Value())
      ensures old(currPos) == |old(t)| - 1 ==> ok && Current() == Some(v)
    {
      bound := true;
      t := t + [v];
      currPos := currPos + 1;
      ok := 0 <= currPos < |t|;
    }

    method Advance()
      modifies this
      ensures Value() == Increment(old(Value())) && bound == old(bound)
    {
      currPos := currPos + 1;
    }

    /** The entry the cursor stands at; outside the log is the source's failed assertion. */
    function Current(): Option<int>
      reads this
    {
      if 0 <= currPos < |t| then Some(t[currPos]) else None
    }

    method CopyFrom(o: TypeHolder)
      modifies this
      ensures Value() == old(o.Value()) && bound == old(o.bound)
    {
      t, currPos, bound := o.t, o.currPos, o.bound;
    }
  }

  class ValueHolder {
    var t: int
    var uninitialized: bool

    constructor ()
      ensures Value() == None
    {
      t, uninitialized := 0, true;
    }

    function Value(): Option<int>
      reads this
    {
      if uninitialized then None else Some(t)
    }

    /** Replaces the value, whether or not there was one. */
    method Bind(v: int)
      modifies this
      ensures Value() == Some(v)
    {
      t, uninitialized := v, false;
    }

    method CopyFrom(o: ValueHolder)
      modifies this
      ensures Value() == old(o.Value())
    {
      if uninitialized && !o.uninitialized {
        t, uninitialized := o.t, false;
      } else if !uninitialized && !o.uninitialized {
        t := o.t;
      } else {
        t, uninitialized := 0, true;
      }
    }
  }
}
