/** Consistency labels: a total order with a least label `bottom` and a greatest label `top`. */
module Labels {

  /** Every finite chain of labels between bottom and top has a copy inside the unit interval,
      so no bound on the number of user labels is assumed. */
  type Label = r: real | 0.0 <= r <= 1.0

  const BOTTOM: Label := 0.0
  const TOP: Label := 1.0

  /** A value labelled `a` may influence one labelled `b`. */
  predicate FlowsTo(a: Label, b: Label) {
    a >= b
  }

  function MinOf(a: Label, b: Label): Label {
    if a <= b then a else b
  }
}
