/** Runs of the protocols: finite sequences of events, latest event outermost. */
module Runs {
  datatype Run<E> = Start | Then(before: Run<E>, event: E)

  /** `run` is `base` followed by zero or more further events. */
  predicate Extends<E(==)>(run: Run<E>, base: Run<E>) {
    run == base || (run.Then? && Extends(run.before, base))
  }

  function Length<E>(run: Run<E>): nat {
    if run.Start? then 0 else Length(run.before) + 1
  }
}
