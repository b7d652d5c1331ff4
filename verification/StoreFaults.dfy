/** A sequence of store calls in which one may throw, as the services on top of the store can meet it. */
module StoreFaults {
  /** After `calls` calls that go well the next one throws, having done its own work or not. */
  datatype Fault = Never | In(calls: nat, done: bool)

  /** The call made now throws. */
  predicate Hits(f: Fault) {
    f.In? && f.calls == 0
  }

  /** What is to come after a call that went well. */
  function Next(f: Fault): Fault {
    if f.In? && f.calls > 0 then In(f.calls - 1, f.done) else f
  }

  /** What is to come after so many calls that went well. */
  function Skip(f: Fault, n: nat): Fault {
    if f.In? && f.calls >= n then In(f.calls - n, f.done) else f
  }

  /** The throw comes once call number `k` has done its work. */
  predicate Past(f: Fault, k: nat) {
    f.In? && (f.calls > k || (f.calls == k && f.done))
  }
}
