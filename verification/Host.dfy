// What every service is given: a clock, fresh identifiers, and awaits that can fail.

module Host {
  import opened Records

  // How an awaited call fails: with an exception, or because the caller was cancelled.
  datatype Signal = Exception | Cancellation

  // What an awaited call ends in.
  datatype Awaited<+T> = Answer(value: T) | Raised(signal: Signal)
  {
    predicate IsFailure() { Raised? }

    function PropagateFailure<U>(): Awaited<U>
      requires IsFailure()
    {
      Raised(signal)
    }

    function Extract(): T
      requires !IsFailure()
    {
      value
    }
  }

  // The injected clock and identifier factory.
  class Host {
    var now: Time
    var nextId: Id
    // True when no two readings of the clock are equal.
    const strict: bool

    constructor (now: Time, nextId: Id, strict: bool)
      ensures this.now == now && this.nextId == nextId && this.strict == strict
    {
      this.now, this.nextId, this.strict := now, nextId, strict;
    }

    // A clock that never runs backwards; equal readings are possible unless it is strict.
    method Clock() returns (t: Time)
      modifies this`now
      ensures old(now) <= t == now
      ensures strict ==> old(now) < t
    {
      var ticks: nat :| 0 <= ticks;
      now := now + if strict then ticks + 1 else ticks;
      t := now;
    }

    method Uuid() returns (id: Id)
      modifies this`nextId
      ensures id == old(nextId) && nextId == id + 1
    {
      id := nextId;
      nextId := nextId + 1;
    }
  }
}
