/** Small value wrappers shared by every module of the model. */
module Basics {

  datatype Option<+T> = None | Some(value: T)

  /** The outcome of an operation that can raise or reject. */
  datatype Result<+T, +E> = Ok(value: T) | Err(error: E)

  /** The zero or one element an optional effect contributes to a log. */
  function AsSeq<T>(o: Option<T>): seq<T>
  {
    if o.Some? then [o.value] else []
  }
}

/** Outbound HTTP as seen from this system. */
module Oracle {

  /** A remote endpoint: it answers every request with a fixed function of
      that request, and remembers every request it was sent, in order. */
  class Endpoint<Q, A> {
    const answer: Q -> A
    var received: seq<Q>

    constructor (answer: Q -> A)
      ensures this.answer == answer && received == []
    {
      this.answer := answer;
      received := [];
    }

    method Post(q: Q) returns (a: A)
      modifies this
      ensures received == old(received) + [q]
      ensures a == answer(q)
    {
      received := received + [q];
      a := answer(q);
    }
  }
}
