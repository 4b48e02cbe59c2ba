/** Failure-compatible results for the Python exceptions the extraction code raises or catches. */
module Results {

  datatype Option<T> = None | Some(value: T)

  /** The exception a Python expression raises on a malformed payload. */
  datatype Error =
    | KeyErr(key: string)      // a dictionary lacks the key (KeyError)
    | TypeErr                  // an operation on a value of the wrong shape (TypeError, AttributeError)
    | IndexErr                 // element 0 of an empty list or string (IndexError)
    | ValueErr(text: string)   // int() of a string that is not a decimal numeral (ValueError)
    | NameErr(name: string)    // a local variable read before it was assigned (UnboundLocalError)

  datatype Result<T> = Ok(value: T) | Err(error: Error) {
    predicate IsFailure() {
      Err?
    }

    function PropagateFailure<U>(): Result<U>
      requires Err?
    {
      Err(error)
    }

    function Extract(): T
      requires Ok?
    {
      value
    }
  }

  /** `prefix` put in front of a successful list; an error passes through unchanged. */
  function Prefixed<T>(prefix: seq<T>, r: Result<seq<T>>): Result<seq<T>> {
    match r
    case Ok(s) => Ok(prefix + s)
    case Err(e) => Err(e)
  }

  lemma PrefixedNothing<T>(r: Result<seq<T>>)
    ensures Prefixed([], r) == r
  {
    if r.Ok? {
      assert [] + r.value == r.value;
    }
  }

  lemma PrefixedTwice<T>(a: seq<T>, b: seq<T>, r: Result<seq<T>>)
    ensures Prefixed(a, Prefixed(b, r)) == Prefixed(a + b, r)
  {
    if r.Ok? {
      assert a + (b + r.value) == (a + b) + r.value;
    }
  }
}
