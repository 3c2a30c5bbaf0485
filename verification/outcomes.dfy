/**
 * Failure-carrying results shared by the parser and the molecule model.
 * Python signals failure by raising; the model returns the exception as a value.
 */
module Outcomes {

  datatype Option<+T> = None | Some(value: T)

  /** The exceptions the modelled code can raise, one constructor per cause. */
  datatype Error =
    | UnpackMismatch                 // ValueError: wrong number of values to unpack
    | NotAnInteger(token: string)    // ValueError raised by int()
    | NotAFloat(token: string)       // ValueError raised by float()
    | UnsupportedShell(message: string) // ValueError raised for an F shell
    | NotInList(item: string)        // ValueError raised by list.index
    | MissingKey(key: string)        // KeyError raised by a dict lookup
    | AssertionFailed                // AssertionError raised by an assert statement
    | IteratorExhausted              // StopIteration escaping a function
    | NotIterable                    // TypeError: extending a list by None
  {
    /** True for the causes Python reports as ValueError. */
    predicate IsValueError() {
      UnpackMismatch? || NotAnInteger? || NotAFloat? || UnsupportedShell? || NotInList?
    }
  }

  datatype Result<+T> = Ok(value: T) | Err(error: Error)

  /** The result of a statement sequence that either completes or raises. */
  datatype Outcome = Pass | Fail(error: Error)

  /** Prefixes the items of a successful result; a failure passes through. */
  function Then<T>(prefix: seq<T>, r: Result<seq<T>>): Result<seq<T>>
  {
    match r
    case Ok(rest) => Ok(prefix + rest)
    case Err(e) => Err(e)
  }

  lemma ThenNil<T>(r: Result<seq<T>>)
    ensures Then([], r) == r
  {
    if r.Ok? {
      assert [] + r.value == r.value;
    }
  }

  /** Taking one more element of a sequence appends that element. */
  lemma TakeSnoc<T>(s: seq<T>, i: nat)
    requires i < |s|
    ensures s[..i + 1] == s[..i] + [s[i]]
  {
  }

  /** A sequence is its prefix followed by the rest. */
  lemma TakeDrop<T>(s: seq<T>, i: nat)
    requires i <= |s|
    ensures s[..i] + s[i..] == s
  {
  }

  lemma ThenThen<T>(a: seq<T>, b: seq<T>, r: Result<seq<T>>)
    ensures Then(a, Then(b, r)) == Then(a + b, r)
  {
    if r.Ok? {
      assert a + (b + r.value) == (a + b) + r.value;
    }
  }
}
