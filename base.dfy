/** Python runtime notions the model needs: optional values, the exceptions the
    library raises, and results that carry either a value or such an exception. */
module Base {

  datatype Option<+T> = None | Some(value: T)

  /** The exceptions that can escape from the library's core. */
  datatype Error =
    | ValueError(msg: string)
    | IndexError
    | KeyError(key: string)
    | TypeError
      /** A non-zero exit of the tool: the normalised command line, stdout, stderr, exit code. */
    | DoltException(execArgs: string, stdout: string, stderr: string, exitcode: int)
    | DoltDirectoryException(msg: string)

  datatype Result<+T> = Success(value: T) | Failure(error: Error) {
    predicate IsFailure() { Failure? }
    function PropagateFailure<U>(): Result<U> requires Failure? { Failure(error) }
    function Extract(): T requires Success? { value }
  }

  /** Result of an operation that returns nothing (Python `None`) or raises. */
  datatype Outcome = Pass | Fail(error: Error) {
    predicate IsFailure() { Fail? }
    function PropagateFailure<U>(): Result<U> requires Fail? { Failure(error) }
  }

  lemma AppendAssoc<T>(a: seq<T>, b: seq<T>, c: seq<T>)
    ensures a + (b + c) == a + b + c
  {
  }

  /** Dropping the first element of a concatenation drops it from the first part. */
  lemma DropFirst<T>(a: seq<T>, b: seq<T>)
    requires a != []
    ensures (a + b)[0] == a[0] && (a + b)[1..] == a[1..] + b
  {
  }

  lemma ConsFront<T>(s: seq<T>)
    requires s != []
    ensures [s[0]] + s[1..] == s
  {
  }

  /** Three sequences after a fourth, however the concatenation is grouped. */
  lemma AppendThree<T>(x: seq<T>, a: seq<T>, b: seq<T>, c: seq<T>)
    ensures x + a + b + c == x + (a + b + c)
  {
  }

  /** Python truthiness of an optional string: `None` and `""` are false. */
  predicate Given(o: Option<string>) {
    o.Some? && o.value != ""
  }

  /** A parameter typed `Union[str, List[str]]`, possibly `None`. */
  datatype Names = NoNames | One(name: string) | Many(names: seq<string>)

  /** Python truthiness of such a parameter. */
  predicate NamesGiven(n: Names) {
    match n
    case NoNames => false
    case One(s) => s != ""
    case Many(xs) => xs != []
  }
}
