/** Small shared vocabulary: nullable values, outcomes that may throw, and the
    string operations the Java and TypeScript code relies on. */
module Base {

  /** A Java reference or TypeScript value that may be null / undefined. */
  datatype Option<+T> = None | Some(value: T)
  {
    function GetOr(default: T): T
    {
      match this
      case Some(v) => v
      case None => default
    }
  }

  /** The exceptions the modelled code can throw. */
  datatype Exception =
    | IllegalArgument      // java.lang.IllegalArgumentException
    | NumberFormat         // java.lang.NumberFormatException from Long.parseLong
    | ClassCast            // java.lang.ClassCastException from an unchecked cast
    | NullPointer          // java.lang.NullPointerException
    | UserNotFound         // the application's UserNotFoundException
    | NoStompConnection    // the TypeError stompjs throws without a live STOMP connection

  /** A call that either returns a value or throws. */
  datatype Result<+T> = Ok(value: T) | Throw(error: Exception)

  predicate StartsWith(s: string, prefix: string)
  {
    |prefix| <= |s| && s[..|prefix|] == prefix
  }

  /** Blank as Hibernate Validator's @NotBlank judges it: a non-null string
      whose `trim()` is empty, trim dropping every char <= ' '. */
  predicate IsBlank(s: string)
  {
    forall i :: 0 <= i < |s| ==> s[i] <= ' '
  }

  /** Collectors.joining(sep): the parts in order with sep between neighbours. */
  function Join(parts: seq<string>, sep: string): string
  {
    if |parts| == 0 then ""
    else if |parts| == 1 then parts[0]
    else parts[0] + sep + Join(parts[1..], sep)
  }

  /** Joining a head and a non-empty tail puts one separator between them. */
  lemma JoinCons(head: string, tail: seq<string>, sep: string)
    requires |tail| >= 1
    ensures Join([head] + tail, sep) == head + sep + Join(tail, sep)
  {
    assert ([head] + tail)[1..] == tail;
  }

  /** Concatenation of a sequence of sequences, in order (Array.prototype.flatMap). */
  function Flatten<T>(xs: seq<seq<T>>): seq<T>
  {
    if |xs| == 0 then [] else xs[0] + Flatten(xs[1..])
  }

  lemma {:induction false} FlattenAppend<T>(xs: seq<seq<T>>, x: seq<T>)
    ensures Flatten(xs + [x]) == Flatten(xs) + x
  {
    if |xs| == 0 {
      assert xs + [x] == [x];
    } else {
      assert (xs + [x])[1..] == xs[1..] + [x];
      FlattenAppend(xs[1..], x);
    }
  }
}
