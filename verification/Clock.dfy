/** Times as they are read from JSON: floats, which include the infinities and NaN. */
module Clock {
  datatype Stamp = At(time: real) | Infinite(positive: bool) | NotANumber

  /** `a > b`, which is false whenever one of them is NaN. */
  predicate Later(a: Stamp, b: Stamp) {
    match (a, b)
    case (At(x), At(y)) => x > y
    case (At(_), Infinite(positive)) => !positive
    case (Infinite(positive), At(_)) => positive
    case (Infinite(x), Infinite(y)) => x && !y
    case (_, _) => false
  }

  /** Of two different times that are numbers exactly one is later, and later is transitive;
      nothing is later or earlier than NaN. */
  lemma LaterIsAnOrder(a: Stamp, b: Stamp, c: Stamp)
    ensures a != NotANumber && b != NotANumber && a != b ==> (Later(a, b) <==> !Later(b, a))
    ensures !Later(a, a) && (Later(a, b) && Later(b, c) ==> Later(a, c))
    ensures a == NotANumber || b == NotANumber ==> !Later(a, b)
  {
  }

  /** `now - stamp > age`. */
  predicate OlderThan(now: real, stamp: Stamp, age: real) {
    match stamp
    case At(time) => now - time > age
    case Infinite(positive) => !positive
    case NotANumber => false
  }

  /** What is earlier than something too old is too old. */
  lemma EarlierIsOlder(now: real, a: Stamp, b: Stamp, age: real)
    requires OlderThan(now, b, age) && Later(b, a)
    ensures OlderThan(now, a, age)
  {
  }

  /** `abs(now - stamp) > age`. */
  predicate FurtherThan(now: real, stamp: Stamp, age: real) {
    match stamp
    case At(time) => now - time > age || time - now > age
    case Infinite(_) => true
    case NotANumber => false
  }
}
