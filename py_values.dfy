/**
  The Python objects that may be passed for the dataset's numeric
  constructor arguments, with the two Python operations the constructor
  applies to them: `isinstance(v, int)` and `==` against an integer.
 */
module PyValues {

  datatype Value =
    | Int(i: int)        // an `int`
    | Bool(b: bool)      // a `bool`: a subclass of `int`, True == 1 and False == 0
    | Float(x: real)     // a finite `float`
    | IntLike(n: int)    // an integer-valued object that is not an `int`, such as a numpy integer
    | Other              // any other object (None, a string, ...): equal to no integer

  /** `isinstance(v, int)`. */
  predicate IsInstanceInt(v: Value) {
    v.Int? || v.Bool?
  }

  /** `v == k` for an integer `k`, by Python's numeric equality. */
  predicate EqualsInt(v: Value, k: int) {
    match v
    case Int(i) => i == k
    case Bool(b) => (if b then 1 else 0) == k
    case Float(x) => x == k as real
    case IntLike(n) => n == k
    case Other => false
  }

  /** `v in xs` on a list of integers: membership by equality. */
  predicate InIntList(v: Value, xs: seq<int>) {
    exists j :: 0 <= j < |xs| && EqualsInt(v, xs[j])
  }
}
