/** Small shared vocabulary: options, results and maxima. */
module Prelude {

  datatype Option<+T> = None | Some(value: T) {
    function GetOr(default: T): T {
      if Some? then value else default
    }
  }

  datatype Result<+T, +E> = Ok(value: T) | Err(error: E)

  function Max(a: int, b: int): int {
    if a < b then b else a
  }

  /** The greater of an optional value and `v`; a missing value gives way. */
  function Raise(o: Option<int>, v: int): Option<int> {
    if o.None? || o.value < v then Some(v) else o
  }

  /** `v` lies strictly above an optional floor. */
  predicate Above(v: int, floor: Option<int>) {
    floor.Some? ==> floor.value < v
  }

  /** An optional floor never falls. */
  predicate NotBelow(low: Option<int>, high: Option<int>) {
    low.Some? ==> high.Some? && low.value <= high.value
  }

  lemma Member<T>(s: set<T>) returns (x: T)
    requires s != {}
    ensures x in s
  {
    x :| x in s;
  }

  lemma {:induction false} GreatestOf(s: set<int>) returns (m: int)
    requires s != {}
    ensures m in s
    ensures forall x :: x in s ==> x <= m
    decreases |s|
  {
    var a := Member(s);
    var rest := s - {a};
    assert s == rest + {a};
    m := a;
    if rest != {} {
      var high := GreatestOf(rest);
      if a < high { m := high; }
    }
  }

  lemma MaximumExists(s: set<int>)
    requires s != {}
    ensures exists m :: m in s && forall x :: x in s ==> x <= m
  {
    var m := GreatestOf(s);
  }

  /** The greatest element of a non-empty finite set. */
  function Maximum(s: set<int>): (m: int)
    requires s != {}
    ensures m in s
    ensures forall x :: x in s ==> x <= m
  {
    MaximumExists(s);
    var m :| m in s && forall x :: x in s ==> x <= m;
    m
  }
}
