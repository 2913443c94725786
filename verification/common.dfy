/** Small shared vocabulary: optional values, results and order-preserving filters. */
module Common {

  datatype Option<+T> = None | Some(value: T) {
    function GetOr(default: T): T {
      match this
      case Some(v) => v
      case None => default
    }
  }

  datatype Result<+T, +E> = Ok(value: T) | Err(error: E)

  /** JavaScript truthiness of an optional string: absent and "" are falsy. */
  predicate TruthyString(s: Option<string>) {
    s.Some? && s.value != ""
  }

  /** JavaScript truthiness of an optional number (NaN is not modelled). */
  predicate TruthyNumber(n: Option<int>) {
    n.Some? && n.value != 0
  }

  /** `x || 0` on an optional number. */
  function OrZero(n: Option<int>): (r: int)
    ensures TruthyNumber(n) ==> r == n.value
    ensures !TruthyNumber(n) ==> r == 0
  {
    if n.Some? then n.value else 0
  }

  /** `Array.prototype.filter`: keeps, in order, the elements satisfying `p`. */
  function Filter<T(!new)>(s: seq<T>, p: T -> bool): (r: seq<T>)
    ensures |r| <= |s|
    ensures forall x :: x in r <==> x in s && p(x)
  {
    if s == [] then []
    else if p(s[0]) then [s[0]] + Filter(s[1..], p)
    else Filter(s[1..], p)
  }

  /** `Array.prototype.every`. */
  function Every<T(!new)>(s: seq<T>, p: T -> bool): (b: bool)
    ensures b <==> forall x :: x in s ==> p(x)
    ensures b <==> forall i :: 0 <= i < |s| ==> p(s[i])
  {
    s == [] || (p(s[0]) && Every(s[1..], p))
  }

  /** `s.filter(p).every(q)` asks `q` of exactly the elements satisfying `p`. */
  lemma EveryOfFilter<T(!new)>(s: seq<T>, p: T -> bool, q: T -> bool)
    ensures Every(Filter(s, p), q) <==> forall i :: 0 <= i < |s| && p(s[i]) ==> q(s[i])
  {
    if Every(Filter(s, p), q) {
      forall i | 0 <= i < |s| && p(s[i])
        ensures q(s[i])
      {
        assert s[i] in Filter(s, p);
      }
    }
  }

  lemma {:induction false} FilterAppend<T(!new)>(a: seq<T>, b: seq<T>, p: T -> bool)
    ensures Filter(a + b, p) == Filter(a, p) + Filter(b, p)
  {
    if a == [] {
      assert a + b == b;
    } else {
      assert (a + b)[0] == a[0];
      assert (a + b)[1..] == a[1..] + b;
      FilterAppend(a[1..], b, p);
    }
  }

  /** When every element satisfies exactly one of three predicates, the three filters split the sequence. */
  lemma {:induction false} FilterSplitsInThree<T(!new)>(s: seq<T>, p: T -> bool, q: T -> bool, u: T -> bool)
    requires forall x :: x in s ==> (p(x) && !q(x) && !u(x)) || (!p(x) && q(x) && !u(x)) || (!p(x) && !q(x) && u(x))
    ensures |Filter(s, p)| + |Filter(s, q)| + |Filter(s, u)| == |s|
  {
    if s != [] {
      FilterSplitsInThree(s[1..], p, q, u);
    }
  }
}
