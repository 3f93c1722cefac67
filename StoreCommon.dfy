/** Vocabulary shared by the application stores: what a `catch` block sees,
    the `{ ...current, ...updates }` merge of one optional field, and the
    `filter` and `map` the stores apply to their lists. */
module StoreCommon {
  import opened Common

  /** A thrown value: an Error object with its message, or anything else. */
  datatype Thrown = ErrorObject(message: string) | OtherValue

  /** `error instanceof Error ? error.message : fallback`. */
  function ErrorMessage(e: Thrown, fallback: string): (r: string)
    ensures e.ErrorObject? ==> r == e.message
    ensures e.OtherValue? ==> r == fallback
  {
    match e
    case ErrorObject(m) => m
    case OtherValue => fallback
  }

  /** One field of a spread merge: present in the updates, it wins. */
  function Over<T>(current: T, update: Option<T>): T
  {
    if update.Some? then update.value else current
  }

  /** `s.filter(keep)`. */
  function Filter<T(!new)>(s: seq<T>, keep: T -> bool): (r: seq<T>)
    ensures |r| <= |s|
    ensures forall x :: x in r <==> x in s && keep(x)
  {
    if s == [] then []
    else (if keep(s[0]) then [s[0]] else []) + Filter(s[1..], keep)
  }

  /** Filtering a concatenation filters each part in place: the kept
      elements stay in their original order. */
  lemma {:induction false} FilterAppend<T(!new)>(a: seq<T>, b: seq<T>, keep: T -> bool)
    ensures Filter(a + b, keep) == Filter(a, keep) + Filter(b, keep)
  {
    if a == [] {
      assert a + b == b;
    } else {
      assert (a + b)[1..] == a[1..] + b;
      FilterAppend(a[1..], b, keep);
    }
  }

  /** A filter that drops nothing is the identity. */
  lemma {:induction false} FilterKeepsAll<T(!new)>(s: seq<T>, keep: T -> bool)
    requires forall i :: 0 <= i < |s| ==> keep(s[i])
    ensures Filter(s, keep) == s
  {
    if s != [] {
      FilterKeepsAll(s[1..], keep);
    }
  }

  /** A test and its negation split a sequence into two filters that
      together hold each of its elements once. */
  lemma {:induction false} FilterPartition<T(!new)>(s: seq<T>, keep: T -> bool, drop: T -> bool)
    requires forall x :: drop(x) == !keep(x)
    ensures multiset(Filter(s, keep)) + multiset(Filter(s, drop)) == multiset(s)
  {
    if s != [] {
      var x := s[0];
      FilterPartition(s[1..], keep, drop);
      assert s == [x] + s[1..];
      assert multiset(s) == multiset{x} + multiset(s[1..]);
      if keep(x) {
        assert !drop(x);
        assert Filter(s, keep) == [x] + Filter(s[1..], keep);
        assert multiset(Filter(s, keep)) == multiset{x} + multiset(Filter(s[1..], keep));
        assert Filter(s, drop) == Filter(s[1..], drop);
      } else {
        assert drop(x);
        assert Filter(s, keep) == Filter(s[1..], keep);
        assert Filter(s, drop) == [x] + Filter(s[1..], drop);
        assert multiset(Filter(s, drop)) == multiset{x} + multiset(Filter(s[1..], drop));
      }
    }
  }

  /** `s.map(x => sel(x) ? f(x) : x)`. */
  function MapWhere<T>(s: seq<T>, sel: T -> bool, f: T -> T): (r: seq<T>)
    ensures |r| == |s|
    ensures forall i :: 0 <= i < |s| && !sel(s[i]) ==> r[i] == s[i]
    ensures forall i :: 0 <= i < |s| && sel(s[i]) ==> r[i] == f(s[i])
  {
    if s == [] then []
    else [if sel(s[0]) then f(s[0]) else s[0]] + MapWhere(s[1..], sel, f)
  }
}
