/** Shared vocabulary of the two in-memory stores: optional values, the
    identifiers and instants that the clock and uuid4 supply, and Python's
    list.remove. */
module Common {

  /** A uuid4 value, modelled as an opaque natural number. */
  type Id = nat

  /** An instant in UTC, e.g. seconds since the epoch. */
  type Timestamp = int

  datatype Option<+T> = None | Some(value: T)

  /** The value held by `o`, or `d` when there is none. */
  function Or<T>(o: Option<T>, d: T): (r: T)
    ensures o.Some? ==> r == o.value
    ensures o.None? ==> r == d
  {
    match o
    case Some(v) => v
    case None => d
  }

  /** Python's `s.remove(x)`: drops the FIRST element equal to `x` (Python
      raises ValueError when there is none, so callers must know `x in s`). */
  function RemoveFirst<T(==)>(s: seq<T>, x: T): (r: seq<T>)
    requires x in s
    ensures |r| == |s| - 1
  {
    if s[0] == x then s[1..] else [s[0]] + RemoveFirst(s[1..], x)
  }

  /** Exactly one occurrence of `x` leaves; every other element stays. */
  lemma {:induction false} RemoveFirstMultiset<T>(s: seq<T>, x: T)
    requires x in s
    ensures multiset(RemoveFirst(s, x)) == multiset(s) - multiset{x}
  {
    assert s == [s[0]] + s[1..];
    if s[0] != x {
      RemoveFirstMultiset(s[1..], x);
    }
  }

  /** When `x` sits at index `i` and nowhere before it, removing the first `x`
      removes exactly index `i` and keeps the order of everything else. */
  lemma {:induction false} RemoveFirstAt<T>(s: seq<T>, x: T, i: nat)
    requires i < |s| && s[i] == x
    requires forall j :: 0 <= j < i ==> s[j] != x
    ensures RemoveFirst(s, x) == s[..i] + s[i + 1..]
  {
    if i == 0 {
      assert s[..0] + s[1..] == s[1..];
    } else {
      var t := s[1..];
      assert t[i - 1] == x;
      RemoveFirstAt(t, x, i - 1);
      assert RemoveFirst(s, x) == [s[0]] + RemoveFirst(t, x);
      assert [s[0]] + t[..i - 1] == s[..i];
      assert t[i..] == s[i + 1..];
    }
  }
}
