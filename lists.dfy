/**
 * The list bookkeeping of the pairing step: Python's `list.remove` (drop the first
 * occurrence) and `choose_and_remove`.
 */
module Lists {

  /** No element occurs twice: the head is not in the tail, which has no repeats either. */
  predicate NoDup<T(==)>(s: seq<T>) {
    s == [] || (s[0] !in s[1..] && NoDup(s[1..]))
  }

  /** `s.remove(x)`: `s` without the first occurrence of `x`. Python raises `ValueError` when
      `x` is absent; every caller here removes an element it knows to be present (see
      `RemoveFirst`), so the absent case, which returns `s`, is never reached. */
  function Remove<T(==)>(s: seq<T>, x: T): (r: seq<T>)
    ensures |r| == if x in s then |s| - 1 else |s|
  {
    if s == [] then []
    else if s[0] == x then s[1..]
    else [s[0]] + Remove(s[1..], x)
  }

  /** Removing an element present in the list takes out exactly one copy of it. */
  lemma {:induction false} RemoveCount<T>(s: seq<T>, x: T)
    requires x in s
    ensures |Remove(s, x)| == |s| - 1
    ensures multiset(Remove(s, x)) == multiset(s) - multiset{x}
  {
    if s[0] == x {
      assert s == [s[0]] + s[1..];
    } else {
      RemoveCount(s[1..], x);
      assert s == [s[0]] + s[1..];
    }
  }

  /** In a list without duplicates, removing `x` leaves exactly the other elements, still
      without duplicates. */
  lemma {:induction false} RemoveDistinct<T>(s: seq<T>, x: T)
    requires NoDup(s) && x in s
    ensures NoDup(Remove(s, x))
    ensures forall y :: y in Remove(s, x) <==> y in s && y != x
  {
    assert s == [s[0]] + s[1..];
    if s[0] != x {
      RemoveDistinct(s[1..], x);
      var r := Remove(s, x);
      assert r == [s[0]] + Remove(s[1..], x);
      assert r[1..] == Remove(s[1..], x);
    }
  }

  /** Appending an element not yet in a list without duplicates keeps it without duplicates. */
  lemma {:induction false} AppendFresh<T>(s: seq<T>, x: T)
    requires NoDup(s) && x !in s
    ensures NoDup(s + [x])
  {
    if s != [] {
      assert (s + [x])[1..] == s[1..] + [x];
      AppendFresh(s[1..], x);
    }
  }

  /** `list.remove` as the source runs it: scan for the first occurrence, then drop it. */
  method RemoveFirst<T(==)>(s: seq<T>, x: T) returns (r: seq<T>)
    requires x in s
    ensures r == Remove(s, x)
  {
    var i := 0;
    while s[i] != x
      invariant 0 <= i < |s|
      invariant x in s[i..]
      invariant Remove(s, x) == s[..i] + Remove(s[i..], x)
      decreases |s| - i
    {
      RemoveSkip(s, x, i);
      i := i + 1;
    }
    assert s[i..][1..] == s[i + 1 ..];
    r := s[..i] + s[i + 1 ..];
  }

  /** Scanning past an element other than `x` moves it from the part still to be searched to
      the part kept. */
  lemma RemoveSkip<T>(s: seq<T>, x: T, i: nat)
    requires i < |s| && s[i] != x
    ensures x in s[i..] ==> x in s[i + 1 ..]
    ensures s[..i] + Remove(s[i..], x) == s[..i + 1] + Remove(s[i + 1 ..], x)
  {
    assert s[i..] == [s[i]] + s[i + 1 ..];
    assert s[..i + 1] == s[..i] + [s[i]];
    assert Remove(s[i..], x) == [s[i]] + Remove(s[i + 1 ..], x);
  }

  /** `choose_and_remove`: the element at the drawn index, and the list without it.
      `random.choice` of an empty list raises, so the list must not be empty. */
  method ChooseAndRemove<T(==)>(source: seq<T>, pick: nat) returns (a: T, rest: seq<T>)
    requires |source| > 0
    ensures a == source[pick % |source|]
    ensures rest == Remove(source, a)
    ensures |rest| == |source| - 1 && multiset(rest) == multiset(source) - multiset{a}
  {
    a := source[pick % |source|];
    rest := RemoveFirst(source, a);
    RemoveCount(source, a);
  }
}
