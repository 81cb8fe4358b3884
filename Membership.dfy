/** The membership flip shared by every toggle handler of the app: remove the
    element when present (`filter(x => x !== id)`), append it when absent
    (`[...prev, id]`). The element type is generic so that habit ids (strings)
    and weekday indices (numbers) use the same definition. */
module Membership {

  /** No element occurs twice. */
  predicate NoDuplicates<T(==,!new)>(s: seq<T>) {
    forall i, j :: 0 <= i < j < |s| ==> s[i] != s[j]
  }

  /** Every element of `s` belongs to `universe`. */
  predicate AllIn<T(==,!new)>(s: seq<T>, universe: set<T>) {
    forall i :: 0 <= i < |s| ==> s[i] in universe
  }

  /** Array `filter` keeping the elements different from `x`, in their order. */
  function Remove<T(==,!new)>(s: seq<T>, x: T): (r: seq<T>)
    ensures forall y :: y in r <==> y in s && y != x
    ensures multiset(r) == multiset(s)[x := 0]
    ensures x !in s ==> r == s
  {
    if s == [] then []
    else
      assert s == [s[0]] + s[1..];
      if s[0] == x then Remove(s[1..], x)
      else [s[0]] + Remove(s[1..], x)
  }

  /** The toggle rule of all three handlers. */
  function Toggle<T(==,!new)>(s: seq<T>, x: T): (r: seq<T>)
    ensures x in r <==> x !in s
    ensures forall y :: y != x ==> (y in r <==> y in s)
    ensures x in s ==> r == Remove(s, x)
    ensures x !in s ==> r == s + [x]
  {
    if x in s then Remove(s, x) else s + [x]
  }

  /** Filtering distributes over concatenation: the relative order of the
      kept elements is that of the input. */
  lemma {:induction false} RemoveAppend<T(!new)>(s: seq<T>, t: seq<T>, x: T)
    ensures Remove(s + t, x) == Remove(s, x) + Remove(t, x)
  {
    if s == [] {
      assert s + t == t;
    } else {
      assert (s + t)[1..] == s[1..] + t;
      RemoveAppend(s[1..], t, x);
    }
  }

  /** Filtering twice by the same element is filtering once. */
  lemma {:induction false} RemoveIdempotent<T(!new)>(s: seq<T>, x: T)
    ensures Remove(Remove(s, x), x) == Remove(s, x)
  {
    if s != [] {
      RemoveIdempotent(s[1..], x);
    }
  }

  /** Filtering keeps a duplicate-free list duplicate-free. */
  lemma {:induction false} RemoveNoDuplicates<T(!new)>(s: seq<T>, x: T)
    requires NoDuplicates(s)
    ensures NoDuplicates(Remove(s, x))
  {
    if s != [] {
      NoDuplicatesTail(s);
      RemoveNoDuplicates(s[1..], x);
      if s[0] != x {
        var tail := Remove(s[1..], x);
        assert s[0] !in tail;
        var r := [s[0]] + tail;
        forall i, j | 0 <= i < j < |r| ensures r[i] != r[j] {
          if i == 0 {
            assert r[j] == tail[j - 1];
          } else {
            assert r[i] == tail[i - 1] && r[j] == tail[j - 1];
          }
        }
      }
    }
  }

  /** The tail of a duplicate-free list is duplicate-free and lacks its head. */
  lemma NoDuplicatesTail<T(!new)>(s: seq<T>)
    requires s != [] && NoDuplicates(s)
    ensures NoDuplicates(s[1..]) && s[0] !in s[1..]
  {
    forall i, j | 0 <= i < j < |s[1..]| ensures s[1..][i] != s[1..][j] {
      assert s[1..][i] == s[i + 1] && s[1..][j] == s[j + 1];
    }
    forall k | 0 <= k < |s[1..]| ensures s[1..][k] != s[0] {
      assert s[1..][k] == s[k + 1];
    }
  }

  /** In a duplicate-free list, filtering out a present element drops exactly one. */
  lemma {:induction false} RemoveLength<T(!new)>(s: seq<T>, x: T)
    requires NoDuplicates(s)
    ensures |Remove(s, x)| == if x in s then |s| - 1 else |s|
  {
    if s != [] {
      NoDuplicatesTail(s);
      if s[0] != x {
        RemoveLength(s[1..], x);
      }
    }
  }

  /** After a toggle, every other element keeps its membership, its
      multiplicity and its relative order: deleting `x` from both lists gives
      the same list. */
  lemma {:induction false} ToggleOthersUnchanged<T(!new)>(s: seq<T>, x: T)
    ensures Remove(Toggle(s, x), x) == Remove(s, x)
  {
    if x in s {
      RemoveIdempotent(s, x);
    } else {
      RemoveAppend(s, [x], x);
      assert Remove([x], x) == [];
    }
  }

  /** A toggle keeps a duplicate-free list duplicate-free. */
  lemma {:induction false} ToggleNoDuplicates<T(!new)>(s: seq<T>, x: T)
    requires NoDuplicates(s)
    ensures NoDuplicates(Toggle(s, x))
  {
    if x in s {
      RemoveNoDuplicates(s, x);
    } else {
      var r := s + [x];
      forall i, j | 0 <= i < j < |r| ensures r[i] != r[j] {
        if j == |s| {
          assert r[i] == s[i];
        } else {
          assert r[i] == s[i] && r[j] == s[j];
        }
      }
    }
  }

  /** A toggle of an element of `universe` keeps a list within `universe`. */
  lemma ToggleAllIn<T(!new)>(s: seq<T>, x: T, universe: set<T>)
    requires AllIn(s, universe) && x in universe
    ensures AllIn(Toggle(s, x), universe)
  {
    var r := Toggle(s, x);
    forall i | 0 <= i < |r| ensures r[i] in universe {
      assert r[i] in r;
    }
  }

  /** On a duplicate-free list a toggle changes the length by exactly one:
      -1 when the element was present, +1 when it was absent. */
  lemma ToggleLength<T(!new)>(s: seq<T>, x: T)
    requires NoDuplicates(s)
    ensures |Toggle(s, x)| == if x in s then |s| - 1 else |s| + 1
  {
    if x in s {
      RemoveLength(s, x);
    }
  }

  /** Two toggles of the same element restore every element's membership. */
  lemma ToggleTwiceMembership<T(!new)>(s: seq<T>, x: T)
    ensures forall y :: y in Toggle(Toggle(s, x), x) <==> y in s
  {
  }

  /** Toggling an absent element twice restores the list exactly. */
  lemma {:induction false} ToggleTwiceAbsent<T(!new)>(s: seq<T>, x: T)
    requires x !in s
    ensures Toggle(Toggle(s, x), x) == s
  {
    RemoveAppend(s, [x], x);
    assert Remove([x], x) == [];
  }

  /** Toggling a present element twice moves it to the end of the list: its
      membership, and with no duplicates the multiset, are restored. */
  lemma {:induction false} ToggleTwicePresent<T(!new)>(s: seq<T>, x: T)
    requires x in s
    ensures Toggle(Toggle(s, x), x) == Remove(s, x) + [x]
    ensures NoDuplicates(s) ==> multiset(Toggle(Toggle(s, x), x)) == multiset(s)
  {
    if NoDuplicates(s) {
      RemoveLength(s, x);
      assert |multiset(Remove(s, x))| == |Remove(s, x)| && |multiset(s)| == |s|;
      assert multiset(s)[x] >= 1;
      assert multiset(s) == multiset(Remove(s, x)) + multiset{x};
    }
  }
}
