/**
 * The `List<T>` operations the plugins rely on, stated over sequences,
 * and the one fact about C# dictionaries the model needs: enumerating one
 * yields every key exactly once, in an order the library does not specify.
 */
module Lists {

  /** No element occurs twice. */
  predicate Distinct<T(==)>(s: seq<T>) {
    forall i, j :: 0 <= i < j < |s| ==> s[i] != s[j]
  }

  /** `order` is one enumeration of the key set `keys`. */
  ghost predicate IsEnumeration<T(!new)>(order: seq<T>, keys: set<T>) {
    Distinct(order) && (forall k :: k in order <==> k in keys)
  }

  /** Index of the first occurrence of `x` in `s`. */
  function IndexOf<T(==)>(s: seq<T>, x: T): (i: nat)
    requires x in s
    ensures i < |s| && s[i] == x
    ensures forall j :: 0 <= j < i ==> s[j] != x
  {
    if s[0] == x then 0 else 1 + IndexOf(s[1..], x)
  }

  /**
   * `List<T>.Remove`: drops the first occurrence of `x`, and leaves the
   * list as it is when `x` is absent.
   */
  function RemoveFirst<T(==)>(s: seq<T>, x: T): (r: seq<T>)
    ensures x !in s ==> r == s
    ensures multiset(r) == multiset(s) - multiset{x}
  {
    if s == [] then []
    else
      assert s == [s[0]] + s[1..];
      if s[0] == x then s[1..] else [s[0]] + RemoveFirst(s[1..], x)
  }

  /**
   * A value stays in a list after one `Remove` of it exactly when the list
   * held it at least twice.
   */
  lemma {:induction false} StillPresentAfterRemove<T>(s: seq<T>, x: T)
    ensures x in RemoveFirst(s, x) <==> multiset(s)[x] >= 2
  {
    var r := RemoveFirst(s, x);
    assert multiset(r)[x] == if multiset(s)[x] == 0 then 0 else multiset(s)[x] - 1;
    assert x in r <==> x in multiset(r);
    assert x in s <==> x in multiset(s);
  }

  /** Appending a value that was absent and then removing it restores the list. */
  lemma {:induction false} RemoveAppended<T>(s: seq<T>, x: T)
    requires x !in s
    ensures RemoveFirst(s + [x], x) == s
  {
    if s != [] {
      assert (s + [x])[1..] == s[1..] + [x];
      RemoveAppended(s[1..], x);
    }
  }

  /** Removing from a list without duplicates keeps it without duplicates. */
  lemma {:induction false} RemoveFirstDistinct<T>(s: seq<T>, x: T)
    requires Distinct(s)
    ensures Distinct(RemoveFirst(s, x))
    ensures forall y :: y in RemoveFirst(s, x) <==> y in s && y != x
  {
    if s != [] {
      var t := s[1..];
      assert Distinct(t) by {
        forall i, j | 0 <= i < j < |t| ensures t[i] != t[j] { assert t[i] == s[i + 1] && t[j] == s[j + 1]; }
      }
      assert s[0] !in t by {
        forall i | 0 <= i < |t| ensures t[i] != s[0] { assert t[i] == s[i + 1]; }
      }
      assert forall y :: y in s <==> y == s[0] || y in t;
      if s[0] != x {
        RemoveFirstDistinct(t, x);
        var r := RemoveFirst(t, x);
        assert RemoveFirst(s, x) == [s[0]] + r;
        forall i, j | 0 <= i < j < |[s[0]] + r| ensures ([s[0]] + r)[i] != ([s[0]] + r)[j] {
          if i > 0 { assert ([s[0]] + r)[i] == r[i - 1]; }
          assert ([s[0]] + r)[j] == r[j - 1];
        }
      }
    }
  }
}
