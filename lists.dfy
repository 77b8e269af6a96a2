/** The in-place list edits the handlers perform on `roles` and
    `selected_slots`: Python's `list.remove(x)` and `list.append(x)`, and the
    toggle built from them. */
module Lists {

  /** No element occurs twice. */
  predicate NoDup<T(==)>(s: seq<T>)
  {
    forall i, j :: 0 <= i < j < |s| ==> s[i] != s[j]
  }

  /** Index of the first occurrence of `x` in `s`. */
  function IndexOf<T(==)>(s: seq<T>, x: T): (i: nat)
    requires x in s
    ensures i < |s| && s[i] == x
    ensures forall j :: 0 <= j < i ==> s[j] != x
  {
    if s[0] == x then 0 else 1 + IndexOf(s[1..], x)
  }

  /** Python's `list.remove(x)`: deletes the first occurrence of `x`.
      (Python raises ValueError when `x` is absent; the bot never calls it then.) */
  function RemoveFirst<T(==)>(s: seq<T>, x: T): (r: seq<T>)
    requires x in s
    ensures r == s[..IndexOf(s, x)] + s[IndexOf(s, x) + 1..]
  {
    if s[0] == x then s[1..]
    else
      assert s[1..][..IndexOf(s[1..], x)] == s[1..IndexOf(s, x)];
      [s[0]] + RemoveFirst(s[1..], x)
  }

  /** The toggle of `get_roles` and `toggle_slot`:
      `if x in s: s.remove(x) else: s.append(x)`. */
  function Toggled<T(==)>(s: seq<T>, x: T): (r: seq<T>)
    ensures multiset(r) == if x in s then multiset(s) - multiset{x} else multiset(s) + multiset{x}
  {
    if x in s then
      RemoveFirstMultiset(s, x);
      RemoveFirst(s, x)
    else s + [x]
  }

  /** `list.remove(x)` takes exactly one `x` out of the multiset of elements. */
  lemma RemoveFirstMultiset<T>(s: seq<T>, x: T)
    requires x in s
    ensures multiset(RemoveFirst(s, x)) == multiset(s) - multiset{x}
  {
    var i := IndexOf(s, x);
    assert s == s[..i] + [x] + s[i + 1..];
  }

  /** Element `k` of `list.remove(x)`'s result is element `k` of the list
      before the first `x`, and element `k + 1` after it. */
  lemma RemoveFirstAt<T>(s: seq<T>, x: T, k: int)
    requires x in s && 0 <= k < |s| - 1
    ensures var i := IndexOf(s, x); RemoveFirst(s, x)[k] == (if k < i then s[k] else s[k + 1])
  {
    var i := IndexOf(s, x);
    var r := RemoveFirst(s, x);
    var front, back := s[..i], s[i + 1..];
    assert r == front + back;
    if k < i {
      assert r[k] == front[k];
    } else {
      assert r[k] == back[k - i];
    }
  }

  /** In a list without duplicates, the first `x` is the only one, and the
      rest stays without duplicates. */
  lemma RemoveFirstNoDupKeepsNoDup<T>(s: seq<T>, x: T)
    requires x in s && NoDup(s)
    ensures x !in RemoveFirst(s, x)
    ensures NoDup(RemoveFirst(s, x))
  {
    var r := RemoveFirst(s, x);
    forall k | 0 <= k < |r| ensures r[k] != x {
      RemoveFirstAt(s, x, k);
    }
    forall j, k | 0 <= j < k < |r| ensures r[j] != r[k] {
      RemoveFirstAt(s, x, j);
      RemoveFirstAt(s, x, k);
    }
  }

  /** `list.remove(x)` keeps every element other than `x`. */
  lemma RemoveFirstKeepsOthers<T>(s: seq<T>, x: T, y: T)
    requires x in s && y != x
    ensures y in RemoveFirst(s, x) <==> y in s
  {
    var i := IndexOf(s, x);
    var r := RemoveFirst(s, x);
    if y in r {
      var k :| 0 <= k < |r| && r[k] == y;
      RemoveFirstAt(s, x, k);
    }
    if y in s {
      var k :| 0 <= k < |s| && s[k] == y;
      if k < i { RemoveFirstAt(s, x, k); } else { RemoveFirstAt(s, x, k - 1); }
    }
  }

  /** Removing the first `x` from a list without duplicates removes `x`
      altogether and keeps every other element. */
  lemma RemoveFirstNoDup<T>(s: seq<T>, x: T)
    requires x in s && NoDup(s)
    ensures x !in RemoveFirst(s, x)
    ensures forall y :: y != x ==> (y in RemoveFirst(s, x) <==> y in s)
    ensures NoDup(RemoveFirst(s, x))
    ensures multiset(RemoveFirst(s, x)) == multiset(s) - multiset{x}
  {
    RemoveFirstMultiset(s, x);
    RemoveFirstNoDupKeepsNoDup(s, x);
    forall y | y != x ensures y in RemoveFirst(s, x) <==> y in s {
      RemoveFirstKeepsOthers(s, x, y);
    }
  }

  /** Toggling flips the membership of `x` and leaves every other element's
      membership alone, and a list without duplicates never gains one. */
  lemma ToggleFlips<T>(s: seq<T>, x: T)
    requires NoDup(s)
    ensures x in Toggled(s, x) <==> x !in s
    ensures forall y :: y != x ==> (y in Toggled(s, x) <==> y in s)
    ensures NoDup(Toggled(s, x))
  {
    if x in s {
      RemoveFirstNoDup(s, x);
    }
  }

  /** Toggling an absent element twice restores the list exactly
      (append, then remove that last occurrence). */
  lemma ToggleTwiceAbsent<T>(s: seq<T>, x: T)
    requires x !in s
    ensures Toggled(Toggled(s, x), x) == s
  {
    var t := s + [x];
    assert IndexOf(t, x) == |s| by {
      assert t[|s|] == x;
    }
    assert t[..|s|] == s;
  }

  /** Toggling a present element twice in a list without duplicates gives the
      same elements back, but the element moves to the end of the list: the
      list is restored as a set, not as a sequence. */
  lemma ToggleTwicePresent<T>(s: seq<T>, x: T)
    requires x in s && NoDup(s)
    ensures Toggled(Toggled(s, x), x) == RemoveFirst(s, x) + [x]
    ensures multiset(Toggled(Toggled(s, x), x)) == multiset(s)
  {
    RemoveFirstNoDup(s, x);
  }

  /** For a list without duplicates, a double toggle is the identity on the set
      of elements. */
  lemma ToggleTwiceSameElements<T>(s: seq<T>, x: T)
    requires NoDup(s)
    ensures multiset(Toggled(Toggled(s, x), x)) == multiset(s)
  {
    if x in s {
      ToggleTwicePresent(s, x);
    } else {
      ToggleTwiceAbsent(s, x);
    }
  }
}
