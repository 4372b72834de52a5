/** Options, results and the few sequence operations every module below shares. */
module Seqs {

  datatype Option<+T> = None | Some(value: T)

  ghost predicate NoDup<T>(s: seq<T>) {
    forall i, j | 0 <= i < j < |s| :: s[i] != s[j]
  }

  function Elems<T(==)>(s: seq<T>): set<T> {
    set x | x in s
  }

  // Python's list.remove: the first occurrence only.
  function Remove<T(==)>(s: seq<T>, x: T): seq<T> {
    if s == [] then []
    else if s[0] == x then s[1..]
    else [s[0]] + Remove(s[1..], x)
  }

  // [x for x in s if x in keep]
  function Select<T(==)>(s: seq<T>, keep: set<T>): seq<T> {
    if s == [] then []
    else (if s[0] in keep then [s[0]] else []) + Select(s[1..], keep)
  }

  lemma {:induction false} SelectConcat<T>(s: seq<T>, t: seq<T>, keep: set<T>)
    ensures Select(s + t, keep) == Select(s, keep) + Select(t, keep)
  {
    if s == [] {
      assert s + t == t;
    } else {
      SelectConcat(s[1..], t, keep);
      assert (s + t)[1..] == s[1..] + t;
      var head := if s[0] in keep then [s[0]] else [];
      assert head + (Select(s[1..], keep) + Select(t, keep)) == (head + Select(s[1..], keep)) + Select(t, keep);
    }
  }

  lemma {:induction false} SelectMembers<T>(s: seq<T>, keep: set<T>)
    ensures forall x :: x in Select(s, keep) <==> x in s && x in keep
    ensures |Select(s, keep)| <= |s|
  {
    if s != [] {
      SelectMembers(s[1..], keep);
      assert s == [s[0]] + s[1..];
    }
  }

  lemma {:induction false} SelectNoDup<T>(s: seq<T>, keep: set<T>)
    requires NoDup(s)
    ensures NoDup(Select(s, keep))
  {
    if s != [] {
      SelectNoDup(s[1..], keep);
      SelectMembers(s[1..], keep);
    }
  }

  // Selecting depends only on which members of s are kept.
  lemma {:induction false} SelectAgree<T>(s: seq<T>, keep: set<T>, also: set<T>)
    requires forall x | x in s :: x in keep <==> x in also
    ensures Select(s, keep) == Select(s, also)
  {
    if s != [] {
      SelectAgree(s[1..], keep, also);
    }
  }

  lemma {:induction false} SelectAll<T>(s: seq<T>, keep: set<T>)
    requires forall x | x in s :: x in keep
    ensures Select(s, keep) == s
  {
    if s != [] {
      SelectAll(s[1..], keep);
    }
  }

  lemma {:induction false} SelectNone<T>(s: seq<T>, keep: set<T>)
    requires forall x | x in s :: x !in keep
    ensures Select(s, keep) == []
  {
    if s != [] {
      SelectNone(s[1..], keep);
    }
  }

  lemma {:induction false} SelectSelect<T>(s: seq<T>, first: set<T>, second: set<T>)
    ensures Select(Select(s, first), second) == Select(s, first * second)
  {
    if s != [] {
      SelectSelect(s[1..], first, second);
      SelectConcat(if s[0] in first then [s[0]] else [], Select(s[1..], first), second);
    }
  }

  // Removing x from a duplicate-free list is selecting everything else.
  lemma {:induction false} RemoveIsSelect<T>(s: seq<T>, x: T)
    requires NoDup(s)
    ensures Remove(s, x) == Select(s, Elems(s) - {x})
  {
    if s != [] {
      var rest := s[1..];
      assert s == [s[0]] + rest;
      if s[0] == x {
        assert x !in rest;
        SelectAgree(rest, Elems(s) - {x}, Elems(rest));
        SelectAll(rest, Elems(rest));
      } else {
        RemoveIsSelect(rest, x);
        SelectAgree(rest, Elems(s) - {x}, Elems(rest) - {x});
      }
    }
  }

  lemma RemoveFacts<T>(s: seq<T>, x: T)
    requires NoDup(s)
    ensures NoDup(Remove(s, x))
    ensures forall y :: y in Remove(s, x) <==> y in s && y != x
  {
    RemoveIsSelect(s, x);
    SelectNoDup(s, Elems(s) - {x});
    SelectMembers(s, Elems(s) - {x});
  }

  // Selecting from an order with x put in at `at`, of which the front is
  // dropped and the back kept.
  lemma SelectInserted<T>(front: seq<T>, back: seq<T>, at: nat, x: T, keep: set<T>)
    requires at <= |back| && x in keep
    requires (forall y | y in front :: y !in keep) && forall y | y in back :: y in keep
    ensures Select(front + back[..at] + [x] + back[at..], keep) == back[..at] + [x] + back[at..]
  {
    assert back == back[..at] + back[at..];
    SelectConcat(front + back[..at] + [x], back[at..], keep);
    SelectConcat(front + back[..at], [x], keep);
    SelectConcat(front, back[..at], keep);
    SelectNone(front, keep);
    SelectAll(back[..at], keep);
    SelectAll(back[at..], keep);
  }

  // And with the front kept and the rest dropped.
  lemma SelectFront<T>(front: seq<T>, back: seq<T>, at: nat, x: T, keep: set<T>)
    requires at <= |back| && x !in keep
    requires (forall y | y in front :: y in keep) && forall y | y in back :: y !in keep
    ensures Select(front + back[..at] + [x] + back[at..], keep) == front
  {
    assert back == back[..at] + back[at..];
    SelectConcat(front + back[..at] + [x], back[at..], keep);
    SelectConcat(front + back[..at], [x], keep);
    SelectConcat(front, back[..at], keep);
    SelectAll(front, keep);
    SelectNone(back[..at], keep);
    SelectNone(back[at..], keep);
  }

  lemma SelectRemove<T>(s: seq<T>, gone: set<T>, x: T)
    requires NoDup(s)
    ensures Remove(Select(s, Elems(s) - gone), x) == Select(s, Elems(s) - (gone + {x}))
  {
    var kept := Select(s, Elems(s) - gone);
    SelectNoDup(s, Elems(s) - gone);
    SelectMembers(s, Elems(s) - gone);
    RemoveIsSelect(kept, x);
    SelectSelect(s, Elems(s) - gone, Elems(kept) - {x});
    SelectAgree(s, (Elems(s) - gone) * (Elems(kept) - {x}), Elems(s) - (gone + {x}));
  }

  lemma NoDupConcat<T>(s: seq<T>, t: seq<T>)
    requires NoDup(s) && NoDup(t)
    requires forall x | x in s :: x !in t
    ensures NoDup(s + t)
  {
    forall i, j | 0 <= i < j < |s + t| ensures (s + t)[i] != (s + t)[j] {
      if i < |s| <= j {
        assert s[i] in s && t[j - |s|] in t;
      }
    }
  }

  // Putting x anywhere into a duplicate-free list without it.
  lemma InsertNoDup<T>(s: seq<T>, at: nat, x: T)
    requires NoDup(s) && at <= |s| && x !in s
    ensures NoDup(s[..at] + [x] + s[at..])
    ensures forall y :: y in s[..at] + [x] + s[at..] <==> y in s || y == x
  {
    NoDupConcat(s[..at], [x]);
    NoDupConcat(s[..at] + [x], s[at..]);
    assert s == s[..at] + s[at..];
  }

  lemma {:induction false} SelectAt<T>(s: seq<T>, keep: set<T>, j: nat) returns (b: nat)
    requires j < |Select(s, keep)|
    ensures b < |s| && s[b] == Select(s, keep)[j]
  {
    if s[0] in keep && j == 0 {
      b := 0;
    } else {
      var at := SelectAt(s[1..], keep, if s[0] in keep then j - 1 else j);
      b := at + 1;
    }
  }

  // What is kept keeps its order.
  lemma {:induction false} SelectKeepsOrder<T>(s: seq<T>, keep: set<T>, i: nat, j: nat) returns (a: nat, b: nat)
    requires i < j < |Select(s, keep)|
    ensures a < b < |s| && s[a] == Select(s, keep)[i] && s[b] == Select(s, keep)[j]
  {
    if s[0] in keep && i == 0 {
      b := SelectAt(s[1..], keep, j - 1);
      a, b := 0, b + 1;
    } else {
      var d := if s[0] in keep then 1 else 0;
      a, b := SelectKeepsOrder(s[1..], keep, i - d, j - d);
      a, b := a + 1, b + 1;
    }
  }

  // No duplicates, counted.
  lemma {:induction false} NoDupCount<T>(s: seq<T>, x: T)
    requires NoDup(s)
    ensures multiset(s)[x] <= 1
  {
    if s != [] {
      var last := |s| - 1;
      assert s == s[..last] + [s[last]];
      NoDupCount(s[..last], x);
      if s[last] == x {
        assert x !in s[..last];
        assert multiset(s[..last])[x] == 0;
      }
    }
  }
}
