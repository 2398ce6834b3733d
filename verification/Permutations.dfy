// Mapping a permutation, or a part, of some items.
module Permutations {
  function Map<T, U>(f: T -> U, items: seq<T>): (r: seq<U>)
    ensures |r| == |items|
  {
    seq(|items|, i requires 0 <= i < |items| => f(items[i]))
  }

  lemma MapSplit<T, U>(f: T -> U, before: seq<T>, item: T, after: seq<T>)
    ensures multiset(Map(f, before + [item] + after)) == multiset(Map(f, before + after)) + multiset{f(item)}
  {
    assert Map(f, before + [item] + after) == Map(f, before) + [f(item)] + Map(f, after);
    assert Map(f, before + after) == Map(f, before) + Map(f, after);
  }

  lemma Locate<T>(items: seq<T>, item: T) returns (before: seq<T>, after: seq<T>)
    requires item in multiset(items)
    ensures items == before + [item] + after
  {
    var i :| 0 <= i < |items| && items[i] == item;
    before, after := items[..i], items[i + 1..];
  }

  lemma DropFirst<T>(item: T, rest: seq<T>, before: seq<T>, after: seq<T>)
    requires multiset([item] + rest) <= multiset(before + [item] + after)
    ensures multiset(rest) <= multiset(before + after)
  {
    assert multiset([item] + rest) == multiset{item} + multiset(rest);
    assert multiset(before + [item] + after) == multiset(before) + multiset{item} + multiset(after);
    assert multiset(rest) == multiset([item] + rest) - multiset{item};
  }

  // Mapping part of some items gives part of what mapping all of them gives.
  lemma {:induction false} MapOfPart<T, U>(f: T -> U, a: seq<T>, b: seq<T>)
    requires multiset(a) <= multiset(b)
    ensures multiset(Map(f, a)) <= multiset(Map(f, b))
    decreases |a|
  {
    if a != [] {
      var item, rest := a[0], a[1..];
      assert a == [item] + rest;
      assert item in multiset(a);
      var before, after := Locate(b, item);
      DropFirst(item, rest, before, after);
      MapOfPart(f, rest, before + after);
      MapSplit(f, before, item, after);
      assert Map(f, a) == [f(item)] + Map(f, rest);
    }
  }

  lemma MapPermutes<T, U>(f: T -> U, a: seq<T>, b: seq<T>)
    requires multiset(a) == multiset(b)
    ensures multiset(Map(f, a)) == multiset(Map(f, b))
  {
    MapOfPart(f, a, b);
    MapOfPart(f, b, a);
  }
}
