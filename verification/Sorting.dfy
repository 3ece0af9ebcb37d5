/** Ascending order, as the seat lists of every multi-row statement are put in. */
module Sorting {

  predicate Ascending(s: seq<int>) {
    forall i, j | 0 <= i < j < |s| :: s[i] <= s[j]
  }

  predicate StrictlyAscending(s: seq<int>) {
    forall i, j | 0 <= i < j < |s| :: s[i] < s[j]
  }

  function Inserted<T>(x: T, s: seq<T>, key: T -> int): (r: seq<T>)
    ensures |r| == |s| + 1
  {
    if s == [] then [x]
    else if key(x) <= key(s[0]) then [x] + s
    else [s[0]] + Inserted(x, s[1..], key)
  }

  /** Sorted by key, equal keys in their original order. */
  function SortedBy<T>(s: seq<T>, key: T -> int): (r: seq<T>)
    ensures |r| == |s|
  {
    if s == [] then [] else Inserted(s[0], SortedBy(s[1..], key), key)
  }

  predicate AscendingBy<T>(s: seq<T>, key: T -> int) {
    forall i, j | 0 <= i < j < |s| :: key(s[i]) <= key(s[j])
  }

  lemma {:induction false} InsertedKeeps<T>(x: T, s: seq<T>, key: T -> int)
    ensures multiset(Inserted(x, s, key)) == multiset(s) + multiset{x}
  {
    if s != [] && key(x) > key(s[0]) {
      InsertedKeeps(x, s[1..], key);
      assert s == [s[0]] + s[1..];
    }
  }

  lemma {:induction false} InsertedAbove<T>(x: T, s: seq<T>, key: T -> int, lo: int)
    requires lo <= key(x) && forall i | 0 <= i < |s| :: lo <= key(s[i])
    ensures forall i | 0 <= i <= |s| :: lo <= key(Inserted(x, s, key)[i])
  {
    if s != [] && key(x) > key(s[0]) { InsertedAbove(x, s[1..], key, lo); }
  }

  lemma {:induction false} InsertedAscends<T>(x: T, s: seq<T>, key: T -> int)
    requires AscendingBy(s, key)
    ensures AscendingBy(Inserted(x, s, key), key)
  {
    if s != [] && key(x) > key(s[0]) {
      InsertedAscends(x, s[1..], key);
      InsertedAbove(x, s[1..], key, key(s[0]));
    }
  }

  lemma {:induction false} SortedBySound<T>(s: seq<T>, key: T -> int)
    ensures AscendingBy(SortedBy(s, key), key)
    ensures multiset(SortedBy(s, key)) == multiset(s)
  {
    if s != [] {
      SortedBySound(s[1..], key);
      InsertedKeeps(s[0], SortedBy(s[1..], key), key);
      InsertedAscends(s[0], SortedBy(s[1..], key), key);
      assert s == [s[0]] + s[1..];
    }
  }

  function Self(x: int): int { x }

  function Sorted(s: seq<int>): (r: seq<int>)
    ensures |r| == |s|
  {
    SortedBy(s, Self)
  }

  lemma SortedSound(s: seq<int>)
    ensures Ascending(Sorted(s)) && multiset(Sorted(s)) == multiset(s)
    ensures forall x :: x in Sorted(s) <==> x in s
  {
    SortedBySound(s, Self);
    forall i, j | 0 <= i < j < |s| ensures Sorted(s)[i] <= Sorted(s)[j] {
      assert Self(Sorted(s)[i]) <= Self(Sorted(s)[j]);
    }
    forall x ensures x in Sorted(s) <==> x in s {
      assert x in Sorted(s) <==> x in multiset(Sorted(s));
      assert x in s <==> x in multiset(s);
    }
  }

  lemma SomeMember(s: seq<int>) returns (x: int)
    requires s != []
    ensures x in s
  {
    x := s[0];
  }

  /** There is one strictly ascending list of the same values. */
  lemma {:induction false} AscendingUnique(a: seq<int>, b: seq<int>)
    requires StrictlyAscending(a) && StrictlyAscending(b) && forall x :: x in a <==> x in b
    ensures a == b
  {
    if a == [] {
      if b != [] {
        var x := SomeMember(b);
        assert false;
      }
    } else {
      var m, n := |a| - 1, |b| - 1;
      assert a[m] in b && b != [] && b[n] in a;
      assert a[m] == b[n];
      forall x ensures x in a[..m] <==> x in b[..n] {
        if x in a[..m] { assert x in b && x != b[n]; }
        if x in b[..n] { assert x in a && x != a[m]; }
      }
      AscendingUnique(a[..m], b[..n]);
      assert a == a[..m] + [a[m]] && b == b[..n] + [b[n]];
    }
  }

  /** One of each value of an ascending list, the list compacted in place. */
  function Compacted(s: seq<int>): (r: seq<int>)
    ensures |r| <= |s|
  {
    if s == [] then []
    else
      var init, last := Compacted(s[..|s| - 1]), s[|s| - 1];
      if init != [] && init[|init| - 1] == last then init else init + [last]
  }

  lemma CompactedSnoc(s: seq<int>, x: int)
    ensures Compacted(s + [x]) == if Compacted(s) != []
        && Compacted(s)[|Compacted(s)| - 1] == x then Compacted(s) else Compacted(s) + [x]
  {
    var t := s + [x];
    assert t[..|t| - 1] == s && t[|t| - 1] == x;
  }

  lemma {:induction false} CompactedKeeps(s: seq<int>)
    ensures forall x :: x in Compacted(s) <==> x in s
    ensures s != [] ==> Compacted(s) != [] && Compacted(s)[|Compacted(s)| - 1] == s[|s| - 1]
  {
    if s != [] {
      CompactedKeeps(s[..|s| - 1]);
      assert s == s[..|s| - 1] + [s[|s| - 1]];
    }
  }

  lemma AscendsSnoc(s: seq<int>, x: int)
    requires StrictlyAscending(s) && (s != [] ==> s[|s| - 1] < x)
    ensures StrictlyAscending(s + [x])
  {
    forall i, j | 0 <= i < j < |s + [x]| ensures (s + [x])[i] < (s + [x])[j] {
      if j == |s| && i < |s| - 1 { assert s[i] < s[|s| - 1]; }
    }
  }

  /** Of an ascending list whose last element is not above the one before, compaction drops one. */
  lemma AscendsInit(s: seq<int>)
    requires s != [] && Ascending(s)
    ensures Ascending(s[..|s| - 1])
    ensures StrictlyAscending(s) <==> StrictlyAscending(s[..|s| - 1]) && (|s| > 1 ==> s[|s| - 2] < s[|s| - 1])
  {
    var init := s[..|s| - 1];
    if StrictlyAscending(init) && (|s| > 1 ==> s[|s| - 2] < s[|s| - 1]) {
      AscendsSnoc(init, s[|s| - 1]);
      assert s == init + [s[|s| - 1]];
    }
  }

  lemma {:induction false} CompactedAscends(s: seq<int>)
    requires Ascending(s)
    ensures StrictlyAscending(Compacted(s))
    ensures |Compacted(s)| == |s| <==> StrictlyAscending(s)
  {
    if s != [] {
      var init, last := s[..|s| - 1], s[|s| - 1];
      AscendsInit(s);
      CompactedAscends(init);
      CompactedKeeps(init);
      var r := Compacted(init);
      if r == [] || r[|r| - 1] != last {
        assert r != [] ==> r[|r| - 1] == init[|init| - 1] <= last;
        AscendsSnoc(r, last);
      }
    }
  }
}
