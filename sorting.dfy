/** The two library algorithms the serialisers run on a feature slice before printing it:
    Go's `sort.Sort` (unstable, ordering by a key) and `set.Uniq` from github.com/xtgo/set
    (on sorted data, moves the first element of every run of equal keys to the front and
    returns how many there are). Both work in place on the slice's backing array. */
module Sorting {

  ghost predicate SortedBy<T>(s: seq<T>, key: T -> int)
  {
    forall i, j :: 0 <= i < j < |s| ==> key(s[i]) <= key(s[j])
  }

  ghost predicate StrictlyIncreasing<T>(s: seq<T>, key: T -> int)
  {
    forall i, j :: 0 <= i < j < |s| ==> key(s[i]) < key(s[j])
  }

  /** The keys (feature ids) occurring in `s`. */
  ghost function Keys<T>(s: seq<T>, key: T -> int): set<int>
  {
    set x | x in s :: key(x)
  }

  /** What the serialisers promise of the features they print: ids strictly ascending, every
      input id present, and every printed feature one of the input features (so its score is the
      score of SOME input feature with that id; which one is not fixed, as the sort is unstable). */
  ghost predicate Deduplicated<T>(input: seq<T>, out: seq<T>, key: T -> int)
  {
    && StrictlyIncreasing(out, key)
    && Keys(out, key) == Keys(input, key)
    && multiset(out) <= multiset(input)
  }

  /** sort.Sort: afterwards the array is ordered by key and holds the same elements. No promise
      is made about the relative order of elements with equal keys. */
  method SortBy<T>(a: array<T>, key: T -> int)
    modifies a
    ensures SortedBy(a[..], key)
    ensures multiset(a[..]) == multiset(old(a[..]))
  {
    var i := 0;
    while i < a.Length
      invariant 0 <= i <= a.Length
      invariant SortedBy(a[..i], key)
      invariant forall x, y :: 0 <= x < i <= y < a.Length ==> key(a[x]) <= key(a[y])
      invariant multiset(a[..]) == multiset(old(a[..]))
    {
      var m := MinIndex(a, i, key);
      Swap(a, i, m);
      i := i + 1;
    }
    assert a[..a.Length] == a[..];
  }

  /** Exchanges two elements (Swap of sort.Interface). */
  method Swap<T>(a: array<T>, i: nat, j: nat)
    requires i < a.Length && j < a.Length
    modifies a
    ensures a[i] == old(a[j]) && a[j] == old(a[i])
    ensures forall k :: 0 <= k < a.Length && k != i && k != j ==> a[k] == old(a[k])
    ensures multiset(a[..]) == multiset(old(a[..]))
  {
    a[i], a[j] := a[j], a[i];
  }

  /** The position of a smallest key in `a[from..]`. */
  method MinIndex<T>(a: array<T>, from: nat, key: T -> int) returns (m: nat)
    requires from < a.Length
    ensures from <= m < a.Length
    ensures forall y :: from <= y < a.Length ==> key(a[m]) <= key(a[y])
  {
    m := from;
    var k := from + 1;
    while k < a.Length
      invariant from <= m < k <= a.Length
      invariant forall y :: from <= y < k ==> key(a[m]) <= key(a[y])
    {
      if key(a[k]) < key(a[m]) {
        m := k;
      }
      k := k + 1;
    }
  }

  /** The elements set.Uniq keeps, in order: the first element of every run of equal keys. */
  function Dedup<T>(s: seq<T>, key: T -> int): seq<T>
    decreases |s|
  {
    if s == [] then []
    else
      var d := Dedup(s[..|s| - 1], key);
      if d != [] && key(d[|d| - 1]) == key(s[|s| - 1]) then d else d + [s[|s| - 1]]
  }

  /** A sequence of at most one element has nothing to drop. */
  lemma DedupShort<T>(s: seq<T>, key: T -> int)
    requires |s| <= 1
    ensures Dedup(s, key) == s
  {
    if |s| == 1 {
      assert s[..0] == [];
      assert s == [] + [s[0]];
    }
  }

  lemma {:induction false} DedupLast<T>(s: seq<T>, key: T -> int)
    requires s != []
    ensures Dedup(s, key) != [] && key(Dedup(s, key)[|Dedup(s, key)| - 1]) == key(s[|s| - 1])
  {
  }

  /** Dedup keeps only input elements, each at most as often as it occurs. */
  lemma {:induction false} DedupSubMultiset<T>(s: seq<T>, key: T -> int)
    ensures multiset(Dedup(s, key)) <= multiset(s)
    decreases |s|
  {
    if s != [] {
      var init := s[..|s| - 1];
      DedupSubMultiset(init, key);
      assert s == init + [s[|s| - 1]];
      assert multiset(s) == multiset(init) + multiset{s[|s| - 1]};
    }
  }

  /** Dedup drops no key. */
  lemma {:induction false} DedupKeys<T>(s: seq<T>, key: T -> int)
    ensures Keys(Dedup(s, key), key) == Keys(s, key)
    decreases |s|
  {
    if s != [] {
      var init := s[..|s| - 1];
      var last := s[|s| - 1];
      DedupKeys(init, key);
      var d := Dedup(init, key);
      assert s == init + [last];
      assert Keys(s, key) == Keys(init, key) + {key(last)};
      if d != [] && key(d[|d| - 1]) == key(last) {
        assert key(last) in Keys(d, key);
      } else {
        assert Keys(d + [last], key) == Keys(d, key) + {key(last)};
      }
    }
  }

  /** On sorted input, the keys Dedup keeps are strictly ascending. */
  lemma {:induction false} DedupStrict<T>(s: seq<T>, key: T -> int)
    requires SortedBy(s, key)
    ensures StrictlyIncreasing(Dedup(s, key), key)
    decreases |s|
  {
    if s != [] {
      var init := s[..|s| - 1];
      var last := s[|s| - 1];
      assert SortedBy(init, key);
      DedupStrict(init, key);
      var d := Dedup(init, key);
      if !(d != [] && key(d[|d| - 1]) == key(last)) {
        if init != [] {
          DedupLast(init, key);
          assert key(d[|d| - 1]) < key(last);
        }
        var d' := d + [last];
        forall x, y | 0 <= x < y < |d'|
          ensures key(d'[x]) < key(d'[y])
        {
          if y == |d'| - 1 && x < |d| - 1 {
            assert key(d[x]) < key(d[|d| - 1]);
          }
        }
      }
    }
  }

  /** On sorted input, Dedup keeps every key exactly once and only input elements. */
  lemma DedupDeduplicates<T>(s: seq<T>, key: T -> int)
    requires SortedBy(s, key)
    ensures Deduplicated(s, Dedup(s, key), key)
  {
    DedupSubMultiset(s, key);
    DedupKeys(s, key);
    DedupStrict(s, key);
  }

  /** One more element of sorted input: Dedup keeps it exactly when its key is new. */
  lemma DedupStep<T>(s: seq<T>, i: nat, key: T -> int)
    requires SortedBy(s, key) && 0 < i < |s|
    ensures Dedup(s[..i], key) != []
    ensures key(Dedup(s[..i], key)[|Dedup(s[..i], key)| - 1]) == key(s[i - 1]) <= key(s[i])
    ensures Dedup(s[..i + 1], key) ==
      if key(s[i - 1]) == key(s[i]) then Dedup(s[..i], key) else Dedup(s[..i], key) + [s[i]]
  {
    assert s[..i + 1][..i] == s[..i];
    DedupLast(s[..i], key);
  }

  /** set.Uniq: swaps the first element of each run of equal keys to the front and returns their
      number. The rest of the array keeps the discarded duplicates. */
  method Uniq<T>(a: array<T>, key: T -> int) returns (size: nat)
    requires SortedBy(a[..], key)
    modifies a
    ensures size <= a.Length
    ensures a[..size] == Dedup(old(a[..]), key)
    ensures multiset(a[..]) == multiset(old(a[..]))
  {
    ghost var s := a[..];
    var l := a.Length;
    if l <= 1 {
      DedupShort(s, key);
      assert a[..l] == s;
      return l;
    }
    var p := 0;
    UniqFirst(s, key);
    var i := 1;
    while i < l
      invariant 1 <= i <= l
      invariant 0 <= p < i
      invariant a[..p + 1] == Dedup(s[..i], key)
      invariant a[i..] == s[i..]
      invariant multiset(a[..]) == multiset(s)
    {
      p := UniqStep(a, key, s, i, p);
      i := i + 1;
    }
    assert s[..l] == s;
    size := p + 1;
  }

  lemma UniqFirst<T>(s: seq<T>, key: T -> int)
    requires |s| > 1
    ensures s[..1] == Dedup(s[..1], key)
  {
    DedupShort(s[..1], key);
  }

  /** One iteration of set.Uniq: when `a[i]`'s key exceeds the last kept one, it becomes the next
      kept element, swapped into place. */
  method UniqStep<T>(a: array<T>, key: T -> int, ghost s: seq<T>, i: nat, p: nat) returns (p': nat)
    requires SortedBy(s, key) && |s| == a.Length && 0 <= p < i < a.Length
    requires a[..p + 1] == Dedup(s[..i], key)
    requires a[i..] == s[i..]
    modifies a
    ensures p' <= i
    ensures a[..p' + 1] == Dedup(s[..i + 1], key)
    ensures a[i + 1..] == s[i + 1..]
    ensures multiset(a[..]) == multiset(old(a[..]))
  {
    assert a[i] == s[i];
    DedupStep(s, i, key);
    ghost var kept := a[..p + 1];
    assert a[p] == kept[p];
    ghost var before := a[..];
    assert before[i + 1..] == s[i + 1..];
    p' := p;
    if key(a[p]) < key(a[i]) {
      p' := p + 1;
      if p' < i {
        Swap(a, p', i);
      }
      assert a[..p' + 1] == kept + [s[i]];
    }
    assert a[i + 1..] == before[i + 1..];
  }

  /** Sorting then keeping the first of every run yields a deduplicated vector of the input. */
  lemma SortedDedupIsDeduplicated<T>(input: seq<T>, sorted: seq<T>, key: T -> int)
    requires SortedBy(sorted, key) && multiset(sorted) == multiset(input)
    ensures Deduplicated(input, Dedup(sorted, key), key)
  {
    DedupDeduplicates(sorted, key);
    assert forall x :: x in sorted <==> x in input by {
      forall x ensures x in sorted <==> x in input {
        assert x in sorted <==> x in multiset(sorted);
        assert x in input <==> x in multiset(input);
      }
    }
    assert Keys(sorted, key) == Keys(input, key);
  }

  /** `sort.Sort(ff); size := set.Uniq(ff)`, the preparation both LIBSVM writers and
      Features.String run: afterwards `a[..size]` is a deduplicated vector of the input. */
  method SortUnique<T>(a: array<T>, key: T -> int) returns (size: nat)
    modifies a
    ensures size <= a.Length
    ensures Deduplicated(old(a[..]), a[..size], key)
    ensures multiset(a[..]) == multiset(old(a[..]))
  {
    SortBy(a, key);
    ghost var sorted := a[..];
    size := Uniq(a, key);
    SortedDedupIsDeduplicated(old(a[..]), sorted, key);
  }

  /** Every input id is printed exactly once. */
  lemma EveryIdExactlyOnce<T>(input: seq<T>, out: seq<T>, key: T -> int, x: T)
    requires Deduplicated(input, out, key) && x in input
    ensures exists k :: 0 <= k < |out| && key(out[k]) == key(x)
    ensures forall k1, k2 :: 0 <= k1 < |out| && 0 <= k2 < |out| && key(out[k1]) == key(x) && key(out[k2]) == key(x) ==> k1 == k2
  {
    assert key(x) in Keys(input, key);
    assert key(x) in Keys(out, key);
    var y :| y in out && key(y) == key(x);
    var k :| 0 <= k < |out| && out[k] == y;
  }

  /** Strictly increasing sequences with the same key set have the same key at every position. */
  lemma {:induction false} StrictSameKeys<T>(s1: seq<T>, s2: seq<T>, key: T -> int)
    requires StrictlyIncreasing(s1, key) && StrictlyIncreasing(s2, key)
    requires Keys(s1, key) == Keys(s2, key)
    ensures |s1| == |s2| && forall k :: 0 <= k < |s1| ==> key(s1[k]) == key(s2[k])
    decreases |s1|
  {
    if s1 != [] {
      assert key(s1[0]) in Keys(s1, key);
    }
    if s2 != [] {
      assert key(s2[0]) in Keys(s2, key);
    }
    if s1 != [] && s2 != [] {
      assert key(s1[0]) in Keys(s2, key);
      var j :| 0 <= j < |s2| && key(s2[j]) == key(s1[0]);
      assert key(s2[0]) in Keys(s1, key);
      var i :| 0 <= i < |s1| && key(s1[i]) == key(s2[0]);
      assert key(s1[0]) == key(s2[0]);
      var t1, t2 := s1[1..], s2[1..];
      assert Keys(t1, key) == Keys(s1, key) - {key(s1[0])} by {
        forall v ensures v in Keys(t1, key) <==> v in Keys(s1, key) - {key(s1[0])} {
          if v in Keys(s1, key) - {key(s1[0])} {
            var k :| 0 <= k < |s1| && key(s1[k]) == v;
            assert k != 0 && t1[k - 1] == s1[k];
          }
        }
      }
      assert Keys(t2, key) == Keys(s2, key) - {key(s2[0])} by {
        forall v ensures v in Keys(t2, key) <==> v in Keys(s2, key) - {key(s2[0])} {
          if v in Keys(s2, key) - {key(s2[0])} {
            var k :| 0 <= k < |s2| && key(s2[k]) == v;
            assert k != 0 && t2[k - 1] == s2[k];
          }
        }
      }
      StrictSameKeys(t1, t2, key);
      forall k | 0 <= k < |s1| ensures key(s1[k]) == key(s2[k]) {
        if k > 0 {
          assert s1[k] == t1[k - 1] && s2[k] == t2[k - 1];
        }
      }
    }
  }

  /** Which ids are printed, and in which order, does not depend on the unstable sort. */
  lemma DeduplicatedIdsDetermined<T>(input: seq<T>, o1: seq<T>, o2: seq<T>, key: T -> int)
    requires Deduplicated(input, o1, key) && Deduplicated(input, o2, key)
    ensures |o1| == |o2| && forall k :: 0 <= k < |o1| ==> key(o1[k]) == key(o2[k])
  {
    StrictSameKeys(o1, o2, key);
  }

  /** When no id is repeated in the input, the printed features are fully determined. */
  lemma DeduplicatedOfDistinct<T>(input: seq<T>, o1: seq<T>, o2: seq<T>, key: T -> int)
    requires forall i, j :: 0 <= i < |input| && 0 <= j < |input| && key(input[i]) == key(input[j]) ==> i == j
    requires Deduplicated(input, o1, key) && Deduplicated(input, o2, key)
    ensures o1 == o2
  {
    StrictSameKeys(o1, o2, key);
    forall k | 0 <= k < |o1| ensures o1[k] == o2[k] {
      assert o1[k] in multiset(o1) && o2[k] in multiset(o2);
      assert o1[k] in input && o2[k] in input;
      var i :| 0 <= i < |input| && input[i] == o1[k];
      var j :| 0 <= j < |input| && input[j] == o2[k];
    }
  }

  /** An input in which no id repeats holds no element twice. */
  lemma DistinctKeysCountOnce<T>(input: seq<T>, key: T -> int, p: nat)
    requires forall i, j :: 0 <= i < |input| && 0 <= j < |input| && key(input[i]) == key(input[j]) ==> i == j
    requires p < |input|
    ensures multiset(input)[input[p]] == 1
  {
    assert input == input[..p] + [input[p]] + input[p + 1..];
    assert input[p] !in input[..p];
    assert input[p] !in input[p + 1..];
  }

  lemma TwiceCountsTwice<T>(s: seq<T>, i: nat, j: nat)
    requires i < j < |s| && s[i] == s[j]
    ensures multiset(s)[s[i]] >= 2
  {
    assert s == s[..j] + s[j..];
    assert s[i] in s[..j] && s[j] in s[j..];
  }

  /** A sorted permutation of an input without repeated ids is already strictly increasing. */
  lemma SortedOfDistinctIsDeduplicated<T>(input: seq<T>, sorted: seq<T>, key: T -> int)
    requires forall i, j :: 0 <= i < |input| && 0 <= j < |input| && key(input[i]) == key(input[j]) ==> i == j
    requires SortedBy(sorted, key) && multiset(sorted) == multiset(input)
    ensures Deduplicated(input, sorted, key)
  {
    assert forall x :: x in sorted <==> x in input by {
      forall x ensures x in sorted <==> x in input {
        assert x in sorted <==> x in multiset(sorted);
        assert x in input <==> x in multiset(input);
      }
    }
    assert Keys(sorted, key) == Keys(input, key);
    forall i, j | 0 <= i < j < |sorted| ensures key(sorted[i]) < key(sorted[j]) {
      if key(sorted[i]) == key(sorted[j]) {
        assert sorted[i] in multiset(input) && sorted[j] in multiset(input);
        var p :| 0 <= p < |input| && input[p] == sorted[i];
        var q :| 0 <= q < |input| && input[q] == sorted[j];
        assert p == q;
        DistinctKeysCountOnce(input, key, p);
        TwiceCountsTwice(sorted, i, j);
        assert false;
      }
    }
  }

  /** When no id repeats, an unstable sort has only one possible outcome. */
  lemma SortedOfDistinctUnique<T>(input: seq<T>, s1: seq<T>, s2: seq<T>, key: T -> int)
    requires forall i, j :: 0 <= i < |input| && 0 <= j < |input| && key(input[i]) == key(input[j]) ==> i == j
    requires SortedBy(s1, key) && multiset(s1) == multiset(input)
    requires SortedBy(s2, key) && multiset(s2) == multiset(input)
    ensures s1 == s2
  {
    SortedOfDistinctIsDeduplicated(input, s1, key);
    SortedOfDistinctIsDeduplicated(input, s2, key);
    DeduplicatedOfDistinct(input, s1, s2, key);
  }
}
