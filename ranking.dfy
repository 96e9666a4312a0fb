/** `Object.entries(m).sort(([, a], [, b]) => b - a)`: the entries of a count map
    ordered by descending count. `Array.prototype.sort` is stable, so entries with
    equal counts keep their insertion order; the model is a stable insertion sort. */
module Ranking {
  import opened Counts

  predicate NonIncreasing(c: Counts) {
    forall i, j :: 0 <= i < j < |c| ==> c[i].count >= c[j].count
  }

  /** The entries of `c` whose count is `n`, in their order in `c`. */
  function WithCount(c: Counts, n: nat): Counts {
    if c == [] then [] else (if c[0].count == n then [c[0]] else []) + WithCount(c[1..], n)
  }

  /** `x` placed in front of the first entry of `t` whose count is not larger. */
  function Insert(x: Entry, t: Counts): (r: Counts)
    ensures multiset(r) == multiset(t) + multiset{x}
  {
    if t == [] || t[0].count <= x.count then [x] + t
    else
      assert t == [t[0]] + t[1..];
      [t[0]] + Insert(x, t[1..])
  }

  lemma {:induction false} InsertKeepsOrder(x: Entry, t: Counts)
    requires NonIncreasing(t)
    ensures NonIncreasing(Insert(x, t))
  {
    if t != [] && t[0].count > x.count {
      var rest := Insert(x, t[1..]);
      InsertKeepsOrder(x, t[1..]);
      var r := [t[0]] + rest;
      forall j | 0 < j < |r| ensures t[0].count >= r[j].count {
        var e := r[j];
        assert e in multiset(rest) by { assert e == rest[j - 1]; }
        if e != x {
          assert e in multiset(t[1..]);
          var k :| 0 <= k < |t[1..]| && t[1..][k] == e;
          assert t[k + 1] == e;
        }
      }
    }
  }

  /** The sorted entries: non-increasing in count and a permutation of the input. */
  function SortByCount(c: Counts): (r: Counts)
    ensures NonIncreasing(r)
    ensures multiset(r) == multiset(c)
  {
    if c == [] then []
    else
      assert c == [c[0]] + c[1..];
      InsertKeepsOrder(c[0], SortByCount(c[1..]));
      Insert(c[0], SortByCount(c[1..]))
  }

  lemma {:induction false} InsertKeepsTies(x: Entry, t: Counts, n: nat)
    ensures WithCount(Insert(x, t), n) == (if x.count == n then [x] else []) + WithCount(t, n)
  {
    var here := if x.count == n then [x] else [];
    if t == [] || t[0].count <= x.count {
      assert ([x] + t)[1..] == t;
    } else {
      var rest := Insert(x, t[1..]);
      var r := [t[0]] + rest;
      assert r[0] == t[0] && r[1..] == rest;
      InsertKeepsTies(x, t[1..], n);
      if t[0].count == n {
        assert here == [];
      } else {
        assert WithCount(t, n) == WithCount(t[1..], n);
      }
    }
  }

  /** Stability: for every count, the entries with that count appear in the sorted
      list in the same order as in the input. */
  lemma {:induction false} SortByCountKeepsTies(c: Counts, n: nat)
    ensures WithCount(SortByCount(c), n) == WithCount(c, n)
  {
    if c != [] {
      SortByCountKeepsTies(c[1..], n);
      InsertKeepsTies(c[0], SortByCount(c[1..]), n);
      assert WithCount(c, n) == (if c[0].count == n then [c[0]] else []) + WithCount(c[1..], n);
    }
  }

  /** Keys of `c` without its first entry stay distinct. */
  lemma TailKeysDistinct(c: Counts)
    requires c != [] && Distinct(Keys(c))
    ensures Keys(c) == [c[0].key] + Keys(c[1..])
    ensures Distinct(Keys(c[1..]))
  {
    var c' := c[1..];
    forall a, b | 0 <= a < b < |c'| ensures Keys(c')[a] != Keys(c')[b] {
      assert Keys(c)[a + 1] != Keys(c)[b + 1];
    }
  }

  lemma PrependKeepsDistinct(k: string, ks: seq<string>)
    requires Distinct(ks) && k !in ks
    ensures Distinct([k] + ks)
  {
  }

  lemma {:induction false} InsertKeepsKeys(x: Entry, t: Counts)
    requires Distinct(Keys(t)) && x.key !in Keys(t)
    ensures forall k :: k in Keys(Insert(x, t)) <==> k == x.key || k in Keys(t)
    ensures Distinct(Keys(Insert(x, t)))
  {
    if t == [] || t[0].count <= x.count {
      var r := [x] + t;
      assert r[1..] == t;
      assert Keys(r) == [x.key] + Keys(t);
    } else {
      TailKeysDistinct(t);
      InsertKeepsKeys(x, t[1..]);
      var rest := Insert(x, t[1..]);
      var r := [t[0]] + rest;
      assert r[1..] == rest;
      assert Keys(r) == [t[0].key] + Keys(rest);
      assert t[0].key != x.key by { assert Keys(t)[0] == t[0].key; }
      assert t[0].key !in Keys(t[1..]);
      PrependKeepsDistinct(t[0].key, Keys(rest));
    }
  }

  lemma {:induction false} InsertKeepsCounts(x: Entry, t: Counts, k: string)
    requires Distinct(Keys(t)) && x.key !in Keys(t)
    ensures Count(Insert(x, t), k) == if k == x.key then x.count else Count(t, k)
  {
    if t == [] || t[0].count <= x.count {
      var r := [x] + t;
      assert r[1..] == t;
    } else {
      TailKeysDistinct(t);
      InsertKeepsCounts(x, t[1..], k);
      var rest := Insert(x, t[1..]);
      var r := [t[0]] + rest;
      assert r[1..] == rest;
    }
  }

  /** Sorting keeps every key and its count when the keys are distinct. */
  lemma {:induction false} SortByCountKeepsCounts(c: Counts)
    requires Distinct(Keys(c))
    ensures forall k :: k in Keys(SortByCount(c)) <==> k in Keys(c)
    ensures Distinct(Keys(SortByCount(c)))
    ensures forall k :: Count(SortByCount(c), k) == Count(c, k)
  {
    if c != [] {
      TailKeysDistinct(c);
      SortByCountKeepsCounts(c[1..]);
      InsertKeepsKeys(c[0], SortByCount(c[1..]));
      forall k ensures Count(SortByCount(c), k) == Count(c, k) {
        InsertKeepsCounts(c[0], SortByCount(c[1..]), k);
      }
    }
  }
}
