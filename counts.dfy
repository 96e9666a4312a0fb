/** The build script's count maps: plain JavaScript objects from a label to a number,
    kept here as the ordered list of their entries so that insertion order (which
    `Object.entries` reports and the later stable sort keeps) is part of the model. */
module Counts {
  import opened Text

  datatype Entry = Entry(key: string, count: nat)

  /** The own properties of a count object, in insertion order. */
  type Counts = seq<Entry>

  /** The keys, in order (`Object.keys`). */
  function Keys(c: Counts): (ks: seq<string>)
    ensures |ks| == |c|
    ensures forall i :: 0 <= i < |c| ==> ks[i] == c[i].key
  {
    if c == [] then [] else [c[0].key] + Keys(c[1..])
  }

  /** The number stored under `k`, and 0 when there is none (`obj[k] || 0`). */
  function Count(c: Counts, k: string): (n: nat)
    ensures k !in Keys(c) ==> n == 0
  {
    if c == [] then 0 else if c[0].key == k then c[0].count else Count(c[1..], k)
  }

  /** The sum of all counts. */
  function Total(c: Counts): nat {
    if c == [] then 0 else c[0].count + Total(c[1..])
  }

  predicate Distinct(ks: seq<string>) {
    forall i, j :: 0 <= i < j < |ks| ==> ks[i] != ks[j]
  }

  predicate Positive(c: Counts) {
    forall i :: 0 <= i < |c| ==> c[i].count >= 1
  }

  /** The entries whose key is `k`, one at most when keys are distinct. */
  lemma {:induction false} CountOfEntry(c: Counts, i: nat)
    requires Distinct(Keys(c)) && i < |c|
    ensures Count(c, c[i].key) == c[i].count
  {
    if i > 0 {
      assert Keys(c)[0] != Keys(c)[i];
      assert Distinct(Keys(c[1..])) by {
        forall a, b | 0 <= a < b < |c| - 1 ensures Keys(c[1..])[a] != Keys(c[1..])[b] {
          assert Keys(c)[a + 1] != Keys(c)[b + 1];
        }
      }
      CountOfEntry(c[1..], i - 1);
    }
  }

  /** `obj[k] = (obj[k] || 0) + 1` for a key already known to be a string:
      the entry for `k` goes up by one, or a new entry `k: 1` is added last. */
  function Bumped(c: Counts, k: string): (r: Counts)
    ensures Keys(r) == if k in Keys(c) then Keys(c) else Keys(c) + [k]
  {
    if c == [] then [Entry(k, 1)]
    else if c[0].key == k then
      var r := [Entry(k, c[0].count + 1)] + c[1..];
      assert Keys(r) == [k] + Keys(c[1..]);
      r
    else
      var rest := Bumped(c[1..], k);
      var r := [c[0]] + rest;
      assert Keys(r) == [c[0].key] + Keys(rest);
      assert Keys(c) == [c[0].key] + Keys(c[1..]);
      r
  }

  /** Bumping raises the count of `k` by exactly one and leaves every other count alone. */
  lemma {:induction false} BumpedCounts(c: Counts, k: string)
    ensures Count(Bumped(c, k), k) == Count(c, k) + 1
    ensures forall k' :: k' != k ==> Count(Bumped(c, k), k') == Count(c, k')
  {
    if c != [] && c[0].key != k {
      BumpedCounts(c[1..], k);
      var r := Bumped(c, k);
      assert r[0] == c[0] && r[1..] == Bumped(c[1..], k);
    } else if c != [] {
      assert Bumped(c, k)[1..] == c[1..];
    }
  }

  /** Bumping adds one to the total and keeps every count positive. */
  lemma {:induction false} BumpedTotal(c: Counts, k: string)
    ensures Total(Bumped(c, k)) == Total(c) + 1
    ensures Positive(c) ==> Positive(Bumped(c, k))
  {
    if c != [] && c[0].key != k {
      BumpedTotal(c[1..], k);
      var r := Bumped(c, k);
      assert r[0] == c[0] && r[1..] == Bumped(c[1..], k);
    } else if c != [] {
      assert Bumped(c, k)[1..] == c[1..];
    }
  }

  /** `increment(obj, key)`: nothing happens when the key is empty or only
      whitespace; otherwise the trimmed key is bumped, becoming the last key when
      it is new. */
  function Incremented(c: Counts, key: string): (r: Counts)
    ensures Trim(key) == [] ==> r == c
    ensures Keys(r) == if Trim(key) == [] || Trim(key) in Keys(c) then Keys(c) else Keys(c) + [Trim(key)]
  {
    if key == [] then c
    else
      var k := Trim(key);
      if k == [] then c else Bumped(c, k)
  }

  /** `increment` raises the trimmed key's count by exactly one, from 0 when it was
      absent, and leaves every other count alone. */
  lemma IncrementedCounts(c: Counts, key: string)
    ensures Trim(key) != [] ==> Count(Incremented(c, key), Trim(key)) == Count(c, Trim(key)) + 1
    ensures forall k :: k != Trim(key) ==> Count(Incremented(c, key), k) == Count(c, k)
    ensures Total(Incremented(c, key)) <= Total(c) + 1
  {
    if Trim(key) != [] {
      assert key != [];
      BumpedCounts(c, Trim(key));
      BumpedTotal(c, Trim(key));
    }
  }

  /** A map whose keys come from `increment`: distinct, non-empty, trimmed, and
      each counted at least once. */
  ghost predicate IsLabelMap(c: Counts) {
    && Distinct(Keys(c))
    && (forall k :: k in Keys(c) ==> k != [] && IsTrimmed(k))
    && Positive(c)
  }

  lemma AppendKeepsDistinct(ks: seq<string>, k: string)
    requires Distinct(ks) && k !in ks
    ensures Distinct(ks + [k])
  {
  }

  /** `increment` keeps a label map a label map. */
  lemma IncrementedKeepsLabelMap(c: Counts, key: string)
    requires IsLabelMap(c)
    ensures IsLabelMap(Incremented(c, key))
  {
    var k := Trim(key);
    if k != [] {
      assert key != [] && Incremented(c, key) == Bumped(c, k);
      BumpedKeepsLabelMap(c, k);
    }
  }

  /** Bumping a non-empty, trimmed label keeps a label map a label map. */
  lemma BumpedKeepsLabelMap(c: Counts, k: string)
    requires IsLabelMap(c) && k != [] && IsTrimmed(k)
    ensures IsLabelMap(Bumped(c, k))
  {
    var r := Bumped(c, k);
    BumpedTotal(c, k);
    if k !in Keys(c) {
      AppendKeepsDistinct(Keys(c), k);
      assert forall k' :: k' in Keys(r) ==> k' in Keys(c) || k' == k;
    }
  }

  /** A JavaScript object whose properties are updated in place. */
  class CountMap {
    var entries: Counts

    constructor (initial: Counts)
      ensures entries == initial
    {
      entries := initial;
    }

    /** `increment(obj, key)`. */
    method Increment(key: string)
      modifies this
      ensures entries == Incremented(old(entries), key)
    {
      entries := Incremented(entries, key);
    }

    /** `obj[key]++` on a key the object already has. */
    method Bump(key: string)
      requires key in Keys(entries)
      modifies this
      ensures entries == Bumped(old(entries), key)
      ensures Keys(entries) == Keys(old(entries))
    {
      entries := Bumped(entries, key);
    }
  }
}
