/** Counting into a dictionary, as `reduce((acc, x) => { acc[k] = (acc[k] || 0) + 1 })`
    does with a plain object and `Object.entries` then reads back. The object is
    an association list in first-insertion order: a first occurrence appends an
    entry, a repeat bumps the entry in place. */
module Tally {
  import opened Seqs

  datatype Entry<K> = Entry(key: K, count: nat)

  function Keys<K>(es: seq<Entry<K>>): (ks: seq<K>)
    ensures |ks| == |es| && forall j | 0 <= j < |es| :: ks[j] == es[j].key
  {
    seq(|es|, j requires 0 <= j < |es| => es[j].key)
  }

  function SumCounts<K>(es: seq<Entry<K>>): nat
    decreases |es|
  {
    if es == [] then 0 else es[0].count + SumCounts(es[1..])
  }

  lemma {:induction false} SumCountsAppend<K>(es: seq<Entry<K>>, e: Entry<K>)
    ensures SumCounts(es + [e]) == SumCounts(es) + e.count
    decreases |es|
  {
    if es == [] {
      assert [] + [e] == [e];
    } else {
      assert (es + [e])[1..] == es[1..] + [e];
      SumCountsAppend(es[1..], e);
    }
  }

  lemma {:induction false} SumCountsUpdate<K>(es: seq<Entry<K>>, j: nat, e: Entry<K>)
    requires j < |es|
    ensures SumCounts(es[j := e]) == SumCounts(es) - es[j].count + e.count
    decreases |es|
  {
    if j > 0 {
      assert es[j := e][1..] == es[1..][j - 1 := e];
      SumCountsUpdate(es[1..], j - 1, e);
    } else {
      assert es[0 := e][1..] == es[1..];
    }
  }

  /** The distinct values of `xs` in order of first occurrence. */
  function Dedup<K(==,!new)>(xs: seq<K>): (r: seq<K>)
    ensures forall x :: x in r <==> x in xs
    ensures NoDuplicates(r)
    ensures r == [] <==> xs == []
    decreases |xs|
  {
    if xs == [] then []
    else
      var prefix := xs[..|xs| - 1];
      var last := xs[|xs| - 1];
      var d := Dedup(prefix);
      assert xs == prefix + [last];
      if last in d then d else d + [last]
  }

  /** The position of `k` in `ks`, or -1 when it is absent. */
  function IndexOf<K(==)>(ks: seq<K>, k: K): (i: int)
    ensures -1 <= i < |ks|
    ensures i == -1 <==> k !in ks
    ensures i >= 0 ==> ks[i] == k
    ensures forall j | 0 <= j < i :: ks[j] != k
    decreases |ks|
  {
    if ks == [] then -1
    else if ks[0] == k then 0
    else
      var i := IndexOf(ks[1..], k);
      if i == -1 then -1 else i + 1
  }

  /** `es` is the tally of `p`: one entry per distinct value in first-occurrence
      order, each carrying its number of occurrences. */
  ghost predicate Tallies<K(!new)>(es: seq<Entry<K>>, p: seq<K>)
  {
    && Keys(es) == Dedup(p)
    && (forall j | 0 <= j < |es| :: es[j].count == multiset(p)[es[j].key])
    && SumCounts(es) == |p|
  }

  /** `acc[k] = (acc[k] || 0) + 1`: a new key is appended with count 1, a known
      key has its count raised in place. */
  function Bump<K(==)>(es: seq<Entry<K>>, k: K): (r: seq<Entry<K>>)
  {
    var j := IndexOf(Keys(es), k);
    if j == -1 then es + [Entry(k, 1)] else es[j := Entry(k, es[j].count + 1)]
  }

  /** Bumping the tally of `p` by `k` gives the tally of `p + [k]`. */
  lemma BumpTallies<K(!new)>(es: seq<Entry<K>>, p: seq<K>, k: K)
    requires Tallies(es, p)
    ensures Tallies(Bump(es, k), p + [k])
  {
    var q := p + [k];
    assert q[..|q| - 1] == p;
    assert multiset(q) == multiset(p) + multiset{k};
    var j := IndexOf(Keys(es), k);
    if j == -1 {
      BumpNew(es, p, k);
    } else {
      BumpKnown(es, p, k, j);
    }
  }

  lemma BumpNew<K(!new)>(es: seq<Entry<K>>, p: seq<K>, k: K)
    requires Tallies(es, p) && k !in Keys(es)
    ensures Tallies(es + [Entry(k, 1)], p + [k])
  {
    var q := p + [k];
    var r := es + [Entry(k, 1)];
    assert q[..|q| - 1] == p;
    assert multiset(q) == multiset(p) + multiset{k};
    assert Keys(r) == Keys(es) + [k];
    assert k !in p;
    SumCountsAppend(es, Entry(k, 1));
  }

  lemma BumpKnown<K(!new)>(es: seq<Entry<K>>, p: seq<K>, k: K, j: nat)
    requires Tallies(es, p) && j < |es| && es[j].key == k
    ensures Tallies(es[j := Entry(k, es[j].count + 1)], p + [k])
  {
    var q := p + [k];
    var e := Entry(k, es[j].count + 1);
    var r := es[j := e];
    assert q[..|q| - 1] == p;
    assert multiset(q) == multiset(p) + multiset{k};
    assert k in Dedup(p);
    assert Keys(r) == Keys(es);
    assert forall m | 0 <= m < |es| && m != j :: es[m].key != k by {
      assert NoDuplicates(Keys(es));
    }
    SumCountsUpdate(es, j, e);
  }

  /** One entry per distinct value of `xs`, in first-occurrence order, each
      carrying the number of occurrences; the counts add up to `|xs|`. */
  method TallyKeys<K(==,!new)>(xs: seq<K>) returns (es: seq<Entry<K>>)
    ensures Keys(es) == Dedup(xs)
    ensures forall j | 0 <= j < |es| :: es[j].count == multiset(xs)[es[j].key]
    ensures SumCounts(es) == |xs|
  {
    es := [];
    var i := 0;
    while i < |xs|
      invariant 0 <= i <= |xs|
      invariant Tallies(es, xs[..i])
    {
      assert xs[..i + 1] == xs[..i] + [xs[i]];
      BumpTallies(es, xs[..i], xs[i]);
      es := Bump(es, xs[i]);
      i := i + 1;
    }
    assert xs[..i] == xs;
  }
}
