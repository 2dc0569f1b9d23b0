/** The "by chain" tab of the asset breakdown dialog
    (AssetBreakdownDialog.tsx): a `chainMap` from chain id to bucket, built by
    scanning every asset's chain entries, then its values sorted by total. */
module ByChain {
  import opened Js
  import opened AssetBreakdown

  /** A row of a bucket's "Assets" menu. */
  datatype ChainRow = ChainRow(tokenType: string, amount: real, amountInUSD: real)

  /** A value of `chainMap`. */
  datatype ChainBucket = ChainBucket(chainId: ChainId, totalValue: real, assets: seq<ChainRow>)

  /** A chain entry with a positive amount, tagged with its asset's token type:
      what one pass of the inner loop adds to the map. */
  datatype Contribution = Contribution(chainId: ChainId, row: ChainRow)

  function ContributionOf(tokenType: string, c: ChainAggregation): Contribution
  {
    Contribution(c.chainId, ChainRow(tokenType, c.amount, c.amountInUSD))
  }

  /** The contributions of one asset's chain entries, in order. */
  function ChainContributions(tokenType: string, chains: seq<ChainAggregation>): seq<Contribution>
  {
    if |chains| == 0 then []
    else
      var c := chains[|chains| - 1];
      ChainContributions(tokenType, chains[..|chains| - 1]) +
        (if c.amount > 0.0 then [ContributionOf(tokenType, c)] else [])
  }

  /** The contributions of a snapshot's assets, in asset-then-chain order. */
  function Contributions(assets: seq<Asset>): seq<Contribution>
  {
    if |assets| == 0 then []
    else
      var a := assets[|assets| - 1];
      Contributions(assets[..|assets| - 1]) + ChainContributions(a.tokenType, a.chainAggregation)
  }

  /** Some asset holds a positive amount on chain `c`. */
  ghost predicate HeldOn(assets: seq<Asset>, c: ChainId)
  {
    exists i, k | 0 <= i < |assets| && 0 <= k < |assets[i].chainAggregation| ::
      assets[i].chainAggregation[k].chainId == c && assets[i].chainAggregation[k].amount > 0.0
  }

  /** One pass of the inner loop's body for a positive entry: create the bucket
      if missing, push the row, add its value to the total. */
  function AddContribution(m: map<ChainId, ChainBucket>, x: Contribution): map<ChainId, ChainBucket>
  {
    var b := if x.chainId in m then m[x.chainId] else ChainBucket(x.chainId, 0.0, []);
    m[x.chainId := ChainBucket(b.chainId, b.totalValue + x.row.amountInUSD, b.assets + [x.row])]
  }

  /** The map the loops leave after the given contributions. */
  function ChainMapOf(xs: seq<Contribution>): map<ChainId, ChainBucket>
  {
    if |xs| == 0 then map[] else AddContribution(ChainMapOf(xs[..|xs| - 1]), xs[|xs| - 1])
  }

  /** The rows contributed to chain `c`, in order. */
  function RowsOn(xs: seq<Contribution>, c: ChainId): seq<ChainRow>
  {
    if |xs| == 0 then []
    else RowsOn(xs[..|xs| - 1], c) + (if xs[|xs| - 1].chainId == c then [xs[|xs| - 1].row] else [])
  }

  function RowsUsd(rows: seq<ChainRow>): real
  {
    if |rows| == 0 then 0.0 else RowsUsd(rows[..|rows| - 1]) + rows[|rows| - 1].amountInUSD
  }

  function ContributionsUsd(xs: seq<Contribution>): real
  {
    if |xs| == 0 then 0.0 else ContributionsUsd(xs[..|xs| - 1]) + xs[|xs| - 1].row.amountInUSD
  }

  function TotalValues(bs: seq<ChainBucket>): real
  {
    if |bs| == 0 then 0.0 else bs[0].totalValue + TotalValues(bs[1..])
  }

  // What the chain map holds.

  /** `x` is what a positive chain entry of an asset of this token type adds. */
  ghost predicate FromEntryOf(tokenType: string, chains: seq<ChainAggregation>, x: Contribution)
  {
    exists k | 0 <= k < |chains| :: chains[k].amount > 0.0 && x == ContributionOf(tokenType, chains[k])
  }

  /** `x` is what a positive chain entry of one of the assets adds. */
  ghost predicate FromEntry(assets: seq<Asset>, x: Contribution)
  {
    exists i | 0 <= i < |assets| :: FromEntryOf(assets[i].tokenType, assets[i].chainAggregation, x)
  }

  /** The contributions of an asset are exactly what its positive chain
      entries add. */
  lemma {:induction false} ChainContributionsMembers(tokenType: string, chains: seq<ChainAggregation>)
    ensures forall x :: x in ChainContributions(tokenType, chains) <==> FromEntryOf(tokenType, chains, x)
  {
    if |chains| > 0 {
      var init, c := chains[..|chains| - 1], chains[|chains| - 1];
      ChainContributionsMembers(tokenType, init);
      forall x
        ensures FromEntryOf(tokenType, chains, x) <==>
                FromEntryOf(tokenType, init, x) || (c.amount > 0.0 && x == ContributionOf(tokenType, c))
      {
        if FromEntryOf(tokenType, chains, x) {
          var k :| 0 <= k < |chains| && chains[k].amount > 0.0 && x == ContributionOf(tokenType, chains[k]);
          if k < |init| {
            assert init[k] == chains[k];
          }
        }
        if FromEntryOf(tokenType, init, x) {
          var k :| 0 <= k < |init| && init[k].amount > 0.0 && x == ContributionOf(tokenType, init[k]);
          assert chains[k] == init[k];
        }
      }
    }
  }

  /** The rows an asset's chain entries add, one per entry, in order. */
  function Tagged(tokenType: string, chains: seq<ChainAggregation>): (r: seq<Contribution>)
    ensures |r| == |chains|
  {
    seq(|chains|, i requires 0 <= i < |chains| => ContributionOf(tokenType, chains[i]))
  }

  /** An asset contributes exactly one row per positive chain entry, in the
      order of its entries: the entries its "by asset" card lists, tagged with
      its token type. */
  lemma {:induction false} ChainContributionsAreFiltered(tokenType: string, chains: seq<ChainAggregation>)
    ensures ChainContributions(tokenType, chains) == Tagged(tokenType, Filter(chains, PositiveChain))
  {
    if |chains| > 0 {
      var init, c := chains[..|chains| - 1], chains[|chains| - 1];
      ChainContributionsAreFiltered(tokenType, init);
      var f, tail := Filter(init, PositiveChain), if PositiveChain(c) then [c] else [];
      assert Filter(chains, PositiveChain) == f + tail;
      var l, r := Tagged(tokenType, f + tail), Tagged(tokenType, f) + Tagged(tokenType, tail);
      forall i | 0 <= i < |l|
        ensures l[i] == r[i]
      {
        if i < |f| {
          assert (f + tail)[i] == f[i];
        } else {
          assert (f + tail)[i] == tail[i - |f|];
        }
      }
      assert l == r;
    }
  }

  /** The contributions of a snapshot are exactly what the positive chain
      entries of its assets add. */
  lemma {:induction false} ContributionsMembers(assets: seq<Asset>)
    ensures forall x :: x in Contributions(assets) <==> FromEntry(assets, x)
  {
    if |assets| > 0 {
      var init, a := assets[..|assets| - 1], assets[|assets| - 1];
      ContributionsMembers(init);
      ChainContributionsMembers(a.tokenType, a.chainAggregation);
      forall x
        ensures FromEntry(assets, x) <==> FromEntry(init, x) || FromEntryOf(a.tokenType, a.chainAggregation, x)
      {
        if FromEntry(assets, x) {
          var i :| 0 <= i < |assets| && FromEntryOf(assets[i].tokenType, assets[i].chainAggregation, x);
          if i < |init| {
            assert init[i] == assets[i];
          }
        }
        if FromEntry(init, x) {
          var i :| 0 <= i < |init| && FromEntryOf(init[i].tokenType, init[i].chainAggregation, x);
          assert assets[i] == init[i];
        }
      }
    }
  }

  /** The bucket a chain should have after the given contributions: its
      rows, in order, and their total value. */
  function BucketFor(xs: seq<Contribution>, c: ChainId): ChainBucket
  {
    ChainBucket(c, RowsUsd(RowsOn(xs, c)), RowsOn(xs, c))
  }

  lemma RowsUsdAppend(rows: seq<ChainRow>, r: ChainRow)
    ensures RowsUsd(rows + [r]) == RowsUsd(rows) + r.amountInUSD
  {
    assert (rows + [r])[..|rows|] == rows;
  }

  /** After contributions `xs`, chain `c` has a bucket in `m` iff rows were
      contributed to it, and then the bucket its rows call for. */
  ghost predicate BucketAgrees(m: map<ChainId, ChainBucket>, xs: seq<Contribution>, c: ChainId)
  {
    && (c in m <==> RowsOn(xs, c) != [])
    && (c in m ==> m[c] == BucketFor(xs, c))
  }

  /** A contribution to a chain that has a bucket extends that bucket. */
  lemma AddToBucket(m: map<ChainId, ChainBucket>, ys: seq<Contribution>, x: Contribution)
    requires x.chainId in m && m[x.chainId] == BucketFor(ys, x.chainId)
    ensures AddContribution(m, x)[x.chainId] ==
            ChainBucket(x.chainId, RowsUsd(RowsOn(ys, x.chainId)) + x.row.amountInUSD, RowsOn(ys, x.chainId) + [x.row])
  {
  }

  /** A contribution to a chain without a bucket creates one holding its row. */
  lemma CreateBucket(m: map<ChainId, ChainBucket>, x: Contribution)
    requires x.chainId !in m
    ensures AddContribution(m, x)[x.chainId] == ChainBucket(x.chainId, 0.0 + x.row.amountInUSD, [] + [x.row])
  {
  }

  /** One more contribution keeps each chain's bucket in agreement. */
  lemma BucketStep(xs: seq<Contribution>, c: ChainId)
    requires |xs| > 0
    requires BucketAgrees(ChainMapOf(xs[..|xs| - 1]), xs[..|xs| - 1], c)
    ensures BucketAgrees(ChainMapOf(xs), xs, c)
  {
    var ys, x := xs[..|xs| - 1], xs[|xs| - 1];
    if c == x.chainId {
      assert RowsOn(xs, c) == RowsOn(ys, c) + [x.row];
      RowsUsdAppend(RowsOn(ys, c), x.row);
      if c in ChainMapOf(ys) {
        AddToBucket(ChainMapOf(ys), ys, x);
      } else {
        CreateBucket(ChainMapOf(ys), x);
      }
    } else {
      assert RowsOn(xs, c) == RowsOn(ys, c);
    }
  }

  lemma {:induction false} ChainMapBucket(xs: seq<Contribution>, c: ChainId)
    ensures BucketAgrees(ChainMapOf(xs), xs, c)
  {
    if |xs| > 0 {
      ChainMapBucket(xs[..|xs| - 1], c);
      BucketStep(xs, c);
    }
  }

  /** A chain gets a bucket iff some row was contributed to it, and its
      bucket is keyed by its own chain id, holds exactly the rows contributed
      to it, in order, and its total is the sum of their values. */
  lemma ChainMapBuckets(xs: seq<Contribution>)
    ensures forall c :: c in ChainMapOf(xs) <==> RowsOn(xs, c) != []
    ensures forall c | c in ChainMapOf(xs) :: ChainMapOf(xs)[c] == BucketFor(xs, c)
  {
    forall c
      ensures c in ChainMapOf(xs) <==> RowsOn(xs, c) != []
      ensures c in ChainMapOf(xs) ==> ChainMapOf(xs)[c] == BucketFor(xs, c)
    {
      ChainMapBucket(xs, c);
    }
  }

  /** Rows were contributed to a chain iff some contribution is on it. */
  lemma {:induction false} RowsOnNonEmpty(xs: seq<Contribution>, c: ChainId)
    ensures RowsOn(xs, c) != [] <==> exists j | 0 <= j < |xs| :: xs[j].chainId == c
  {
    if |xs| > 0 {
      var init := xs[..|xs| - 1];
      RowsOnNonEmpty(init, c);
      if exists j | 0 <= j < |init| :: init[j].chainId == c {
        var j :| 0 <= j < |init| && init[j].chainId == c;
        assert xs[j] == init[j];
      }
      if exists j | 0 <= j < |xs| :: xs[j].chainId == c {
        var j :| 0 <= j < |xs| && xs[j].chainId == c;
        if j < |init| {
          assert init[j] == xs[j];
        }
      }
    }
  }

  /** The keys of the chain map are exactly the chains some asset holds a
      positive amount on. */
  lemma ChainMapKeys(assets: seq<Asset>)
    ensures forall c :: c in ChainMapOf(Contributions(assets)) <==> HeldOn(assets, c)
  {
    var xs := Contributions(assets);
    ChainMapBuckets(xs);
    ContributionsMembers(assets);
    forall c
      ensures c in ChainMapOf(xs) <==> HeldOn(assets, c)
    {
      RowsOnNonEmpty(xs, c);
      if c in ChainMapOf(xs) {
        var j :| 0 <= j < |xs| && xs[j].chainId == c;
        assert xs[j] in xs;
        var i :| 0 <= i < |assets| && FromEntryOf(assets[i].tokenType, assets[i].chainAggregation, xs[j]);
        var k :| 0 <= k < |assets[i].chainAggregation| && assets[i].chainAggregation[k].amount > 0.0 &&
          xs[j] == ContributionOf(assets[i].tokenType, assets[i].chainAggregation[k]);
      }
      if HeldOn(assets, c) {
        var i, k :| 0 <= i < |assets| && 0 <= k < |assets[i].chainAggregation| &&
          assets[i].chainAggregation[k].chainId == c && assets[i].chainAggregation[k].amount > 0.0;
        var x := ContributionOf(assets[i].tokenType, assets[i].chainAggregation[k]);
        assert FromEntryOf(assets[i].tokenType, assets[i].chainAggregation, x);
        assert x in xs;
        var j :| 0 <= j < |xs| && xs[j] == x;
      }
    }
  }

  // Sums.

  lemma {:induction false} TotalValuesRemove(bs: seq<ChainBucket>, p: nat)
    requires p < |bs|
    ensures TotalValues(Without(bs, p)) == TotalValues(bs) - bs[p].totalValue
    decreases p
  {
    if p == 0 {
      assert Without(bs, p) == bs[1..];
    } else {
      TotalValuesRemove(bs[1..], p - 1);
      assert Without(bs, p)[1..] == Without(bs[1..], p - 1);
    }
  }

  lemma {:induction false} TotalValuesUpdate(bs: seq<ChainBucket>, p: nat, b: ChainBucket)
    requires p < |bs|
    ensures TotalValues(bs[p := b]) == TotalValues(bs) - bs[p].totalValue + b.totalValue
    decreases p
  {
    if p > 0 {
      TotalValuesUpdate(bs[1..], p - 1, b);
      assert bs[p := b][1..] == bs[1..][p - 1 := b];
    }
  }

  /** The sequence with the element at `p` taken out. */
  function Without<T>(s: seq<T>, p: nat): (r: seq<T>)
    requires p < |s|
    ensures |r| == |s| - 1
    ensures forall i | 0 <= i < p :: r[i] == s[i]
    ensures forall i | p <= i < |r| :: r[i] == s[i + 1]
  {
    s[..p] + s[p + 1..]
  }

  /** Taking one element out of a sequence takes it out of its multiset. */
  lemma MultisetWithout<T>(t: seq<T>, p: nat)
    requires p < |t|
    ensures multiset(Without(t, p)) == multiset(t) - multiset{t[p]}
  {
    assert t == t[..p] + [t[p]] + t[p + 1..];
  }

  /** Where the first element of `s` sits in a permutation `t` of `s`, and
      what the rest of `s` is a permutation of. */
  lemma MatchHead(s: seq<ChainBucket>, t: seq<ChainBucket>) returns (p: nat)
    requires multiset(s) == multiset(t) && |s| > 0
    ensures p < |t| && t[p] == s[0]
    ensures multiset(s[1..]) == multiset(Without(t, p))
  {
    assert s[0] in multiset(t);
    p :| 0 <= p < |t| && t[p] == s[0];
    MultisetWithout(t, p);
    MultisetWithout(s, 0);
    assert Without(s, 0) == s[1..];
  }

  /** Reordering the buckets does not change their sum. */
  lemma {:induction false} TotalValuesPermutation(s: seq<ChainBucket>, t: seq<ChainBucket>)
    requires multiset(s) == multiset(t)
    ensures TotalValues(s) == TotalValues(t)
    decreases |s|
  {
    if |s| == 0 {
      assert |t| == |multiset(t)| == 0;
    } else {
      var p := MatchHead(s, t);
      TotalValuesPermutation(s[1..], Without(t, p));
      TotalValuesRemove(t, p);
    }
  }

  /** A reordering of buckets with distinct chains has distinct chains. */
  lemma {:induction false} DistinctPermutation(s: seq<ChainBucket>, t: seq<ChainBucket>)
    requires multiset(s) == multiset(t)
    requires DistinctChains(t)
    ensures DistinctChains(s)
    decreases |s|
  {
    if |s| > 0 {
      var p := MatchHead(s, t);
      var t' := Without(t, p);
      DistinctWithout(t, p);
      DistinctPermutation(s[1..], t');
      forall j | 1 <= j < |s|
        ensures s[0].chainId != s[j].chainId
      {
        assert s[j] == s[1..][j - 1];
        assert s[j] in multiset(t');
        var q :| 0 <= q < |t'| && t'[q] == s[j];
        if q < p {
          assert t'[q] == t[q];
        } else {
          assert t'[q] == t[q + 1];
        }
      }
      forall i, j | 0 <= i < j < |s|
        ensures s[i].chainId != s[j].chainId
      {
        if i > 0 {
          assert s[i] == s[1..][i - 1] && s[j] == s[1..][j - 1];
        }
      }
    }
  }

  /** Every listed bucket is the bucket of its own chain in `m`. */
  ghost predicate InMap(vs: seq<ChainBucket>, m: map<ChainId, ChainBucket>)
  {
    forall i | 0 <= i < |vs| :: vs[i].chainId in m && m[vs[i].chainId] == vs[i]
  }

  /** Every key of `m` has a listed bucket. */
  ghost predicate Covers(vs: seq<ChainBucket>, m: map<ChainId, ChainBucket>)
  {
    forall c | c in m :: exists i | 0 <= i < |vs| :: vs[i].chainId == c
  }

  predicate DistinctChains(vs: seq<ChainBucket>)
  {
    forall i, j | 0 <= i < j < |vs| :: vs[i].chainId != vs[j].chainId
  }

  /** `vs` lists the buckets of `m`: one per key, each the key's bucket. */
  ghost predicate Lists(vs: seq<ChainBucket>, m: map<ChainId, ChainBucket>)
  {
    InMap(vs, m) && Covers(vs, m) && DistinctChains(vs)
  }

  /** The listing after a contribution to a chain that already had a bucket,
      with that bucket as it was before. */
  lemma ListsBeforeUpdate(vs: seq<ChainBucket>, m': map<ChainId, ChainBucket>, x: Contribution, p: nat)
    requires x.chainId in m' && m'[x.chainId].chainId == x.chainId
    requires Lists(vs, AddContribution(m', x))
    requires p < |vs| && vs[p].chainId == x.chainId
    ensures Lists(vs[p := m'[x.chainId]], m')
  {
    var m, vs' := AddContribution(m', x), vs[p := m'[x.chainId]];
    forall c | c in m'
      ensures exists i | 0 <= i < |vs'| :: vs'[i].chainId == c
    {
      assert c in m;
      var i :| 0 <= i < |vs| && vs[i].chainId == c;
      assert vs'[i].chainId == c;
    }
  }

  /** The listing after a contribution that created a bucket, without it. */
  lemma ListsBeforeCreation(vs: seq<ChainBucket>, m': map<ChainId, ChainBucket>, x: Contribution, p: nat)
    requires x.chainId !in m'
    requires Lists(vs, AddContribution(m', x))
    requires p < |vs| && vs[p].chainId == x.chainId
    ensures Lists(Without(vs, p), m')
  {
    InMapWithout(vs, m', x, p);
    CoversWithout(vs, m', x, p);
    DistinctWithout(vs, p);
  }

  lemma InMapWithout(vs: seq<ChainBucket>, m': map<ChainId, ChainBucket>, x: Contribution, p: nat)
    requires InMap(vs, AddContribution(m', x)) && DistinctChains(vs)
    requires p < |vs| && vs[p].chainId == x.chainId
    ensures InMap(Without(vs, p), m')
  {
    var vs' := Without(vs, p);
    forall i | 0 <= i < |vs'|
      ensures vs'[i].chainId in m' && m'[vs'[i].chainId] == vs'[i]
    {
      var k := if i < p then i else i + 1;
      assert vs'[i] == vs[k];
      assert vs[k].chainId != vs[p].chainId;
    }
  }

  lemma CoversWithout(vs: seq<ChainBucket>, m': map<ChainId, ChainBucket>, x: Contribution, p: nat)
    requires x.chainId !in m'
    requires Covers(vs, AddContribution(m', x))
    requires p < |vs| && vs[p].chainId == x.chainId
    ensures Covers(Without(vs, p), m')
  {
    var vs' := Without(vs, p);
    forall c | c in m'
      ensures exists i | 0 <= i < |vs'| :: vs'[i].chainId == c
    {
      assert c in AddContribution(m', x);
      var k :| 0 <= k < |vs| && vs[k].chainId == c;
      if k < p {
        assert vs'[k] == vs[k];
      } else {
        assert vs'[k - 1] == vs[k];
      }
    }
  }

  lemma DistinctWithout(vs: seq<ChainBucket>, p: nat)
    requires DistinctChains(vs)
    requires p < |vs|
    ensures DistinctChains(Without(vs, p))
  {
    var vs' := Without(vs, p);
    forall i, j | 0 <= i < j < |vs'|
      ensures vs'[i].chainId != vs'[j].chainId
    {
      var i', j' := if i < p then i else i + 1, if j < p then j else j + 1;
      assert vs'[i] == vs[i'] && vs'[j] == vs[j'];
    }
  }

  lemma ListedFirst(vs: seq<ChainBucket>, m: map<ChainId, ChainBucket>)
    requires InMap(vs, m) && |vs| > 0
    ensures vs[0].chainId in m
  {
  }

  /** However the buckets are listed, their totals add up to the value of
      every contribution: no positive entry is lost or counted twice. */
  lemma {:induction false} ListedTotals(xs: seq<Contribution>, vs: seq<ChainBucket>)
    requires Lists(vs, ChainMapOf(xs))
    ensures TotalValues(vs) == ContributionsUsd(xs)
    decreases |xs|
  {
    var m := ChainMapOf(xs);
    if |xs| == 0 {
      if |vs| > 0 {
        ListedFirst(vs, m);
        assert false;
      }
    } else {
      var ys, x := xs[..|xs| - 1], xs[|xs| - 1];
      var m' := ChainMapOf(ys);
      ChainMapBuckets(ys);
      var c := x.chainId;
      assert c in m;
      var p :| 0 <= p < |vs| && vs[p].chainId == c;
      if c in m' {
        ListsBeforeUpdate(vs, m', x, p);
        ListedTotals(ys, vs[p := m'[c]]);
        TotalValuesUpdate(vs, p, m'[c]);
      } else {
        ListsBeforeCreation(vs, m', x, p);
        ListedTotals(ys, Without(vs, p));
        TotalValuesRemove(vs, p);
      }
    }
  }

  // The order of the tab.

  /** `x` is shown before `y`: a larger total first, equal totals by chain id. */
  predicate RankedBefore(x: ChainBucket, y: ChainBucket)
  {
    x.totalValue > y.totalValue || (x.totalValue == y.totalValue && x.chainId < y.chainId)
  }

  predicate Ranked(s: seq<ChainBucket>)
  {
    forall i, j | 0 <= i < j < |s| :: RankedBefore(s[i], s[j]) && s[i].chainId != s[j].chainId
  }

  /** The first bucket of a ranked sequence is ranked before every other. */
  lemma RankedHead(s: seq<ChainBucket>, b: ChainBucket)
    requires Ranked(s) && b in multiset(s)
    ensures b == s[0] || RankedBefore(s[0], b)
  {
    var q :| 0 <= q < |s| && s[q] == b;
  }

  lemma RankedTail(s: seq<ChainBucket>)
    requires Ranked(s) && |s| > 0
    ensures Ranked(s[1..])
  {
    forall i, j | 0 <= i < j < |s| - 1
      ensures RankedBefore(s[1..][i], s[1..][j]) && s[1..][i].chainId != s[1..][j].chainId
    {
      assert s[1..][i] == s[i + 1] && s[1..][j] == s[j + 1];
    }
  }

  /** Two ranked permutations of each other start with the same bucket. */
  lemma RankedSameHead(s: seq<ChainBucket>, t: seq<ChainBucket>)
    requires Ranked(s) && Ranked(t)
    requires multiset(s) == multiset(t) && |s| > 0
    ensures |t| > 0 && s[0] == t[0]
  {
    assert s[0] in multiset(t);
    assert |t| > 0;
    assert t[0] in multiset(s);
    RankedHead(s, t[0]);
    RankedHead(t, s[0]);
  }

  /** The order is a strict total order on buckets of distinct chains, so the
      tab's order is fixed by the buckets alone. */
  lemma {:induction false} RankedUnique(s: seq<ChainBucket>, t: seq<ChainBucket>)
    requires Ranked(s) && Ranked(t)
    requires multiset(s) == multiset(t)
    ensures s == t
    decreases |s|
  {
    if |s| == 0 {
      assert |t| == |multiset(t)| == 0;
    } else {
      RankedSameHead(s, t);
      var p := MatchHead(s, t);
      assert p == 0;
      assert Without(t, 0) == t[1..];
      RankedTail(s);
      RankedTail(t);
      RankedUnique(s[1..], t[1..]);
      assert s == [s[0]] + s[1..] && t == [t[0]] + t[1..];
    }
  }

  predicate IsLeast(k: ChainId, s: set<ChainId>)
  {
    k in s && forall y | y in s :: k <= y
  }

  lemma {:induction false} LeastExists(s: set<ChainId>)
    requires s != {}
    ensures exists k :: IsLeast(k, s)
    decreases |s|
  {
    var x :| x in s;
    if s != {x} {
      LeastExists(s - {x});
      var k :| IsLeast(k, s - {x});
      var least := if x < k then x else k;
      forall y | y in s
        ensures least <= y
      {
        if y != x {
          assert y in s - {x};
        }
      }
      assert IsLeast(least, s);
    } else {
      assert IsLeast(x, s);
    }
  }

  /** The order in which `Object.values` enumerates an object whose keys are
      all array indices: ascending numeric order. */
  method OrderedKeys(keys: set<ChainId>) returns (ks: seq<ChainId>)
    ensures forall i, j | 0 <= i < j < |ks| :: ks[i] < ks[j]
    ensures forall c :: c in ks <==> c in keys
  {
    ks := [];
    var rest := keys;
    while rest != {}
      invariant rest <= keys
      invariant forall c :: c in ks <==> c in keys && c !in rest
      invariant forall i, j | 0 <= i < j < |ks| :: ks[i] < ks[j]
      invariant forall i, c | 0 <= i < |ks| && c in rest :: ks[i] < c
      decreases rest
    {
      LeastExists(rest);
      var k :| IsLeast(k, rest);
      ks := ks + [k];
      rest := rest - {k};
    }
  }

  lemma ChainContributionsStep(tokenType: string, chains: seq<ChainAggregation>, k: nat)
    requires k < |chains|
    ensures ChainContributions(tokenType, chains[..k + 1]) ==
            ChainContributions(tokenType, chains[..k]) +
              (if chains[k].amount > 0.0 then [ContributionOf(tokenType, chains[k])] else [])
  {
    assert chains[..k + 1][..k] == chains[..k];
  }

  lemma ContributionsStep(assets: seq<Asset>, i: nat)
    requires i < |assets|
    ensures Contributions(assets[..i + 1]) ==
            Contributions(assets[..i]) + ChainContributions(assets[i].tokenType, assets[i].chainAggregation)
  {
    assert assets[..i + 1][..i] == assets[..i];
  }

  lemma ChainMapOfAppend(xs: seq<Contribution>, x: Contribution)
    ensures ChainMapOf(xs + [x]) == AddContribution(ChainMapOf(xs), x)
  {
    assert (xs + [x])[..|xs|] == xs;
  }

  /** The body of the inner loop for a positive entry: create the chain's
      bucket if missing, push the row, add its value to the total. */
  method AddRow(chainMap: map<ChainId, ChainBucket>, chainId: ChainId, row: ChainRow)
    returns (updated: map<ChainId, ChainBucket>)
    ensures updated == AddContribution(chainMap, Contribution(chainId, row))
  {
    updated := chainMap;
    if chainId !in updated {
      updated := updated[chainId := ChainBucket(chainId, 0.0, [])];
    }
    var bucket := updated[chainId];
    updated := updated[chainId := bucket.(assets := bucket.assets + [row])];
    bucket := updated[chainId];
    updated := updated[chainId := bucket.(totalValue := bucket.totalValue + row.amountInUSD)];
  }

  /** The loops that populate `chainMap`. */
  method BuildChainMap(assets: seq<Asset>) returns (chainMap: map<ChainId, ChainBucket>)
    ensures chainMap == ChainMapOf(Contributions(assets))
  {
    chainMap := map[];
    var i := 0;
    while i < |assets|
      invariant 0 <= i <= |assets|
      invariant chainMap == ChainMapOf(Contributions(assets[..i]))
    {
      var asset := assets[i];
      ghost var done := Contributions(assets[..i]);
      assert asset.chainAggregation[..0] == [];
      assert done + ChainContributions(asset.tokenType, []) == done;
      var k := 0;
      while k < |asset.chainAggregation|
        invariant 0 <= k <= |asset.chainAggregation|
        invariant chainMap == ChainMapOf(done + ChainContributions(asset.tokenType, asset.chainAggregation[..k]))
      {
        var chain := asset.chainAggregation[k];
        ghost var added := ChainContributions(asset.tokenType, asset.chainAggregation[..k]);
        ChainContributionsStep(asset.tokenType, asset.chainAggregation, k);
        if chain.amount > 0.0 {
          ghost var x := ContributionOf(asset.tokenType, chain);
          chainMap := AddRow(chainMap, chain.chainId, ChainRow(asset.tokenType, chain.amount, chain.amountInUSD));
          ChainMapOfAppend(done + added, x);
          assert done + (added + [x]) == (done + added) + [x];
        } else {
          assert added + [] == added;
        }
        k := k + 1;
      }
      assert asset.chainAggregation[..k] == asset.chainAggregation;
      ContributionsStep(assets, i);
      i := i + 1;
    }
    assert assets[..i] == assets;
  }

  // The sort, stated on the sequence of the array's elements.

  /** The first `k` buckets are in the tab's order. */
  ghost predicate RankedUpTo(s: seq<ChainBucket>, k: int)
  {
    forall p, q | 0 <= p < q < k && q < |s| :: RankedBefore(s[p], s[q]) && s[p].chainId != s[q].chainId
  }

  /** Every chain id before position `k` is below every chain id from `k` on. */
  ghost predicate SplitAt(s: seq<ChainBucket>, k: int)
  {
    forall p, q | 0 <= p < k <= q < |s| :: s[p].chainId < s[q].chainId
  }

  /** From position `k` on, chain ids ascend. */
  ghost predicate AscendingFrom(s: seq<ChainBucket>, k: nat)
  {
    forall p, q | k <= p < q < |s| :: s[p].chainId < s[q].chainId
  }

  /** `s[j]` is being moved down into `s[..i + 1]`, which is in order without it;
      everything it has passed has a smaller total, and its chain id is the
      largest of the prefix. */
  ghost predicate Inserting(s: seq<ChainBucket>, i: int, j: int)
    requires 0 <= j <= i < |s|
  {
    && (forall p, q | 0 <= p < q <= i && p != j && q != j ::
          RankedBefore(s[p], s[q]) && s[p].chainId != s[q].chainId)
    && (forall q | j < q <= i :: s[q].totalValue < s[j].totalValue)
    && (forall p | 0 <= p <= i && p != j :: s[p].chainId < s[j].chainId)
  }

  function Swapped(s: seq<ChainBucket>, j: int): seq<ChainBucket>
    requires 0 < j < |s|
  {
    s[j - 1 := s[j]][j := s[j - 1]]
  }

  lemma StartInsertion(s: seq<ChainBucket>, i: int)
    requires 0 <= i < |s|
    requires RankedUpTo(s, i) && SplitAt(s, i) && AscendingFrom(s, i)
    ensures Inserting(s, i, i) && SplitAt(s, i + 1) && AscendingFrom(s, i + 1)
  {
  }

  lemma SwapStep(s: seq<ChainBucket>, i: int, j: int)
    requires 0 < j <= i < |s|
    requires Inserting(s, i, j) && s[j - 1].totalValue < s[j].totalValue
    requires SplitAt(s, i + 1) && AscendingFrom(s, i + 1)
    ensures Inserting(Swapped(s, j), i, j - 1)
    ensures SplitAt(Swapped(s, j), i + 1) && AscendingFrom(Swapped(s, j), i + 1)
    ensures multiset(Swapped(s, j)) == multiset(s)
  {
    var t := Swapped(s, j);
    forall p, q | 0 <= p < q <= i && p != j - 1 && q != j - 1
      ensures RankedBefore(t[p], t[q]) && t[p].chainId != t[q].chainId
    {
      var p', q' := if p == j then j - 1 else p, if q == j then j - 1 else q;
      assert t[p] == s[p'] && t[q] == s[q'];
    }
    forall p | 0 <= p <= i && p != j - 1
      ensures t[p].chainId < t[j - 1].chainId
    {
      var p' := if p == j then j - 1 else p;
      assert t[p] == s[p'];
    }
    forall p, q | 0 <= p < i + 1 <= q < |t|
      ensures t[p].chainId < t[q].chainId
    {
      var p' := if p == j then j - 1 else if p == j - 1 then j else p;
      assert t[p] == s[p'] && t[q] == s[q];
    }
    assert t[j - 1] == s[j] && t[j] == s[j - 1];
  }

  lemma FinishInsertion(s: seq<ChainBucket>, i: int, j: int)
    requires 0 <= j <= i < |s|
    requires Inserting(s, i, j)
    requires j == 0 || s[j - 1].totalValue >= s[j].totalValue
    ensures RankedUpTo(s, i + 1)
  {
    forall p | 0 <= p < j
      ensures RankedBefore(s[p], s[j])
    {
      if p < j - 1 {
        assert RankedBefore(s[p], s[j - 1]);
      }
    }
  }

  /** `Array.prototype.sort` with the comparator `b.totalValue - a.totalValue`:
      a stable sort (insertion by adjacent swaps) that compares totals only.
      Its input comes from `Object.values`, in ascending chain id order, so
      stability orders equal totals by chain id. */
  method SortByTotalValue(a: array<ChainBucket>)
    requires AscendingFrom(a[..], 0)
    modifies a
    ensures multiset(a[..]) == multiset(old(a[..]))
    ensures Ranked(a[..])
  {
    var i := 0;
    while i < a.Length
      invariant 0 <= i <= a.Length
      invariant multiset(a[..]) == multiset(old(a[..]))
      invariant RankedUpTo(a[..], i) && SplitAt(a[..], i) && AscendingFrom(a[..], i)
    {
      InsertNext(a, i);
      i := i + 1;
    }
  }

  /** One pass of the sort: moves `a[i]` down past every bucket with a
      smaller total. */
  method InsertNext(a: array<ChainBucket>, i: int)
    requires 0 <= i < a.Length
    requires RankedUpTo(a[..], i) && SplitAt(a[..], i) && AscendingFrom(a[..], i)
    modifies a
    ensures multiset(a[..]) == multiset(old(a[..]))
    ensures RankedUpTo(a[..], i + 1) && SplitAt(a[..], i + 1) && AscendingFrom(a[..], i + 1)
  {
    StartInsertion(a[..], i);
    var j := i;
    while 0 < j && a[j - 1].totalValue < a[j].totalValue
      invariant 0 <= j <= i
      invariant multiset(a[..]) == multiset(old(a[..]))
      invariant Inserting(a[..], i, j) && SplitAt(a[..], i + 1) && AscendingFrom(a[..], i + 1)
    {
      ghost var s := a[..];
      SwapStep(s, i, j);
      a[j - 1], a[j] := a[j], a[j - 1];
      assert a[..] == Swapped(s, j);
      j := j - 1;
    }
    FinishInsertion(a[..], i, j);
  }

  // The tab.

  /** The values of a map whose buckets carry their own key, taken in
      ascending key order, list its buckets with ascending chain ids. */
  lemma ValuesListBuckets(m: map<ChainId, ChainBucket>, keys: seq<ChainId>, values: seq<ChainBucket>)
    requires forall c | c in m :: m[c].chainId == c
    requires forall c :: c in keys <==> c in m
    requires forall i, j | 0 <= i < j < |keys| :: keys[i] < keys[j]
    requires |values| == |keys| && forall i | 0 <= i < |keys| :: values[i] == m[keys[i]]
    ensures Lists(values, m) && AscendingFrom(values, 0)
  {
    forall c | c in m
      ensures exists i | 0 <= i < |values| :: values[i].chainId == c
    {
      var i :| 0 <= i < |keys| && keys[i] == c;
      assert values[i].chainId == c;
    }
  }

  /** A reordering of a listing holds the same buckets and chains. */
  lemma PermutedListing(m: map<ChainId, ChainBucket>, vs: seq<ChainBucket>, sorted: seq<ChainBucket>)
    requires Lists(vs, m) && multiset(sorted) == multiset(vs)
    ensures forall b :: b in sorted <==> b in m.Values
    ensures forall c :: (exists i | 0 <= i < |sorted| :: sorted[i].chainId == c) <==> c in m
  {
    forall b
      ensures b in sorted <==> b in m.Values
    {
      assert b in sorted <==> b in multiset(sorted);
      assert b in vs <==> b in multiset(vs);
      if b in m.Values {
        var c :| c in m && m[c] == b;
        var i :| 0 <= i < |vs| && vs[i].chainId == c;
      }
      if b in vs {
        var i :| 0 <= i < |vs| && vs[i] == b;
        assert m[b.chainId] == b;
      }
    }
    forall c
      ensures (exists i | 0 <= i < |sorted| :: sorted[i].chainId == c) <==> c in m
    {
      if c in m {
        var i :| 0 <= i < |vs| && vs[i].chainId == c;
        assert vs[i] in multiset(sorted);
        var k :| 0 <= k < |sorted| && sorted[k] == vs[i];
      }
      if exists i | 0 <= i < |sorted| :: sorted[i].chainId == c {
        var i :| 0 <= i < |sorted| && sorted[i].chainId == c;
        assert sorted[i] in multiset(vs);
        var k :| 0 <= k < |vs| && vs[k] == sorted[i];
      }
    }
  }

  /** No chain is held on iff no chain entry has a positive amount. */
  lemma NothingHeld(assets: seq<Asset>)
    ensures (forall c :: !HeldOn(assets, c)) <==> NoPositiveEntry(assets)
  {
    if exists i, k | 0 <= i < |assets| && 0 <= k < |assets[i].chainAggregation| ::
         assets[i].chainAggregation[k].amount > 0.0 {
      var i, k :| 0 <= i < |assets| && 0 <= k < |assets[i].chainAggregation| &&
        assets[i].chainAggregation[k].amount > 0.0;
      assert HeldOn(assets, assets[i].chainAggregation[k].chainId);
    }
  }

  /** `Object.values(chainMap).sort(...)`, on the values already listed in
      key order. */
  method SortedBuckets(values: seq<ChainBucket>) returns (sorted: seq<ChainBucket>)
    requires AscendingFrom(values, 0)
    ensures multiset(sorted) == multiset(values)
    ensures Ranked(sorted)
  {
    var a := new ChainBucket[|values|](i requires 0 <= i < |values| => values[i]);
    assert a[..] == values;
    SortByTotalValue(a);
    sorted := a[..];
  }

  /** `sorted` shows exactly the chains some asset holds a positive amount
      on, each once, with the bucket the chain map has for it: the rows
      contributed to the chain, in order, and their total; and the totals add
      up to the value of every positive chain entry. */
  ghost predicate ShowsChainMap(assets: seq<Asset>, sorted: seq<ChainBucket>)
  {
    && (forall b :: b in sorted <==> b in ChainMapOf(Contributions(assets)).Values)
    && (forall c :: (exists i | 0 <= i < |sorted| :: sorted[i].chainId == c) <==> HeldOn(assets, c))
    && (forall i | 0 <= i < |sorted| ::
          sorted[i] == BucketFor(Contributions(assets), sorted[i].chainId) && sorted[i].assets != [])
    && DistinctChains(sorted)
    && TotalValues(sorted) == ContributionsUsd(Contributions(assets))
  }

  /** No chain entry of any asset holds a positive amount. */
  predicate NoPositiveEntry(assets: seq<Asset>)
  {
    forall i, k | 0 <= i < |assets| && 0 <= k < |assets[i].chainAggregation| ::
      assets[i].chainAggregation[k].amount <= 0.0
  }

  /** Whatever order a listing of the chain map is put in, it shows the chain
      map, and it is empty iff no chain entry is positive. */
  lemma TabContents(assets: seq<Asset>, values: seq<ChainBucket>, sorted: seq<ChainBucket>)
    requires Lists(values, ChainMapOf(Contributions(assets)))
    requires multiset(sorted) == multiset(values)
    ensures ShowsChainMap(assets, sorted)
    ensures sorted == [] <==> NoPositiveEntry(assets)
  {
    var xs := Contributions(assets);
    var m := ChainMapOf(xs);
    ChainMapBuckets(xs);
    ChainMapKeys(assets);
    ListedTotals(xs, values);
    TotalValuesPermutation(sorted, values);
    PermutedListing(m, values, sorted);
    DistinctPermutation(sorted, values);
    forall i | 0 <= i < |sorted|
      ensures sorted[i] == BucketFor(xs, sorted[i].chainId) && sorted[i].assets != []
    {
      assert sorted[i] in sorted;
      var c :| c in m && m[c] == sorted[i];
    }
    NothingHeld(assets);
    if |sorted| > 0 {
      assert HeldOn(assets, sorted[0].chainId);
    }
  }

  /** The "by chain" tab: the sorted buckets and whether "No assets found on
      any chain" is shown instead. */
  method ByChainView(snapshot: Snapshot) returns (sortedChains: seq<ChainBucket>, noChainsMessage: bool)
    ensures ShowsChainMap(snapshot.assets, sortedChains)
    ensures Ranked(sortedChains)
    ensures noChainsMessage <==> NoPositiveEntry(snapshot.assets)
  {
    var chainMap := BuildChainMap(snapshot.assets);
    ChainMapBuckets(Contributions(snapshot.assets));
    var keys := OrderedKeys(chainMap.Keys);
    var values := seq(|keys|, i requires 0 <= i < |keys| => chainMap[keys[i]]);
    ValuesListBuckets(chainMap, keys, values);
    sortedChains := SortedBuckets(values);
    TabContents(snapshot.assets, values, sortedChains);
    noChainsMessage := |sortedChains| == 0;
  }
}
