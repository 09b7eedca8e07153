/** Spreading replicas over Railway regions, and reading the spread back. */
module Regions {
  import opened Seqs
  import opened Ordering

  datatype Region = Region(name: string)

  const BY_NAME: Region -> string := (r: Region) => r.name

  // ------------------------------------------------------------------
  // Shares
  // ------------------------------------------------------------------

  /** Go's division truncates towards zero. */
  function Quotient(n: int, k: int): int
    requires k > 0
  {
    if n >= 0 then n / k else -((-n) / k)
  }

  function Remainder(n: int, k: int): int
    requires k > 0
  {
    n - Quotient(n, k) * k
  }

  /** The replicas the i-th of k regions gets out of n. */
  function Share(n: int, k: int, i: int): int
    requires k > 0
  {
    Quotient(n, k) + if i < Remainder(n, k) then 1 else 0
  }

  /** The same, dealt one at a time: the j-th replica goes to region j mod k. */
  function Dealt(n: nat, k: int, i: int): nat
    requires k > 0
  {
    if n == 0 then 0 else Dealt(n - 1, k, i) + if (n - 1) % k == i then 1 else 0
  }

  lemma DivStep(n: nat, k: int)
    requires k > 0
    ensures n % k + 1 < k ==> (n + 1) / k == n / k && (n + 1) % k == n % k + 1
    ensures n % k + 1 == k ==> (n + 1) / k == n / k + 1 && (n + 1) % k == 0
  {
    var q, r := n / k, n % k;
    assert n == q * k + r;
    if r + 1 < k {
      DivUnique(n + 1, k, q, r + 1);
    } else {
      assert n + 1 == (q + 1) * k;
      DivUnique(n + 1, k, q + 1, 0);
    }
  }

  lemma DivUnique(n: nat, k: int, q: int, r: int)
    requires k > 0 && 0 <= r < k && n == q * k + r
    ensures n / k == q && n % k == r
  {
    var d := n / k - q;
    assert d * k == r - n % k;
    SmallMultiple(d, k);
  }

  lemma SmallMultiple(d: int, k: int)
    ensures -k < d * k < k ==> d == 0
  {
    if d >= 1 {
      assert k > 0 ==> d * k >= k;
    } else if d <= -1 {
      assert k > 0 ==> d * k <= -k;
    }
  }

  lemma NonNegativeShare(n: nat, k: int, i: int)
    requires k > 0
    ensures Share(n, k, i) == n / k + if i < n % k then 1 else 0
  {
    assert n == n / k * k + n % k;
  }

  /** The quotient and remainder deal replicas round-robin: asking for one more
      adds one replica to one region and takes none away. */
  lemma {:induction false} SharesAreDealt(n: nat, k: int, i: int)
    requires 0 <= i < k
    ensures Share(n, k, i) == Dealt(n, k, i)
  {
    NonNegativeShare(n, k, i);
    if n == 0 {
      DivUnique(0, k, 0, 0);
    } else {
      SharesAreDealt(n - 1, k, i);
      NonNegativeShare(n - 1, k, i);
      DivStep(n - 1, k);
    }
  }

  /** A larger count never gives a region fewer replicas. */
  lemma {:induction false} ShareIsMonotone(n: nat, m: nat, k: int, i: int)
    requires n <= m && 0 <= i < k
    ensures Share(n, k, i) <= Share(m, k, i)
    decreases m
  {
    SharesAreDealt(n, k, i);
    SharesAreDealt(m, k, i);
    if n < m {
      ShareIsMonotone(n, m - 1, k, i);
      SharesAreDealt(m - 1, k, i);
    }
  }

  lemma ShareIsBalanced(n: int, k: int, i: int, j: int)
    requires k > 0 && i <= j
    ensures Share(n, k, j) <= Share(n, k, i) <= Share(n, k, j) + 1
  {
  }

  // ------------------------------------------------------------------
  // Writing
  // ------------------------------------------------------------------

  /** The map distribute fills: the last entry for a region wins. */
  function Spread(n: int, k: int, regions: seq<Region>): map<Region, int>
    requires k > 0
  {
    if regions == [] then map[]
    else
      var last := |regions| - 1;
      Spread(n, k, regions[..last])[regions[last] := Share(n, k, last)]
  }

  function Distribution(n: int, regions: seq<Region>): map<Region, int> {
    if regions == [] then map[] else Spread(n, |regions|, regions)
  }

  method Distribute(n: int, regions: seq<Region>) returns (out: map<Region, int>)
    ensures out == Distribution(n, regions)
    ensures out.Keys == Elems(regions)
  {
    assert Elems<Region>([]) == {};
    out := map[];
    if |regions| == 0 {
      return;
    }
    var k := |regions|;
    var base := if n >= 0 then n / k else -((-n) / k);
    var rem := n - base * k;
    for i := 0 to k
      invariant out == Spread(n, k, regions[..i])
    {
      assert regions[..i + 1][..i] == regions[..i];
      var c := base;
      if i < rem {
        c := c + 1;
      }
      out := out[regions[i] := c];
    }
    assert regions[..k] == regions;
    SpreadKeys(n, k, regions);
  }

  /** A region gets the share of its last place in the list. */
  lemma {:induction false} SpreadAt(n: int, k: int, regions: seq<Region>, i: nat)
    requires k > 0 && i < |regions| && forall j :: i < j < |regions| ==> regions[j] != regions[i]
    ensures regions[i] in Spread(n, k, regions) && Spread(n, k, regions)[regions[i]] == Share(n, k, i)
  {
    var last := |regions| - 1;
    if i < last {
      SpreadAt(n, k, regions[..last], i);
      assert regions[..last][i] == regions[i];
    }
  }

  lemma {:induction false} SpreadKeys(n: int, k: int, regions: seq<Region>)
    requires k > 0
    ensures Spread(n, k, regions).Keys == Elems(regions)
  {
    if regions == [] {
      assert Elems(regions) == {};
    } else {
      var last := |regions| - 1;
      SpreadKeys(n, k, regions[..last]);
      assert regions == regions[..last] + [regions[last]];
      ElemsAppend(regions[..last], regions[last]);
    }
  }

  /** The sum of m over the listed regions. */
  function Total(m: map<Region, int>, regions: seq<Region>): int
    requires forall i :: 0 <= i < |regions| ==> regions[i] in m
  {
    if regions == [] then 0
    else Total(m, regions[..|regions| - 1]) + m[regions[|regions| - 1]]
  }

  /** The first j shares out of k. */
  function Shares(n: int, k: int, j: nat): int
    requires k > 0
  {
    if j == 0 then 0 else Shares(n, k, j - 1) + Share(n, k, j - 1)
  }

  lemma {:induction false} SharesSum(n: int, k: int, j: nat)
    requires k > 0
    ensures Shares(n, k, j) == Quotient(n, k) * j +
      (if Remainder(n, k) <= 0 then 0 else if j <= Remainder(n, k) then j else Remainder(n, k))
  {
    if j > 0 {
      SharesSum(n, k, j - 1);
    }
  }

  lemma {:induction false} TotalIsShares(n: int, k: int, regions: seq<Region>, m: map<Region, int>)
    requires k > 0
    requires forall i :: 0 <= i < |regions| ==> regions[i] in m && m[regions[i]] == Share(n, k, i)
    ensures Total(m, regions) == Shares(n, k, |regions|)
  {
    if regions != [] {
      TotalIsShares(n, k, regions[..|regions| - 1], m);
    }
  }

  lemma SpreadTotal(n: int, regions: seq<Region>)
    requires NoDup(regions) && regions != []
    ensures var m := Distribution(n, regions);
      && m.Keys == Elems(regions)
      && (forall i :: 0 <= i < |regions| ==> regions[i] in m)
      && Total(m, regions) == Shares(n, |regions|, |regions|)
  {
    var k := |regions|;
    SpreadKeys(n, k, regions);
    forall i | 0 <= i < k
      ensures regions[i] in Spread(n, k, regions) && Spread(n, k, regions)[regions[i]] == Share(n, k, i)
    {
      SpreadAt(n, k, regions, i);
    }
    TotalIsShares(n, k, regions, Spread(n, k, regions));
  }

  /** The shares of all k regions add up to n unless Go's division left a negative
      remainder behind. */
  lemma SharesAreExact(n: int, k: nat)
    requires k > 0
    ensures Shares(n, k, k) == n <==> n >= 0 || n % k == 0
  {
    SharesSum(n, k, k);
    if n >= 0 {
      assert n == n / k * k + n % k;
      assert Remainder(n, k) == n % k;
    } else {
      NegativeRemainder(n, k);
    }
  }

  lemma NegativeRemainder(n: int, k: int)
    requires n < 0 && k > 0
    ensures Remainder(n, k) <= 0
    ensures Remainder(n, k) == 0 <==> n % k == 0
  {
    var q, r := (-n) / k, (-n) % k;
    assert -n == q * k + r;
    var p, s := n / k, n % k;
    assert n == p * k + s;
    assert (p + q) * k == -(r + s);
    SmallMultiple(p + q, k);
  }

  /** The spread adds up to n for every count that is not negative, and for a
      negative one exactly when it divides evenly. */
  lemma SpreadIsExact(n: int, regions: seq<Region>)
    requires NoDup(regions) && regions != []
    ensures var m := Distribution(n, regions);
      && m.Keys == Elems(regions)
      && (forall i :: 0 <= i < |regions| ==> regions[i] in m)
      && (Total(m, regions) == n <==> n >= 0 || n % |regions| == 0)
  {
    SpreadTotal(n, regions);
    SharesAreExact(n, |regions|);
  }

  /** Regions differ by at most one replica, earlier ones never having fewer. */
  lemma SpreadIsBalanced(n: int, regions: seq<Region>, i: nat, j: nat)
    requires NoDup(regions) && i < j < |regions|
    ensures var m := Distribution(n, regions);
      regions[i] in m && regions[j] in m && m[regions[j]] <= m[regions[i]] <= m[regions[j]] + 1
  {
    SpreadAt(n, |regions|, regions, i);
    SpreadAt(n, |regions|, regions, j);
    ShareIsBalanced(n, |regions|, i, j);
  }

  /** Scaling up never shrinks a region. */
  lemma SpreadIsMonotone(n: nat, m: nat, regions: seq<Region>, r: Region)
    requires NoDup(regions) && n <= m && r in regions
    ensures r in Distribution(n, regions) && r in Distribution(m, regions)
    ensures Distribution(n, regions)[r] <= Distribution(m, regions)[r]
  {
    var i :| 0 <= i < |regions| && regions[i] == r;
    SpreadAt(n, |regions|, regions, i);
    SpreadAt(m, |regions|, regions, i);
    ShareIsMonotone(n, m, |regions|, i);
  }

  // ------------------------------------------------------------------
  // Reading back
  // ------------------------------------------------------------------

  datatype Input = PerRegion(counts: map<Region, int>) | Legacy(count: int)

  /** What SetReplicas asks the platform to store. */
  method SetReplicasInput(regions: seq<Region>, n: int) returns (input: Input)
    ensures input == if regions != [] then PerRegion(Distribution(n, regions)) else Legacy(n)
  {
    if |regions| > 0 {
      var counts := Distribute(n, regions);
      input := PerRegion(counts);
    } else {
      input := Legacy(n);
    }
  }

  /** What discovery is told about a service. */
  datatype Instance = Instance(numReplicas: Option<int>, region: Option<Region>, perRegion: map<Region, int>)

  datatype ServiceState = ServiceState(regions: seq<Region>, replicas: int)

  lemma TotalSnoc(m: map<Region, int>, regions: seq<Region>, r: Region)
    requires (forall i :: 0 <= i < |regions| ==> regions[i] in m) && r in m
    ensures Total(m, regions + [r]) == Total(m, regions) + m[r]
  {
    assert (regions + [r])[..|regions|] == regions;
  }

  /** The last entry of a sits somewhere in b, and the rest are the rest. */
  lemma FindLast(a: seq<Region>, b: seq<Region>) returns (j: nat)
    requires a != [] && multiset(a) == multiset(b)
    ensures j < |b| && b[j] == a[|a| - 1]
    ensures multiset(a[..|a| - 1]) == multiset(b[..j] + b[j + 1..])
  {
    var x := a[|a| - 1];
    assert a == a[..|a| - 1] + [x];
    assert x in multiset(a);
    assert x in multiset(b);
    j :| 0 <= j < |b| && b[j] == x;
    assert b == b[..j] + [b[j]] + b[j + 1..];
    assert multiset(b) == multiset(b[..j] + b[j + 1..]) + multiset{x};
    assert multiset(a) == multiset(a[..|a| - 1]) + multiset{x};
    assert multiset(b[..j] + b[j + 1..]) == multiset(b) - multiset{x};
    assert multiset(a[..|a| - 1]) == multiset(a) - multiset{x};
  }

  /** The order a map is visited in does not change the sum. */
  lemma {:induction false} TotalIgnoresOrder(m: map<Region, int>, a: seq<Region>, b: seq<Region>)
    requires forall i :: 0 <= i < |a| ==> a[i] in m
    requires forall i :: 0 <= i < |b| ==> b[i] in m
    requires multiset(a) == multiset(b)
    ensures Total(m, a) == Total(m, b)
  {
    if a == [] {
      assert |multiset(b)| == 0;
    } else {
      var j := FindLast(a, b);
      TotalIgnoresOrder(m, a[..|a| - 1], b[..j] + b[j + 1..]);
      TotalRemove(m, b, j);
    }
  }

  lemma {:induction false} TotalRemove(m: map<Region, int>, b: seq<Region>, j: nat)
    requires (forall i :: 0 <= i < |b| ==> b[i] in m) && j < |b|
    ensures Total(m, b) == Total(m, b[..j] + b[j + 1..]) + m[b[j]]
  {
    var n := |b| - 1;
    if j == n {
      assert b[..j] + b[j + 1..] == b[..n];
    } else {
      TotalRemove(m, b[..n], j);
      var c := b[..n][..j] + b[..n][j + 1..];
      assert b[..j] + b[j + 1..] == c + [b[n]];
      TotalSnoc(m, c, b[n]);
    }
  }

  /** Visits the configured regions in whatever order the map yields them. */
  method Collect(perRegion: map<Region, int>) returns (regions: seq<Region>, total: int)
    ensures IsListing(regions, perRegion.Keys)
    ensures forall i :: 0 <= i < |regions| ==> regions[i] in perRegion
    ensures total == Total(perRegion, regions)
  {
    total, regions := 0, [];
    var left := perRegion.Keys;
    assert Elems(regions) == {};
    while left != {}
      invariant left <= perRegion.Keys
      invariant IsListing(regions, perRegion.Keys - left)
      invariant forall i :: 0 <= i < |regions| ==> regions[i] in perRegion
      invariant total == Total(perRegion, regions)
      decreases left
    {
      ghost var one := SomeElement(left);
      var r :| r in left;
      ListingSnoc(regions, perRegion.Keys - left, r);
      TotalSnoc(perRegion, regions, r);
      assert perRegion.Keys - left + {r} == perRegion.Keys - (left - {r});
      regions := regions + [r];
      total := total + perRegion[r];
      left := left - {r};
    }
  }

  method Discover(si: Instance) returns (state: ServiceState)
    ensures si.perRegion != map[] ==>
      && Sorted(BY_NAME, state.regions)
      && IsListing(state.regions, si.perRegion.Keys)
      && (forall i :: 0 <= i < |state.regions| ==> state.regions[i] in si.perRegion)
      && state.replicas == Total(si.perRegion, state.regions)
    ensures si.perRegion == map[] ==>
      && state.replicas == (if si.numReplicas.Some? then si.numReplicas.value else -1)
      && state.regions == (if si.region.Some? && si.region.value.name != "" then [si.region.value] else [])
  {
    state := ServiceState([], -1);
    if si.numReplicas.Some? {
      state := state.(replicas := si.numReplicas.value);
    }
    if |si.perRegion| > 0 {
      var regions, total := Collect(si.perRegion);
      var sorted := Sort(BY_NAME, regions);
      SortSorts(BY_NAME, regions);
      ListingPermuted(regions, sorted, si.perRegion.Keys);
      TotalIgnoresOrder(si.perRegion, regions, sorted);
      return ServiceState(sorted, total);
    }
    if si.region.Some? && si.region.value.name != "" {
      state := state.(regions := [si.region.value]);
    }
  }

  lemma ListingSnoc(regions: seq<Region>, keys: set<Region>, r: Region)
    requires IsListing(regions, keys) && r !in keys
    ensures IsListing(regions + [r], keys + {r})
  {
    ElemsAppend(regions, r);
    assert forall i :: 0 <= i < |regions| ==> regions[i] in Elems(regions);
  }

  lemma NamesAreDistinct(regions: seq<Region>)
    ensures NoDup(regions) <==> DistinctKeys(BY_NAME, regions)
  {
    forall i, j | 0 <= i < j < |regions|
      ensures regions[i] != regions[j] <==> BY_NAME(regions[i]) != BY_NAME(regions[j])
    {
    }
  }

  lemma ListingPermuted(a: seq<Region>, b: seq<Region>, keys: set<Region>)
    requires IsListing(a, keys) && multiset(a) == multiset(b)
    requires DistinctKeys(BY_NAME, a) ==> DistinctKeys(BY_NAME, b)
    ensures IsListing(b, keys) && forall i :: 0 <= i < |b| ==> b[i] in keys
  {
    NamesAreDistinct(a);
    NamesAreDistinct(b);
    forall r ensures r in Elems(b) <==> r in keys {
      assert r in b <==> r in multiset(b);
      assert r in a <==> r in multiset(a);
      assert r in keys <==> r in Elems(a);
    }
    forall i | 0 <= i < |b| ensures b[i] in keys {
      assert b[i] in Elems(b);
    }
  }

  /** Two listings of one set are permutations of each other. */
  lemma {:induction false} ListingsPermute(a: seq<Region>, b: seq<Region>, keys: set<Region>)
    requires IsListing(a, keys) && IsListing(b, keys)
    ensures multiset(a) == multiset(b)
  {
    forall r ensures multiset(a)[r] == multiset(b)[r] {
      ListedOnce(a, r);
      ListedOnce(b, r);
      assert r in a <==> r in Elems(a);
      assert r in b <==> r in Elems(b);
    }
  }

  lemma {:induction false} ListedOnce(a: seq<Region>, r: Region)
    requires NoDup(a)
    ensures multiset(a)[r] == if r in a then 1 else 0
  {
    if a != [] {
      var n := |a| - 1;
      ListedOnce(a[..n], r);
      assert a == a[..n] + [a[n]];
    }
  }

  /** Writing a count and discovering it again gives that count back and the same
      regions, sorted; without regions the plain count comes back. */
  method WriteThenDiscover(regions: seq<Region>, n: nat, region: Option<Region>) returns (state: ServiceState)
    requires NoDup(regions)
    ensures state.replicas == n
    ensures regions != [] ==> state.regions == Sort(BY_NAME, regions)
    ensures regions == [] ==> state.regions == (if region.Some? && region.value.name != "" then [region.value] else [])
  {
    var input := SetReplicasInput(regions, n);
    match input
    case Legacy(count) =>
      state := Discover(Instance(Some(count), region, map[]));
    case PerRegion(counts) =>
      SpreadIsExact(n, regions);
      assert regions[0] in counts;
      state := Discover(Instance(None, region, counts));
      ReadBack(regions, counts, state.regions);
  }

  lemma ReadBack(regions: seq<Region>, counts: map<Region, int>, found: seq<Region>)
    requires NoDup(regions) && counts.Keys == Elems(regions)
    requires Sorted(BY_NAME, found) && IsListing(found, counts.Keys)
    requires forall i :: 0 <= i < |regions| ==> regions[i] in counts
    requires forall i :: 0 <= i < |found| ==> found[i] in counts
    ensures found == Sort(BY_NAME, regions)
    ensures Total(counts, found) == Total(counts, regions)
  {
    ListingsPermute(found, regions, counts.Keys);
    NamesAreDistinct(found);
    NamesAreDistinct(regions);
    SortSorts(BY_NAME, regions);
    SortedIsUnique(BY_NAME, found, Sort(BY_NAME, regions));
    TotalIgnoresOrder(counts, found, regions);
  }
}
