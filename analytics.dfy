/** The analytics aggregations: overview figures, the bin status distribution,
    collection trends by day, per-route performance, per-driver statistics and
    the top bins. The bins, routes and logs are parameters, and each
    `Math.random()` draw is an input in [0, 1). */
module Analytics {
  import opened Seqs
  import opened Tally
  import opened JsMath
  import opened MockData

  predicate IsEmptied(log: ActivityLog)
  {
    log.action == "Bin Emptied"
  }

  /** `total_collections`: the logs whose action is exactly "Bin Emptied". */
  function TotalCollections(logs: seq<ActivityLog>): (n: nat)
    ensures n <= |logs|
  {
    |Filter(logs, IsEmptied)|
  }

  /** `avg_fill_level`: the mean fill level, where the empty case's NaN falls
      back to 0 through `|| 0`. */
  function AvgFillLevel(bins: seq<Bin>): (avg: real)
    ensures bins == [] ==> avg == 0.0
    ensures bins != [] ==> avg * (|bins| as real) == SumFill(bins) as real
  {
    if bins == [] then 0.0 else (SumFill(bins) as real) / (|bins| as real)
  }

  /** When every fill level is a percentage, so is the average. */
  lemma AvgFillLevelBounds(bins: seq<Bin>)
    requires forall i | 0 <= i < |bins| :: 0 <= bins[i].currentFillLevel <= 100
    ensures 0.0 <= AvgFillLevel(bins) <= 100.0
  {
    if bins != [] {
      SumFillBounds(bins, 0, 100);
      var n := |bins| as real;
      assert AvgFillLevel(bins) * n <= 100.0 * n;
    }
  }

  datatype Overview = Overview(totalBins: nat, totalRoutes: nat, totalCollections: nat, avgFillLevel: real)

  function GetOverview(bins: seq<Bin>, routes: seq<WasteRoute>, logs: seq<ActivityLog>): (o: Overview)
    ensures o.totalBins == |bins| && o.totalRoutes == |routes|
    ensures o.totalCollections == TotalCollections(logs) <= |logs|
    ensures o.avgFillLevel == AvgFillLevel(bins)
  {
    Overview(|bins|, |routes|, TotalCollections(logs), AvgFillLevel(bins))
  }

  function Statuses(bins: seq<Bin>): (ss: seq<BinStatus>)
    ensures |ss| == |bins| && forall i | 0 <= i < |bins| :: ss[i] == bins[i].status
  {
    seq(|bins|, i requires 0 <= i < |bins| => bins[i].status)
  }

  /** The occurrences of a status among the bins' statuses are the bins with that status. */
  lemma {:induction false} StatusOccurrences(bins: seq<Bin>, s: BinStatus)
    ensures multiset(Statuses(bins))[s] == CountBins(bins, s)
    decreases |bins|
  {
    if bins != [] {
      StatusOccurrences(bins[1..], s);
      assert Statuses(bins) == [bins[0].status] + Statuses(bins[1..]);
    }
  }

  /** `binStatusDistribution`: one entry per status present, in order of first
      appearance, with the number of bins in that status; the entries account
      for every bin. */
  method BinStatusDistribution(bins: seq<Bin>) returns (dist: seq<Entry<BinStatus>>)
    ensures Keys(dist) == Dedup(Statuses(bins))
    ensures NoDuplicates(Keys(dist))
    ensures forall s :: s in Keys(dist) <==> exists i :: 0 <= i < |bins| && bins[i].status == s
    ensures forall j | 0 <= j < |dist| :: dist[j].count == CountBins(bins, dist[j].key)
    ensures SumCounts(dist) == |bins|
  {
    dist := TallyKeys(Statuses(bins));
    forall j | 0 <= j < |dist| ensures dist[j].count == CountBins(bins, dist[j].key) {
      StatusOccurrences(bins, dist[j].key);
    }
    forall s ensures s in Keys(dist) <==> exists i :: 0 <= i < |bins| && bins[i].status == s {
      if s in Keys(dist) {
        assert s in Statuses(bins);
      }
    }
  }

  /** The UTC calendar day of a millisecond timestamp, which is what the
      `YYYY-MM-DD` prefix of `toISOString()` names. */
  function DayOf(ms: int): int
  {
    ms / 86400000
  }

  /** The days of the "Bin Emptied" logs, in log order. */
  function EmptiedDays(logs: seq<ActivityLog>): (days: seq<int>)
    ensures |days| == TotalCollections(logs)
  {
    var emptied := Filter(logs, IsEmptied);
    seq(|emptied|, i requires 0 <= i < |emptied| => DayOf(emptied[i].timestamp))
  }

  /** `collectionTrends` after consolidation: one entry per day on which a bin
      was emptied, in order of first appearance, with that day's number of
      collections; together they account for every collection. */
  method CollectionTrends(logs: seq<ActivityLog>) returns (trends: seq<Entry<int>>)
    ensures Keys(trends) == Dedup(EmptiedDays(logs))
    ensures NoDuplicates(Keys(trends))
    ensures forall j | 0 <= j < |trends| :: trends[j].count == multiset(EmptiedDays(logs))[trends[j].key]
    ensures SumCounts(trends) == TotalCollections(logs)
  {
    trends := TallyKeys(EmptiedDays(logs));
  }

  datatype RoutePerformance = RoutePerformance(
    routeName: string, totalBins: nat, completedBins: int, completionRate: int)

  /** One route's row; `rndBins` and `rndRate` are the two random draws. */
  function PerformanceOf(route: WasteRoute, rndBins: real, rndRate: real): (p: RoutePerformance)
    requires 0.0 <= rndBins < 1.0 && 0.0 <= rndRate < 1.0
    ensures p.routeName == route.name && p.totalBins == |route.stops|
    ensures route.status == Completed ==> p.completedBins == p.totalBins && p.completionRate == 100
    ensures route.status != Completed ==>
              && (p.totalBins > 0 ==> 0 <= p.completedBins < p.totalBins)
              && (p.totalBins == 0 ==> p.completedBins == 0)
              && 0 <= p.completionRate < 90
  {
    var done := if route.status == Completed then |route.stops| else RandomBelow(rndBins, |route.stops|);
    var rate := if route.status == Completed then 100 else RandomBelow(rndRate, 90);
    RoutePerformance(route.name, |route.stops|, done, rate)
  }

  predicate AllDraws(rnds: seq<real>)
  {
    forall i | 0 <= i < |rnds| :: 0.0 <= rnds[i] < 1.0
  }

  /** `routePerformance`: one row per route, in route order. A completed route
      has every bin done at rate 100; any other route has fewer bins done than
      it has (none when it has none) and a rate below 90. */
  function GetRoutePerformance(routes: seq<WasteRoute>, rndBins: seq<real>, rndRate: seq<real>): (rows: seq<RoutePerformance>)
    requires |rndBins| == |routes| && |rndRate| == |routes|
    requires AllDraws(rndBins) && AllDraws(rndRate)
    ensures |rows| == |routes|
    ensures forall i | 0 <= i < |routes| :: rows[i] == PerformanceOf(routes[i], rndBins[i], rndRate[i])
    ensures forall i | 0 <= i < |routes| :: rows[i].routeName == routes[i].name && rows[i].totalBins == |routes[i].stops|
    ensures forall i | 0 <= i < |routes| :: routes[i].status == Completed ==> rows[i].completedBins == rows[i].totalBins
    ensures forall i | 0 <= i < |routes| :: rows[i].completedBins <= rows[i].totalBins
    ensures forall i | 0 <= i < |routes| :: rows[i].completionRate == 100 <==> routes[i].status == Completed
    ensures forall i | 0 <= i < |routes| :: rows[i].completedBins == rows[i].totalBins > 0 ==> routes[i].status == Completed
  {
    seq(|routes|, i requires 0 <= i < |routes| => PerformanceOf(routes[i], rndBins[i], rndRate[i]))
  }

  datatype DriverStat = DriverStat(driverName: string, totalRoutes: nat, completedRoutes: nat, totalCollections: nat)

  function Drivers(routes: seq<WasteRoute>): (ds: seq<string>)
    ensures |ds| == |routes| && forall i | 0 <= i < |routes| :: ds[i] == routes[i].assignedDriver
  {
    seq(|routes|, i requires 0 <= i < |routes| => routes[i].assignedDriver)
  }

  /** The number of completed routes of driver `d`, counted from the last route back. */
  function CompletedCount(routes: seq<WasteRoute>, d: string): nat
    decreases |routes|
  {
    if routes == [] then 0
    else
      var last := routes[|routes| - 1];
      CompletedCount(routes[..|routes| - 1], d) + (if last.assignedDriver == d && last.status == Completed then 1 else 0)
  }

  /** The sum of the stop counts of driver `d`'s routes. */
  function StopsBy(routes: seq<WasteRoute>, d: string): nat
    decreases |routes|
  {
    if routes == [] then 0
    else
      var last := routes[|routes| - 1];
      StopsBy(routes[..|routes| - 1], d) + (if last.assignedDriver == d then |last.stops| else 0)
  }

  function DrivenBy(d: string): WasteRoute -> bool
  {
    (r: WasteRoute) => r.assignedDriver == d
  }

  function CompletedBy(d: string): WasteRoute -> bool
  {
    (r: WasteRoute) => r.assignedDriver == d && r.status == Completed
  }

  /** The completed count agrees with the source's `filter` formulation: the
      number of the driver's routes with status COMPLETED. */
  lemma {:induction false} CompletedIsFilter(routes: seq<WasteRoute>, d: string)
    ensures CompletedCount(routes, d) == |Filter(routes, CompletedBy(d))|
    decreases |routes|
  {
    if routes != [] {
      var init := routes[..|routes| - 1];
      var last := routes[|routes| - 1];
      assert routes == init + [last];
      CompletedIsFilter(init, d);
      FilterConcat(init, [last], CompletedBy(d));
    }
  }

  /** The stop total agrees with the source's `filter` formulation: the stop
      total of the driver's routes. */
  lemma {:induction false} StopsIsFilter(routes: seq<WasteRoute>, d: string)
    ensures StopsBy(routes, d) == TotalStops(Filter(routes, DrivenBy(d)))
    decreases |routes|
  {
    if routes != [] {
      var init := routes[..|routes| - 1];
      var last := routes[|routes| - 1];
      assert routes == init + [last];
      StopsIsFilter(init, d);
      FilterConcat(init, [last], DrivenBy(d));
      TotalStopsConcat(Filter(init, DrivenBy(d)), Filter([last], DrivenBy(d)));
    }
  }

  /** A driver never has more completed routes than routes. */
  lemma {:induction false} CompletedAtMostRoutes(routes: seq<WasteRoute>, d: string)
    ensures CompletedCount(routes, d) <= multiset(Drivers(routes))[d]
    decreases |routes|
  {
    if routes != [] {
      var init := routes[..|routes| - 1];
      var last := routes[|routes| - 1];
      assert routes == init + [last];
      assert Drivers(routes) == Drivers(init) + [last.assignedDriver];
      CompletedAtMostRoutes(init, d);
    }
  }

  /** A driver with no route has nothing counted. */
  lemma {:induction false} AbsentDriver(p: seq<WasteRoute>, d: string)
    requires d !in Drivers(p)
    ensures CompletedCount(p, d) == 0 && StopsBy(p, d) == 0
    decreases |p|
  {
    if p != [] {
      var init := p[..|p| - 1];
      assert Drivers(p) == Drivers(init) + [p[|p| - 1].assignedDriver];
      AbsentDriver(init, d);
    }
  }

  function TotalsOf(stats: seq<DriverStat>): (es: seq<Entry<string>>)
    ensures |es| == |stats|
    ensures forall j | 0 <= j < |stats| :: es[j] == Entry(stats[j].driverName, stats[j].totalRoutes)
  {
    seq(|stats|, j requires 0 <= j < |stats| => Entry(stats[j].driverName, stats[j].totalRoutes))
  }

  /** The row `st` holds the figures of its driver over the routes `p`. */
  predicate RowOf(st: DriverStat, p: seq<WasteRoute>)
  {
    && st.completedRoutes == CompletedCount(p, st.driverName)
    && st.totalCollections == StopsBy(p, st.driverName)
  }

  /** `stats` holds the per-driver figures of the routes `p`. */
  ghost predicate DriverStatsOf(stats: seq<DriverStat>, p: seq<WasteRoute>)
  {
    && Tallies(TotalsOf(stats), Drivers(p))
    && (forall j | 0 <= j < |stats| :: RowOf(stats[j], p))
  }

  /** One step of the `driverStats` reduce: create the driver's row on first
      sight, then count the route, its completion and its stops. */
  function AddRoute(stats: seq<DriverStat>, route: WasteRoute): seq<DriverStat>
  {
    var d := route.assignedDriver;
    var done := if route.status == Completed then 1 else 0;
    var j := IndexOf(Keys(TotalsOf(stats)), d);
    if j == -1 then stats + [DriverStat(d, 1, done, |route.stops|)]
    else stats[j := DriverStat(d, stats[j].totalRoutes + 1, stats[j].completedRoutes + done,
                               stats[j].totalCollections + |route.stops|)]
  }

  /** What one more route adds to a driver's figures. */
  lemma RouteContribution(p: seq<WasteRoute>, route: WasteRoute, n: string)
    ensures CompletedCount(p + [route], n)
            == CompletedCount(p, n) + (if route.assignedDriver == n && route.status == Completed then 1 else 0)
    ensures StopsBy(p + [route], n) == StopsBy(p, n) + (if route.assignedDriver == n then |route.stops| else 0)
  {
    assert (p + [route])[..|p|] == p;
  }

  /** The driver-name column of `AddRoute` is bumped like a tally. */
  lemma AddRouteTotals(stats: seq<DriverStat>, route: WasteRoute)
    ensures TotalsOf(AddRoute(stats, route)) == Bump(TotalsOf(stats), route.assignedDriver)
  {
    var d := route.assignedDriver;
    var idx := IndexOf(Keys(TotalsOf(stats)), d);
    var r := AddRoute(stats, route);
    if idx == -1 {
      assert TotalsOf(r) == TotalsOf(stats) + [Entry(d, 1)];
    } else {
      assert TotalsOf(r) == TotalsOf(stats)[idx := Entry(d, stats[idx].totalRoutes + 1)];
    }
  }

  lemma AddRouteNewDriver(stats: seq<DriverStat>, p: seq<WasteRoute>, route: WasteRoute)
    requires forall j | 0 <= j < |stats| :: RowOf(stats[j], p)
    requires Keys(TotalsOf(stats)) == Dedup(Drivers(p))
    requires route.assignedDriver !in Keys(TotalsOf(stats))
    ensures forall j | 0 <= j < |AddRoute(stats, route)| :: RowOf(AddRoute(stats, route)[j], p + [route])
  {
    var d := route.assignedDriver;
    var ks := Keys(TotalsOf(stats));
    var r := AddRoute(stats, route);
    assert r == stats + [DriverStat(d, 1, if route.status == Completed then 1 else 0, |route.stops|)];
    AbsentDriver(p, d);
    RouteContribution(p, route, d);
    forall j | 0 <= j < |stats| ensures RowOf(r[j], p + [route]) {
      assert ks[j] == stats[j].driverName;
      RouteContribution(p, route, stats[j].driverName);
    }
  }

  lemma AddRouteKnownDriver(stats: seq<DriverStat>, p: seq<WasteRoute>, route: WasteRoute, idx: nat)
    requires forall j | 0 <= j < |stats| :: RowOf(stats[j], p)
    requires NoDuplicates(Keys(TotalsOf(stats)))
    requires idx < |stats| && IndexOf(Keys(TotalsOf(stats)), route.assignedDriver) == idx
    ensures forall j | 0 <= j < |AddRoute(stats, route)| :: RowOf(AddRoute(stats, route)[j], p + [route])
  {
    var ks := Keys(TotalsOf(stats));
    var r := AddRoute(stats, route);
    RouteContribution(p, route, route.assignedDriver);
    forall j | 0 <= j < |stats| && j != idx ensures RowOf(r[j], p + [route]) {
      assert ks[j] == stats[j].driverName;
      assert ks[j] != ks[idx];
      RouteContribution(p, route, stats[j].driverName);
    }
  }

  lemma AddRouteStats(stats: seq<DriverStat>, p: seq<WasteRoute>, route: WasteRoute)
    requires DriverStatsOf(stats, p)
    ensures DriverStatsOf(AddRoute(stats, route), p + [route])
  {
    var d := route.assignedDriver;
    assert Drivers(p + [route]) == Drivers(p) + [d];
    AddRouteTotals(stats, route);
    BumpTallies(TotalsOf(stats), Drivers(p), d);
    var idx := IndexOf(Keys(TotalsOf(stats)), d);
    if idx == -1 {
      AddRouteNewDriver(stats, p, route);
    } else {
      AddRouteKnownDriver(stats, p, route, idx);
    }
  }

  /** `driverStats`: one row per distinct assigned driver, in order of first
      appearance, with the number of their routes, how many of those are
      completed (never more than the routes), and the sum of their stop counts. */
  method DriverStats(routes: seq<WasteRoute>) returns (stats: seq<DriverStat>)
    ensures Keys(TotalsOf(stats)) == Dedup(Drivers(routes))
    ensures forall j | 0 <= j < |stats| :: stats[j].totalRoutes == multiset(Drivers(routes))[stats[j].driverName]
    ensures forall j | 0 <= j < |stats| :: stats[j].completedRoutes == CompletedCount(routes, stats[j].driverName)
    ensures forall j | 0 <= j < |stats| :: stats[j].completedRoutes <= stats[j].totalRoutes
    ensures forall j | 0 <= j < |stats| :: stats[j].totalCollections == StopsBy(routes, stats[j].driverName)
    ensures SumCounts(TotalsOf(stats)) == |routes|
  {
    stats := [];
    var i := 0;
    while i < |routes|
      invariant 0 <= i <= |routes|
      invariant DriverStatsOf(stats, routes[..i])
    {
      assert routes[..i + 1] == routes[..i] + [routes[i]];
      AddRouteStats(stats, routes[..i], routes[i]);
      stats := AddRoute(stats, routes[i]);
      i := i + 1;
    }
    assert routes[..i] == routes;
    assert Tallies(TotalsOf(stats), Drivers(routes));
    forall j | 0 <= j < |stats|
      ensures stats[j].totalRoutes == multiset(Drivers(routes))[stats[j].driverName]
      ensures stats[j].completedRoutes <= stats[j].totalRoutes
    {
      assert TotalsOf(stats)[j] == Entry(stats[j].driverName, stats[j].totalRoutes);
      CompletedAtMostRoutes(routes, stats[j].driverName);
    }
  }

  datatype TopBin = TopBin(binId: string, location: string, collectionsCount: int, avgFillLevel: int)

  /** The per-bin rows before sorting: `collections_count` is `floor(rnd * 20) + 1`. */
  function BinRows(bins: seq<Bin>, rnds: seq<real>): (rows: seq<TopBin>)
    requires |rnds| == |bins| && AllDraws(rnds)
    ensures |rows| == |bins|
    ensures forall i | 0 <= i < |bins| ::
              && rows[i].binId == bins[i].binId && rows[i].location == bins[i].location
              && rows[i].avgFillLevel == bins[i].currentFillLevel
              && 1 <= rows[i].collectionsCount <= 20
  {
    seq(|bins|, i requires 0 <= i < |bins| =>
      TopBin(bins[i].binId, bins[i].location, RandomBelow(rnds[i], 20) + 1, bins[i].currentFillLevel))
  }

  predicate SortedDesc(s: seq<TopBin>)
  {
    forall i, j | 0 <= i < j < |s| :: s[i].collectionsCount >= s[j].collectionsCount
  }

  /** Insert `x` before the first row with a count not above its own. */
  function Insert(x: TopBin, s: seq<TopBin>): (r: seq<TopBin>)
    ensures multiset(r) == multiset(s) + multiset{x}
    ensures |r| == |s| + 1
    decreases |s|
  {
    if s == [] || x.collectionsCount >= s[0].collectionsCount then
      [x] + s
    else
      assert s == [s[0]] + s[1..];
      [s[0]] + Insert(x, s[1..])
  }

  lemma {:induction false} InsertSorted(x: TopBin, s: seq<TopBin>)
    requires SortedDesc(s)
    ensures SortedDesc(Insert(x, s))
    decreases |s|
  {
    if s != [] && x.collectionsCount < s[0].collectionsCount {
      var rest := Insert(x, s[1..]);
      InsertSorted(x, s[1..]);
      assert rest[0].collectionsCount <= s[0].collectionsCount by {
        if s[1..] != [] && x.collectionsCount < s[1].collectionsCount {
          assert rest[0] == s[1];
        } else {
          assert rest[0] == x;
        }
      }
      var r := [s[0]] + rest;
      forall i, j | 0 <= i < j < |r| ensures r[i].collectionsCount >= r[j].collectionsCount {
        assert r[j] == rest[j - 1];
        if i > 0 {
          assert r[i] == rest[i - 1];
        }
      }
    }
  }

  /** `sort((a, b) => b.collections_count - a.collections_count)`: a stable
      sort by count, largest first (see `SortSorted` and `SortStable`). */
  function SortByCollections(s: seq<TopBin>): (r: seq<TopBin>)
    ensures multiset(r) == multiset(s)
    ensures |r| == |s|
    decreases |s|
  {
    if s == [] then []
    else
      assert s == [s[0]] + s[1..];
      Insert(s[0], SortByCollections(s[1..]))
  }

  lemma {:induction false} SortSorted(s: seq<TopBin>)
    ensures SortedDesc(SortByCollections(s))
    decreases |s|
  {
    if s != [] {
      SortSorted(s[1..]);
      InsertSorted(s[0], SortByCollections(s[1..]));
    }
  }

  function HasCount(c: int): TopBin -> bool
  {
    (b: TopBin) => b.collectionsCount == c
  }

  /** The rows with count `c`, in order. */
  function WithCount(s: seq<TopBin>, c: int): seq<TopBin>
    decreases |s|
  {
    if s == [] then []
    else (if s[0].collectionsCount == c then [s[0]] else []) + WithCount(s[1..], c)
  }

  /** `WithCount` is the source's `filter` on the count. */
  lemma {:induction false} WithCountIsFilter(s: seq<TopBin>, c: int)
    ensures WithCount(s, c) == Filter(s, HasCount(c))
    decreases |s|
  {
    if s != [] {
      WithCountIsFilter(s[1..], c);
    }
  }

  /** Inserting `x` keeps it ahead of the rows of equal count, so each count's
      rows stay in their original order. */
  /** Prefixes of which one is empty commute. */
  lemma SwapEmpty(a: seq<TopBin>, b: seq<TopBin>, w: seq<TopBin>)
    requires a == [] || b == []
    ensures a + (b + w) == b + (a + w)
  {
    if a == [] {
      assert a + (b + w) == b + w == b + (a + w);
    } else {
      assert a + (b + w) == a + w == b + (a + w);
    }
  }

  lemma {:induction false} InsertStable(x: TopBin, s: seq<TopBin>, c: int)
    ensures WithCount(Insert(x, s), c) == WithCount([x] + s, c)
    decreases |s|
  {
    if s != [] && x.collectionsCount < s[0].collectionsCount {
      var rest := Insert(x, s[1..]);
      var hs := if s[0].collectionsCount == c then [s[0]] else [];
      var hx := if x.collectionsCount == c then [x] else [];
      assert ([s[0]] + rest)[1..] == rest;
      assert ([x] + s[1..])[1..] == s[1..];
      assert ([x] + s)[1..] == s;
      // x and s[0] have different counts, so at most one of them is kept
      assert hs == [] || hx == [];
      calc {
        WithCount(Insert(x, s), c);
        WithCount([s[0]] + rest, c);
        hs + WithCount(rest, c);
        { InsertStable(x, s[1..], c); }
        hs + WithCount([x] + s[1..], c);
        hs + (hx + WithCount(s[1..], c));
        { SwapEmpty(hs, hx, WithCount(s[1..], c)); }
        hx + (hs + WithCount(s[1..], c));
        hx + WithCount(s, c);
        WithCount([x] + s, c);
      }
    } else {
      assert Insert(x, s) == [x] + s;
    }
  }

  lemma {:induction false} SortKeepsCountOrder(s: seq<TopBin>, c: int)
    ensures WithCount(SortByCollections(s), c) == WithCount(s, c)
    decreases |s|
  {
    if s != [] {
      var sortedRest := SortByCollections(s[1..]);
      InsertStable(s[0], sortedRest, c);
      SortKeepsCountOrder(s[1..], c);
      assert ([s[0]] + sortedRest)[1..] == sortedRest;
    }
  }

  /** Rows of equal count keep their relative order through the sort. */
  lemma SortStable(s: seq<TopBin>, c: int)
    ensures Filter(SortByCollections(s), HasCount(c)) == Filter(s, HasCount(c))
  {
    SortKeepsCountOrder(s, c);
    WithCountIsFilter(s, c);
    WithCountIsFilter(SortByCollections(s), c);
  }

  function Min(a: int, b: int): int
  {
    if a <= b then a else b
  }

  /** `topBins`: the rows sorted by count, largest first, cut to ten. */
  function TopBins(bins: seq<Bin>, rnds: seq<real>): (top: seq<TopBin>)
    requires |rnds| == |bins| && AllDraws(rnds)
    ensures |top| == Min(10, |bins|)
  {
    var sorted := SortByCollections(BinRows(bins, rnds));
    sorted[..Min(10, |sorted|)]
  }

  /** In a sorted sequence no row past the first `n` has a larger count than
      any of the first `n`. */
  lemma PrefixDominates(sorted: seq<TopBin>, n: nat)
    requires SortedDesc(sorted) && n <= |sorted|
    ensures forall i, x | 0 <= i < n && x in multiset(sorted) && x !in multiset(sorted[..n]) ::
              sorted[i].collectionsCount >= x.collectionsCount
  {
    forall i, x | 0 <= i < n && x in multiset(sorted) && x !in multiset(sorted[..n])
      ensures sorted[i].collectionsCount >= x.collectionsCount
    {
      assert sorted == sorted[..n] + sorted[n..];
      assert x in multiset(sorted[n..]);
      var k :| 0 <= k < |sorted[n..]| && sorted[n..][k] == x;
      assert sorted[n + k] == x;
    }
  }

  /** The top rows are sorted, are drawn from the bins' rows, and no row left
      out has a larger count than any row kept. */
  lemma TopBinsSpec(bins: seq<Bin>, rnds: seq<real>)
    requires |rnds| == |bins| && AllDraws(rnds)
    ensures SortedDesc(TopBins(bins, rnds))
    ensures multiset(TopBins(bins, rnds)) <= multiset(BinRows(bins, rnds))
    ensures forall i, x | 0 <= i < |TopBins(bins, rnds)| && x in multiset(BinRows(bins, rnds))
                          && x !in multiset(TopBins(bins, rnds)) ::
              TopBins(bins, rnds)[i].collectionsCount >= x.collectionsCount
  {
    var rows := BinRows(bins, rnds);
    var sorted := SortByCollections(rows);
    var n := Min(10, |sorted|);
    SortSorted(rows);
    assert sorted == sorted[..n] + sorted[n..];
    PrefixDominates(sorted, n);
  }
}
