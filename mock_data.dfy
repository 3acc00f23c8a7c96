/** The record types of the mock data store (bins, routes, activity logs) and
    the derived dashboard statistics. The fixture lists themselves are inputs
    here: every operation takes the bins and routes it reads as parameters. */
module MockData {
  import opened Options
  import opened JsMath

  datatype BinStatus = Ok | NeedsPickup | Overflowing

  datatype RouteStatus = Pending | InProgress | Completed

  /** A bin record. `zone` and `lastUpdated` are read by the public views although
      the declared type lacks them; here they are explicit fields. Dates are
      milliseconds since the epoch. */
  datatype Bin = Bin(
    id: string,
    binId: string,
    location: string,
    latitude: real,
    longitude: real,
    capacity: int,
    currentFillLevel: int,
    status: BinStatus,
    lastEmptied: int,
    zone: string,
    lastUpdated: int)

  datatype WasteRoute = WasteRoute(
    id: string,
    name: string,
    assignedDriver: string,
    status: RouteStatus,
    stops: seq<string>,
    estimatedDuration: int)

  datatype ActivityLog = ActivityLog(id: string, action: string, details: string, timestamp: int, user: string)

  /** Number of bins with status `s`. */
  function CountBins(bins: seq<Bin>, s: BinStatus): nat
    decreases |bins|
  {
    if bins == [] then 0 else (if bins[0].status == s then 1 else 0) + CountBins(bins[1..], s)
  }

  /** Number of bins whose status is not OK (`b.status !== 'OK'`). */
  function CountNotOk(bins: seq<Bin>): nat
    decreases |bins|
  {
    if bins == [] then 0 else (if bins[0].status != Ok then 1 else 0) + CountNotOk(bins[1..])
  }

  /** A bin is not OK exactly when it needs pickup or overflows, so the count
      splits, and the overflowing ones are among them. */
  lemma {:induction false} NotOkSplits(bins: seq<Bin>)
    ensures CountNotOk(bins) == CountBins(bins, NeedsPickup) + CountBins(bins, Overflowing)
    ensures CountBins(bins, Overflowing) <= CountNotOk(bins) <= |bins|
    ensures CountBins(bins, Ok) + CountNotOk(bins) == |bins|
    decreases |bins|
  {
    if bins != [] {
      NotOkSplits(bins[1..]);
    }
  }

  /** Sum of `currentFillLevel` over the bins. */
  function SumFill(bins: seq<Bin>): int
    decreases |bins|
  {
    if bins == [] then 0 else bins[0].currentFillLevel + SumFill(bins[1..])
  }

  lemma {:induction false} SumFillBounds(bins: seq<Bin>, lo: int, hi: int)
    requires forall i | 0 <= i < |bins| :: lo <= bins[i].currentFillLevel <= hi
    ensures lo * |bins| <= SumFill(bins) <= hi * |bins|
    decreases |bins|
  {
    if bins != [] {
      SumFillBounds(bins[1..], lo, hi);
    }
  }

  datatype MockStatistics = MockStatistics(
    totalBins: nat,
    activeBins: nat,
    criticalBins: nat,
    activeTrucks: nat,
    onRouteTrucks: nat,
    totalCollectedToday: nat,
    totalRoutes: nat,
    avgFillLevel: Option<int>,
    completionRate: nat)

  /** `getMockStatistics`. The average of an empty list is NaN in the source,
      which is `None` here. */
  function GetMockStatistics(bins: seq<Bin>, routes: seq<WasteRoute>): (st: MockStatistics)
    ensures st.totalBins == |bins| && st.totalRoutes == |routes|
    ensures st.activeBins == CountNotOk(bins) && st.criticalBins == CountBins(bins, Overflowing)
    ensures st.criticalBins <= st.activeBins <= st.totalBins
    ensures st.activeTrucks == 5 && st.onRouteTrucks == 2
    ensures st.totalCollectedToday == 15 && st.completionRate == 85
    ensures st.avgFillLevel.None? <==> bins == []
    ensures bins != [] ==>
              var mean := (SumFill(bins) as real) / (|bins| as real);
              (st.avgFillLevel.value as real) - 0.5 <= mean < (st.avgFillLevel.value as real) + 0.5
  {
    NotOkSplits(bins);
    MockStatistics(
      |bins|,
      CountNotOk(bins),
      CountBins(bins, Overflowing),
      5, 2, 15,
      |routes|,
      if bins == [] then None else Some(RoundHalfUp((SumFill(bins) as real) / (|bins| as real))),
      85)
  }

  /** When every fill level is a percentage, so is the rounded average. */
  lemma AvgFillIsPercentage(bins: seq<Bin>, routes: seq<WasteRoute>)
    requires bins != []
    requires forall i | 0 <= i < |bins| :: 0 <= bins[i].currentFillLevel <= 100
    ensures 0 <= GetMockStatistics(bins, routes).avgFillLevel.value <= 100
  {
    SumFillBounds(bins, 0, 100);
    var n := |bins| as real;
    var mean := (SumFill(bins) as real) / n;
    assert 0.0 <= mean <= 100.0 by {
      assert SumFill(bins) as real <= 100.0 * n;
      assert mean * n == SumFill(bins) as real;
    }
  }

  /** The sum of the stop-list lengths. */
  function TotalStops(routes: seq<WasteRoute>): nat
    decreases |routes|
  {
    if routes == [] then 0 else |routes[0].stops| + TotalStops(routes[1..])
  }

  lemma {:induction false} TotalStopsConcat(a: seq<WasteRoute>, b: seq<WasteRoute>)
    ensures TotalStops(a + b) == TotalStops(a) + TotalStops(b)
    decreases |a|
  {
    if a == [] {
      assert a + b == b;
    } else {
      assert (a + b)[1..] == a[1..] + b;
      TotalStopsConcat(a[1..], b);
    }
  }

  /** When every route has a stop, the total is at least the number of routes. */
  lemma {:induction false} TotalStopsLowerBound(routes: seq<WasteRoute>)
    requires forall i | 0 <= i < |routes| :: routes[i].stops != []
    ensures TotalStops(routes) >= |routes|
    decreases |routes|
  {
    if routes != [] {
      TotalStopsLowerBound(routes[1..]);
    }
  }
}
