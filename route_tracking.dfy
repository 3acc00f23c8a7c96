/** The route tracking page: a card per route with a status badge, a progress
    figure and a time-remaining line, and the route summary card. The
    `Math.random()` draws are parameters in [0, 1). */
module RouteTracking {
  import opened Seqs
  import opened Strings
  import opened MockData
  import opened JsMath

  datatype RouteView = RouteView(status: string, color: string, bg: string)

  /** The badge of a route. */
  function GetRouteStatus(route: WasteRoute): (v: RouteView)
    ensures v.status == "completed" <==> route.status == Completed
    ensures v.status == "in_progress" <==> route.status == InProgress
    ensures v.status == "pending" <==> route.status == Pending
  {
    match route.status
    case Completed => RouteView("completed", "text-emerald-600", "bg-emerald-50")
    case InProgress => RouteView("in_progress", "text-blue-600", "bg-blue-50")
    case Pending => RouteView("pending", "text-slate-600", "bg-slate-50")
  }

  /** The progress percentage: `Math.floor(rnd * 60) + 40` for a route in progress. */
  function GetEstimatedCompletion(route: WasteRoute, rnd: real): (p: int)
    requires 0.0 <= rnd < 1.0
    ensures route.status == Completed ==> p == 100
    ensures route.status == Pending ==> p == 0
    ensures route.status == InProgress ==> 40 <= p <= 99
  {
    match route.status
    case Completed => 100
    case InProgress => (rnd * 60.0).Floor + 40
    case Pending => 0
  }

  /** The progress figure is always a percentage, and is 100 only for a completed route. */
  lemma CompletionIsPercentage(route: WasteRoute, rnd: real)
    requires 0.0 <= rnd < 1.0
    ensures 0 <= GetEstimatedCompletion(route, rnd) <= 100
    ensures GetEstimatedCompletion(route, rnd) == 100 <==> route.status == Completed
  {
  }

  /** The time-remaining line before rendering. */
  datatype TimeRemaining = Done | StartsIn(minutes: int) | Remaining(minutes: int)

  function GetTimeRemaining(route: WasteRoute, rnd: real): (t: TimeRemaining)
    requires 0.0 <= rnd < 1.0
    ensures t.Done? <==> route.status == Completed
    ensures t.StartsIn? <==> route.status == Pending
    ensures t.StartsIn? ==> 0 <= t.minutes < 60
    ensures t.Remaining? && route.estimatedDuration > 0 ==> 0 <= t.minutes < route.estimatedDuration
    ensures t.Remaining? && route.estimatedDuration <= 0 ==> route.estimatedDuration <= t.minutes <= 0
  {
    match route.status
    case Completed => Done
    case Pending => StartsIn(RandomBelow(rnd, 60))
    case InProgress => Remaining(RandomBelow(rnd, route.estimatedDuration))
  }

  /** The rendered line. */
  function RenderTimeRemaining(t: TimeRemaining): string
  {
    match t
    case Done => "Completed"
    case StartsIn(m) => "Starts in " + IntToString(m) + " min"
    case Remaining(m) => IntToString(m) + " min remaining"
  }

  /** The card reads "Completed" exactly for a completed route. */
  lemma CompletedLineIff(route: WasteRoute, rnd: real)
    requires 0.0 <= rnd < 1.0
    ensures RenderTimeRemaining(GetTimeRemaining(route, rnd)) == "Completed" <==> route.status == Completed
  {
    var t := GetTimeRemaining(route, rnd);
    var line := RenderTimeRemaining(t);
    if t.StartsIn? {
      assert line[0] == 'S' && line[1] == 't';
    } else if t.Remaining? {
      var digits := IntToString(t.minutes);
      assert line[0] == digits[0];
      assert digits[0] == '-' || '0' <= digits[0] <= '9';
    }
  }

  /** The number of routes with status `s` (`routes.filter(r => r.status === s).length`). */
  function CountRoutes(routes: seq<WasteRoute>, s: RouteStatus): (n: nat)
    ensures n <= |routes|
  {
    |Filter(routes, (r: WasteRoute) => r.status == s)|
  }

  /** Every route is counted under exactly one of Completed, In Progress and Pending. */
  lemma {:induction false} SummaryCountsSum(routes: seq<WasteRoute>)
    ensures CountRoutes(routes, Completed) + CountRoutes(routes, InProgress) + CountRoutes(routes, Pending) == |routes|
    decreases |routes|
  {
    if routes != [] {
      SummaryCountsSum(routes[1..]);
    }
  }
}
