# Smart waste management dashboard — a Dafny model

The system is a waste-collection dashboard for a city. An administrator
places bins on a map, draws collection zones and builds collection routes.
The management pages keep tables of bins, routes, zones, trucks and drivers.
Analytics and public statistics are computed from the bin, route and
activity-log records. A demo authentication context and a route guard decide
which pages a user sees. A small ESP8266 firmware measures a bin's fill level
with an ultrasonic sensor and shows it on a four-digit display.

This project models the logic of those pieces. It does not model their
rendering. There is one module per source file:

| module | source file | form |
|---|---|---|
| `MapPage` | `src/pages/admin/MapPage.tsx` | class `MapPageState` whose methods are the event handlers |
| `RouteDialog`, `BinsManagement`, `RoutesManagement`, `ZonesManagement`, `TrucksManagement`, `DriversManagement` | the management components | a state class per component, plus pure helpers |
| `RouteTracking` | `src/components/route-tracking.tsx` | status, progress and time-remaining helpers |
| `Analytics` | `src/lib/analytics.ts` | folds as functions; the dictionary reductions as loop methods |
| `MockData` | `src/data/mockData.ts` | the record types and `getMockStatistics` |
| `PublicData` | `src/data/publicData.ts` | the public bin records and statistics |
| `PublicMapPage` | `src/pages/public/PublicMapPage.tsx` | status labels, relative time, marker placement |
| `AuthContext` | `src/contexts/AuthContext.tsx` | class `AuthState` |
| `ProtectedRoute` | `src/components/auth/ProtectedRoute.tsx` | the redirect decision |
| `ActivityLogsView` | `src/components/activity-logs-view.tsx` | the action badge and user line |
| `Firmware` | `ESP/script.py` (Arduino C++) | the median, fill percentage and display choice |

A few helper modules support the rest:

- `Options`, `Seqs` and `Strings` hold option values, filtering and subsequences, substring search, decimal rendering and `split`.
- `JsMath` holds JavaScript's `Math.round` and `Math.ceil`, and `Math.floor(Math.random() * n)`.
- `StatusColors` holds the three colour classes.
- `Tally` covers counting into a plain object, the `acc[k] = (acc[k] || 0) + 1` idiom.

Every source of nondeterminism is a parameter:

- `Math.random()` becomes a real in [0, 1);
- `Date.now()` becomes a natural number of milliseconds;
- generated ids become strings;
- the browser's `confirm` answer becomes a boolean;
- the routing service's answer and the point-in-polygon test become inputs.

## Model

| member | source | states |
|---|---|---|
| `MapPage.GetBinColor` | src/pages/admin/MapPage.tsx:121-128 | green `#22c55e` exactly for OK, amber `#f59e0b` exactly for NeedsPickup, red `#ef4444` exactly for Overflowing, so distinct statuses get distinct colours |
| `MapPage.PressTool` | src/pages/admin/MapPage.tsx:753-778 | from no mode a button enters its own mode; its own active mode returns to none; a button disabled by another mode changes nothing |
| `MapPage.PressToolTwice` | src/pages/admin/MapPage.tsx:753-778 | pressing an enabled button twice restores the starting mode |
| `MapPage.OneToolEnabled` | src/pages/admin/MapPage.tsx:753-778 | while a mode is active only that mode's button is enabled, so at most one creation mode is ever active |
| `MapPage.CloseRing` | src/pages/admin/MapPage.tsx:620 | `[...points, points[0]]` keeps the points, adds one position equal to the first, and with three or more points is a GeoJSON linear ring (section 3.1.6 of RFC 7946) |
| `MapPage.FirstContainingZoneSpec` | src/pages/admin/MapPage.tsx:584-591 | the zone found is the first in list order that contains the point; none is found exactly when no zone contains it |
| `MapPage.FindZone` | src/pages/admin/MapPage.tsx:584-591 | the loop with `break` returns the first containing zone's id |
| `MapPage.LookupCoordinates` | src/pages/admin/MapPage.tsx:632 | `bins.find` gives the coordinates of the first bin with the id, and nothing exactly when no bin has it |
| `MapPage.StopCoordinates` | src/pages/admin/MapPage.tsx:631-633 | stop coordinates in selection order, unknown ids dropped, one per stop when every stop is known |
| `MapPage.FetchRoute` | src/pages/admin/MapPage.tsx:141-169 | fewer than two points come back unchanged; otherwise the road geometry, or the straight-line points on any failure |
| `MapPage.ClearZone` | src/pages/admin/MapPage.tsx:661 | same length; exactly the bins that referenced the zone lose their zone; every other field and bin is unchanged |
| `MapPage.DropStop` | src/pages/admin/MapPage.tsx:666-670 | same routes, same other fields; the bin id leaves every stop list, and the other stops keep their order and multiplicity |
| `MapPage.RemoveZone` | src/pages/admin/MapPage.tsx:659 | the zones kept are exactly those with another id, each as often as before and in their original order |
| `MapPage.RemoveBin` | src/pages/admin/MapPage.tsx:665 | the bins kept are exactly those with another id, each as often as before and in their original order |
| `MapPage.RemoveRoute` | src/pages/admin/MapPage.tsx:674 | the routes kept are exactly those with another id, each as often as before and in their original order |
| `MapPage.CountStatus` | src/pages/admin/MapPage.tsx:816-834 | a status count (the status filter's length) never exceeds the number of bins |
| `MapPage.StatusCountsSum` | src/pages/admin/MapPage.tsx:816-834 | the OK, Needs Pickup and Overflowing counts add up to the number of bins |
| `MapPage.InitialRecordsValid` | src/pages/admin/MapPage.tsx:64-112 | each fixture zone is a single closed ring and each fixture bin names a fixture zone |
| `MapPage.MapPageState.constructor` | src/pages/admin/MapPage.tsx:64-115 | the fixture zones and bins record for record, no routes, no mode, nothing pending; the invariant holds |
| `MapPage.MapPageState.PressToolButton` | src/pages/admin/MapPage.tsx:753-778 | the mode follows `PressTool`; pending points and stops are kept |
| `MapPage.MapPageState.MapClick` | src/pages/admin/MapPage.tsx:570-600 | add-bin mode appends one OK bin with fill 10..49 in the first containing zone and ends the mode; zone mode appends the point; any other mode changes nothing |
| `MapPage.MapPageState.BinClick` | src/pages/admin/MapPage.tsx:356-365 | in route mode an id is appended only when absent; otherwise nothing changes; the stop list stays duplicate-free |
| `MapPage.MapPageState.CompleteZone` | src/pages/admin/MapPage.tsx:612-626 | fewer than three points changes nothing; otherwise one zone `Zone n+1` with the palette colour and a closed ring is appended, the points are cleared and the mode ends |
| `MapPage.MapPageState.CompleteRoute` | src/pages/admin/MapPage.tsx:628-656 | fewer than two stops or a pending request changes nothing; otherwise one route over the stops with the routed geometry or the fallback coordinates is appended, the stops are cleared and the mode ends |
| `MapPage.MapPageState.DeleteZone` | src/pages/admin/MapPage.tsx:658-662 | the zone is removed and its bins lose their zone reference; no bin is removed; every zone reference stays valid |
| `MapPage.MapPageState.DeleteBin` | src/pages/admin/MapPage.tsx:664-671 | the bin is removed and its id leaves every route; routes and their coordinates stay |
| `MapPage.MapPageState.DeleteRoute` | src/pages/admin/MapPage.tsx:673-675 | only the routes with that id are removed |
| `MapPage.MapPageState.CancelCurrentAction` | src/pages/admin/MapPage.tsx:677-681 | the mode ends and both pending lists are emptied; the records are unchanged |
| `MapPage.PlacedBin` | src/pages/admin/MapPage.tsx:574-581 | the new-bin literal: `bin-<id>`, the clicked point, status OK, fill level `floor(rnd*40)+10`, the given zone; `MapPage.MapPageState.MapClick` states it is appended with the zone of `MapPage.FirstContainingZone` |
| `MapPage.DrawnZone` | src/pages/admin/MapPage.tsx:616-621 | the new-zone literal: `zone-<id>`, `Zone n+1`, the palette colour at n mod 6 and the closed ring; `MapPage.MapPageState.CompleteZone` states its geometry is a valid ring |
| `MapPage.InitialZones` | src/pages/admin/MapPage.tsx:64-101 | the three fixture zones, record for record; `MapPage.InitialRecordsValid` states each is one closed ring |
| `MapPage.InitialBins` | src/pages/admin/MapPage.tsx:103-112 | the eight fixture bins, record for record; `MapPage.InitialRecordsValid` states each names a fixture zone |
| `MapPage.FirstContainingZone` | src/pages/admin/MapPage.tsx:584-591 | the zone the placing loop settles on, as a reference definition; `MapPage.FirstContainingZoneSpec` states it is the first containing zone and `MapPage.FindZone` proves the loop equal to it |
| `RouteDialog.ToggleBin` | src/components/route-dialog.tsx:57-59 | the id's membership flips, every other id's membership is kept, an absent id is appended at the end, and removing a present id keeps the other ids in order with their multiplicity |
| `RouteDialog.ToggleKeepsNoDuplicates` | src/components/route-dialog.tsx:57-59 | a duplicate-free selection stays duplicate-free |
| `RouteDialog.ToggleTwice` | src/components/route-dialog.tsx:57-59 | checking and then unchecking a bin restores the selection |
| `RouteDialog.PriorityBins` | src/components/route-dialog.tsx:61 | exactly the Overflowing and Needs Pickup bins, in order |
| `RouteDialog.OtherBins` | src/components/route-dialog.tsx:108-109 | exactly the OK bins, in order |
| `RouteDialog.BinListsPartition` | src/components/route-dialog.tsx:61 | every bin is in exactly one of the two lists, and together they have as many entries as there are bins |
| `RouteDialog.RouteDialogState.constructor` | src/components/route-dialog.tsx:26-29 | empty name, empty selection |
| `RouteDialog.RouteDialogState.SetRouteName` | src/components/route-dialog.tsx:26-29 | only the name changes |
| `RouteDialog.RouteDialogState.Toggle` | src/components/route-dialog.tsx:57-59 | the selection becomes `ToggleBin` of the old selection and stays duplicate-free |
| `RouteDialog.RouteDialogState.Submit` | src/components/route-dialog.tsx:31-79 | an empty route name (refused by the `required` input) or an empty selection saves nothing and changes nothing; otherwise a PENDING route with no driver, the selection as stops and 15 minutes per stop is saved, the dialog closes and the form is reset |
| `RouteDialog.NewRoute` | src/components/route-dialog.tsx:41-48 | the route literal: id `route-<time>`, the typed name, PENDING, no driver, the selection as stops and 15 minutes per stop; its fields are stated by `RouteDialog.RouteDialogState.Submit` |
| `BinsManagement.DeleteById` | src/components/bins-management.tsx:17 | the bins kept are exactly those with another id, with their multiplicities and order; an absent id changes nothing |
| `BinsManagement.ReplaceById` | src/components/bins-management.tsx:33 | same length; each position holds the saved bin when its id matches, else the old bin |
| `BinsManagement.ReplaceSingle` | src/components/bins-management.tsx:33 | with unique ids an edit overwrites exactly the one matching position and keeps the ids unique |
| `BinsManagement.ReplaceAbsent` | src/components/bins-management.tsx:33 | saving an edit whose id is not in the table changes nothing |
| `BinsManagement.ReplaceIdempotent` | src/components/bins-management.tsx:33 | saving the same edit twice equals saving it once |
| `BinsManagement.CreatedBin` | src/components/bins-management.tsx:36 | the created record is the dialog's bin with only its id replaced by `new-<time>` |
| `BinsManagement.CreatedIdsDistinct` | src/components/bins-management.tsx:36 | creates at different times get different ids |
| `BinsManagement.BinsManagementState.constructor` | src/components/bins-management.tsx:11-13 | the initial bins, dialog closed, nothing selected |
| `BinsManagement.BinsManagementState.Delete` | src/components/bins-management.tsx:15-18 | a declined confirmation changes nothing; otherwise the bins with that id are removed |
| `BinsManagement.BinsManagementState.Edit` | src/components/bins-management.tsx:20-23 | selects the bin and opens the dialog |
| `BinsManagement.BinsManagementState.Create` | src/components/bins-management.tsx:25-28 | clears the selection and opens the dialog |
| `BinsManagement.BinsManagementState.Save` | src/components/bins-management.tsx:30-39 | edit mode replaces by id and keeps the length; create mode appends one bin with a `new-` id after the unchanged old bins; the dialog closes |
| `RoutesManagement.DeleteById` | src/components/routes-management.tsx:24 | the routes kept are exactly those with another id, with their multiplicities and order; an absent id changes nothing |
| `RoutesManagement.DeleteIdempotent` | src/components/routes-management.tsx:24 | deleting twice by one id equals deleting once |
| `RoutesManagement.CreateThenDelete` | src/components/routes-management.tsx:22-30 | creating a route with a fresh id and deleting that id restores the table |
| `RoutesManagement.RoutesManagementState.constructor` | src/components/routes-management.tsx:19-20 | the initial routes, dialog closed |
| `RoutesManagement.RoutesManagementState.Delete` | src/components/routes-management.tsx:22-25 | a declined confirmation changes nothing; otherwise the routes with that id are removed |
| `RoutesManagement.RoutesManagementState.OpenDialog` | src/components/routes-management.tsx:66 | the dialog opens and the table is unchanged |
| `RoutesManagement.RoutesManagementState.Create` | src/components/routes-management.tsx:27-30 | the route is appended after the unchanged old routes and the dialog closes |
| `ZonesManagement.FormSupervisor` | src/components/zones-management.tsx:141 | an empty supervisor entry is stored as absent, any other entry as itself |
| `ZonesManagement.PriorityLabel` | src/components/zones-management.tsx:72-95 | each priority has its own badge label |
| `ZonesManagement.NewZone` | src/components/zones-management.tsx:97-102 | the form data under a `zone-<time>` id with no bins |
| `ZonesManagement.DeleteById` | src/components/zones-management.tsx:109 | the zones kept are exactly those with another id, with their multiplicities and order; an absent id changes nothing |
| `ZonesManagement.HighPriorityCount` | src/components/zones-management.tsx:256 | the High Priority figure is at most the number of zones |
| `ZonesManagement.HighPriorityAll` | src/components/zones-management.tsx:250-256 | the figure equals the zone count exactly when every zone is HIGH |
| `ZonesManagement.HighPriorityAppend` | src/components/zones-management.tsx:256 | adding a zone raises the figure by one exactly when it is HIGH |
| `ZonesManagement.TotalBinsConcat` | src/components/zones-management.tsx:262 | the Total Bins sum is additive over concatenation |
| `ZonesManagement.TotalBinsSubsequence` | src/components/zones-management.tsx:262 | with non-negative bin counts, deleting zones never raises Total Bins |
| `ZonesManagement.ZonesManagementState.constructor` | src/components/zones-management.tsx:25-70 | the four mock zones, dialog closed |
| `ZonesManagement.ZonesManagementState.AddZone` | src/components/zones-management.tsx:97-105 | the new zone is appended, Total Bins is unchanged, and the dialog closes |
| `ZonesManagement.ZonesManagementState.DeleteZone` | src/components/zones-management.tsx:107-110 | a declined confirmation changes nothing; otherwise the zones with that id are removed |
| `ZonesManagement.MockZones` | src/components/zones-management.tsx:25-66 | the four initial zones, record for record; `ZonesManagement.ZonesManagementState.constructor` starts the table with them |
| `ZonesManagement.TotalBins` | src/components/zones-management.tsx:262 | the `binCount` reduce; `ZonesManagement.TotalBinsConcat` and `ZonesManagement.TotalBinsSubsequence` state how it behaves under adding and deleting |
| `TrucksManagement.FuelColor` | src/components/trucks-management.tsx:101-105 | emerald exactly for at least 70, yellow exactly for 30..69, red exactly below 30 |
| `TrucksManagement.FuelColorMonotone` | src/components/trucks-management.tsx:101-105 | more fuel never shows a worse colour |
| `TrucksManagement.DaysUntil` | src/components/trucks-management.tsx:108 | the day count is the time until service rounded up to whole days |
| `TrucksManagement.GetServiceStatus` | src/components/trucks-management.tsx:107-112 | "Due Soon" exactly for at most 7 days, "Upcoming" for 8..30, "OK" above 30; only "Due Soon" is urgent |
| `TrucksManagement.ServiceUrgencyMonotone` | src/components/trucks-management.tsx:107-112 | a later due date is never more urgent |
| `TrucksManagement.FuelDefault` | src/components/trucks-management.tsx:154 | an unparsable entry and an entry of 0 both become 100; any other number is kept |
| `TrucksManagement.FormTruckData` | src/components/trucks-management.tsx:149-156 | the defaulted fuel level, service due 90 days later, no location and no driver |
| `TrucksManagement.FreshTruckServiceOk` | src/components/trucks-management.tsx:155 | a truck added through the form shows service status "OK" when it is added |
| `TrucksManagement.NewTruck` | src/components/trucks-management.tsx:114-120 | the form data under a `truck-<time>` id, serviced now, with mileage 0 |
| `TrucksManagement.CountStatus` | src/components/trucks-management.tsx:275-287 | a status count never exceeds the fleet |
| `TrucksManagement.FleetCountsSum` | src/components/trucks-management.tsx:275-287 | the four status counts add up to the fleet size, so the three shown add up to at most that |
| `TrucksManagement.TotalCapacityConcat` | src/components/trucks-management.tsx:293 | the capacity sum is additive over concatenation |
| `TrucksManagement.CountStatusAppend` | src/components/trucks-management.tsx:275-287 | adding a truck raises its own status count by one and no other |
| `TrucksManagement.TrucksManagementState.constructor` | src/components/trucks-management.tsx:67-68 | the initial trucks, dialog closed |
| `TrucksManagement.TrucksManagementState.AddTruck` | src/components/trucks-management.tsx:114-123 | the new truck is appended, total capacity grows by its capacity, and the dialog closes |
| `TrucksManagement.TotalCapacity` | src/components/trucks-management.tsx:293 | the `capacity` reduce; `TrucksManagement.TotalCapacityConcat` states it is additive |
| `DriversManagement.EfficiencyColor` | src/components/drivers-management.tsx:98-102 | emerald exactly for at least 95, yellow exactly for 85..94, red exactly below 85 |
| `DriversManagement.EfficiencyColorMonotone` | src/components/drivers-management.tsx:98-102 | higher efficiency never shows a worse colour |
| `DriversManagement.Initials` | src/components/drivers-management.tsx:187 | the initials hold no space and are no longer than the name |
| `DriversManagement.InitialsOneWord` | src/components/drivers-management.tsx:187 | a single word gives its first letter, and an empty word gives nothing |
| `DriversManagement.InitialsNextWord` | src/components/drivers-management.tsx:187 | a word before a space contributes its first letter ahead of the rest's initials; with the one-word case this fixes the initials of every name |
| `DriversManagement.InitialsBound` | src/components/drivers-management.tsx:187 | the first characters of the split pieces are at most as many as the name's characters, and none is a space |
| `DriversManagement.NewDriver` | src/components/drivers-management.tsx:104-112 | the form data under a `driver-<time>` id with all tallies at zero |
| `DriversManagement.NewDriverShowsRed` | src/components/drivers-management.tsx:98-112 | a new driver shows the red efficiency colour |
| `DriversManagement.DriversManagementState.constructor` | src/components/drivers-management.tsx:70-71 | the initial drivers, dialog closed |
| `DriversManagement.DriversManagementState.AddDriver` | src/components/drivers-management.tsx:104-115 | the new driver is appended after the unchanged old drivers, and the dialog closes |
| `DriversManagement.FirstChars` | src/components/drivers-management.tsx:187 | `map(n => n[0]).join('')` over the split pieces; `DriversManagement.InitialsOneWord`, `DriversManagement.InitialsNextWord` and `DriversManagement.InitialsBound` fix its value |
| `RouteTracking.GetRouteStatus` | src/components/route-tracking.tsx:22-26 | completed, in_progress and pending each exactly for their route status |
| `RouteTracking.GetEstimatedCompletion` | src/components/route-tracking.tsx:28-32 | 100 for COMPLETED, 0 for PENDING, 40..99 for IN_PROGRESS |
| `RouteTracking.CompletionIsPercentage` | src/components/route-tracking.tsx:28-32 | the progress is always a percentage, and it is 100 only for a completed route |
| `RouteTracking.GetTimeRemaining` | src/components/route-tracking.tsx:34-40 | done exactly for COMPLETED; a start delay of 0..59 minutes exactly for PENDING; otherwise a remaining time below the estimated duration |
| `RouteTracking.CompletedLineIff` | src/components/route-tracking.tsx:34-40 | the line reads "Completed" exactly for a completed route |
| `RouteTracking.CountRoutes` | src/components/route-tracking.tsx:129-141 | a status count never exceeds the number of routes |
| `RouteTracking.SummaryCountsSum` | src/components/route-tracking.tsx:129-141 | the Completed, In Progress and Pending counts add up to the number of routes |
| `RouteTracking.RenderTimeRemaining` | src/components/route-tracking.tsx:35-39 | the three template lines; `RouteTracking.CompletedLineIff` states the line reads "Completed" exactly for a completed route |
| `MockData.TotalStopsConcat` | src/components/route-tracking.tsx:147 | the Total Stops sum is additive over concatenation |
| `MockData.TotalStopsLowerBound` | src/components/route-tracking.tsx:147 | when every route has a stop, Total Stops is at least the number of routes |
| `MockData.NotOkSplits` | src/data/mockData.ts:135-136 | the bins not OK are the Needs Pickup ones plus the Overflowing ones |
| `MockData.SumFillBounds` | src/data/mockData.ts:141 | when every fill level lies in a range, the sum lies in that range times the count |
| `MockData.GetMockStatistics` | src/data/mockData.ts:132-144 | totals are the list lengths; criticalBins ≤ activeBins ≤ totalBins; the constants 5, 2, 15 and 85; the average is the mean rounded half up, absent for no bins |
| `MockData.AvgFillIsPercentage` | src/data/mockData.ts:141 | when every fill level is a percentage, so is the rounded average |
| `JsMath.RoundHalfUp` | src/data/mockData.ts:141 | `Math.round`: the nearest integer, halves rounded up |
| `JsMath.CeilDiv` | src/components/trucks-management.tsx:108 | `Math.ceil` of a quotient: the least integer at or above it |
| `JsMath.RandomBelow` | src/components/route-tracking.tsx:36-38 | `Math.floor(Math.random() * n)` lies in 0..n-1 for positive n, and in n..0 otherwise |
| `Analytics.TotalCollections` | src/lib/analytics.ts:44 | the collection count never exceeds the number of logs |
| `Analytics.AvgFillLevel` | src/lib/analytics.ts:45 | the mean fill level, and 0 when there are no bins |
| `Analytics.AvgFillLevelBounds` | src/lib/analytics.ts:45 | when every fill level is a percentage, so is the average |
| `Analytics.GetOverview` | src/lib/analytics.ts:42-45 | the bin and route totals, the collection count and the average fill |
| `Analytics.Statuses` | src/lib/analytics.ts:48-49 | the statuses of the bins, in bin order |
| `Analytics.StatusOccurrences` | src/lib/analytics.ts:48-49 | a status occurs among the statuses as often as bins have it |
| `Analytics.BinStatusDistribution` | src/lib/analytics.ts:48-56 | one entry per distinct status in first-occurrence order, each with its bin count; the counts add up to the number of bins |
| `Analytics.EmptiedDays` | src/lib/analytics.ts:59-64 | one date per "Bin Emptied" log |
| `Analytics.CollectionTrends` | src/lib/analytics.ts:59-70 | one entry per distinct date, each with its collection count; the counts add up to total collections |
| `Analytics.PerformanceOf` | src/lib/analytics.ts:74-79 | a COMPLETED route has every bin done at rate 100; any other route has fewer bins done than stops (none without stops) and a rate below 90 |
| `Analytics.GetRoutePerformance` | src/lib/analytics.ts:74-79 | row i is `PerformanceOf` route i: its name and stop count, all bins done for a COMPLETED route, completed bins never above total bins, and the rate 100 exactly for completed routes |
| `Analytics.Drivers` | src/lib/analytics.ts:82-83 | the assigned driver of each route, in route order |
| `Analytics.CompletedIsFilter` | src/lib/analytics.ts:92 | the completed count equals the number of the driver's routes that are COMPLETED |
| `Analytics.StopsIsFilter` | src/lib/analytics.ts:93 | the collections figure equals the stop total of the driver's routes |
| `Analytics.CompletedAtMostRoutes` | src/lib/analytics.ts:91-92 | a driver never has more completed routes than routes |
| `Analytics.AbsentDriver` | src/lib/analytics.ts:82-95 | a driver with no route has nothing counted |
| `Analytics.TotalsOf` | src/lib/analytics.ts:91 | the driver-name and route-count column of the rows |
| `Analytics.RouteContribution` | src/lib/analytics.ts:91-93 | one more route adds its completion and its stops to its own driver only |
| `Analytics.AddRouteTotals` | src/lib/analytics.ts:83-91 | one reduce step bumps the route-count column like a tally |
| `Analytics.AddRouteNewDriver` | src/lib/analytics.ts:83-93 | a route of a new driver appends a correct row and keeps the others correct |
| `Analytics.AddRouteKnownDriver` | src/lib/analytics.ts:91-93 | a route of a known driver updates that row in place and keeps every row correct |
| `Analytics.AddRouteStats` | src/lib/analytics.ts:82-95 | one reduce step keeps the rows the per-driver figures of the routes seen |
| `Analytics.DriverStats` | src/lib/analytics.ts:82-95 | one row per distinct driver in first-occurrence order, with route count, completed count (≤ route count) and stop total; the route counts add up to the number of routes |
| `Analytics.BinRows` | src/lib/analytics.ts:99-103 | one row per bin carrying its id, location and fill level, with a count of 1..20 |
| `Analytics.Insert` | src/lib/analytics.ts:104 | insertion adds exactly the one row |
| `Analytics.InsertSorted` | src/lib/analytics.ts:104 | inserting into a sorted list keeps it sorted |
| `Analytics.SortByCollections` | src/lib/analytics.ts:104 | the sort is a permutation |
| `Analytics.SortSorted` | src/lib/analytics.ts:104 | the result is sorted by count, largest first |
| `Analytics.InsertStable` | src/lib/analytics.ts:104 | insertion keeps rows of equal count in order |
| `Analytics.SortStable` | src/lib/analytics.ts:104 | rows of equal count keep their relative order through the sort |
| `Analytics.TopBins` | src/lib/analytics.ts:99-104 | ten rows, or fewer when there are fewer bins |
| `Analytics.PrefixDominates` | src/lib/analytics.ts:104 | in a sorted list no row past the first n has a larger count than one of the first n |
| `Analytics.TopBinsSpec` | src/lib/analytics.ts:99-104 | the top rows are sorted, are drawn from the bins' rows, and no row left out has a larger count than a row kept |
| `Analytics.IsEmptied` | src/lib/analytics.ts:44 | the `log.action === "Bin Emptied"` test; used by `Analytics.TotalCollections` and `Analytics.EmptiedDays` |
| `Analytics.DayOf` | src/lib/analytics.ts:62 | the UTC day of a timestamp, standing for the `toISOString()` date prefix; `Analytics.CollectionTrends` groups by it |
| `Analytics.AddRoute` | src/lib/analytics.ts:83-93 | one step of the `driverStats` reduce; `Analytics.AddRouteStats` states it keeps every row equal to the driver's route, completion and stop figures |
| `Tally.TallyKeys` | src/lib/analytics.ts:48-51 | counting into an object gives one entry per distinct key in first-insertion order, each with its number of occurrences, adding up to the input length |
| `Tally.BumpTallies` | src/lib/analytics.ts:49 | one increment of the object entry for k turns the tally of a list into the tally of that list extended by k |
| `Tally.Bump` | src/lib/analytics.ts:49 | `acc[k] = (acc[k] || 0) + 1`; `Tally.BumpTallies` states it turns the tally of a list into the tally of the list extended by k |
| `PublicData.GetPublicBins` | src/data/publicData.ts:32-43 | one public record per bin, in order, copying the shown fields and taking the fill level from `currentFillLevel` |
| `PublicData.PublicViewHidesPrivate` | src/data/publicData.ts:32-43 | the public view does not depend on the removed fields |
| `PublicData.PickupCount` | src/data/publicData.ts:52-54 | the bins needing pickup are the Needs Pickup ones plus the Overflowing ones |
| `PublicData.PickupBounds` | src/data/publicData.ts:52-57 | overflowingBins ≤ binsNeedingPickup ≤ totalBins |
| `PublicData.PickupZones` | src/data/publicData.ts:63-71 | one zone per bin needing pickup |
| `PublicData.PickupZonesMembers` | src/data/publicData.ts:63-71 | a zone is counted exactly when some bin in it needs pickup |
| `PublicData.FirstMax` | src/data/publicData.ts:75 | the stable sort's first entry: a largest count, and every earlier entry strictly smaller |
| `PublicData.FallbackZone` | src/data/publicData.ts:76-78 | the first bin's zone, or "N/A" when there are no bins or that zone is empty |
| `PublicData.GetPublicStatistics` | src/data/publicData.ts:48-91 | the counts above, incidents equal overflowing, 5 pickups; the most affected zone has the most bins needing pickup and is the first such zone met, or the fallback when none needs pickup |
| `PublicData.GetBinMarkerColor` | src/data/publicData.ts:96-107 | green `#22c55e` exactly for OK, yellow `#eab308` for NEEDS_PICKUP, red `#ef4444` for OVERFLOWING |
| `PublicData.ToPublic` | src/data/publicData.ts:33-42 | one public record; `PublicData.GetPublicBins` states its fields, and `PublicData.PublicViewHidesPrivate` that it ignores the removed fields |
| `PublicMapPage.StatusBadgeVariant` | src/pages/public/PublicMapPage.tsx:12-23 | default exactly for OK, secondary for NEEDS_PICKUP, destructive for OVERFLOWING |
| `PublicMapPage.StatusLabel` | src/pages/public/PublicMapPage.tsx:25-36 | "OK", "Needs Pickup" and "Overflowing", each exactly for its status |
| `PublicMapPage.ElapsedOf` | src/pages/public/PublicMapPage.tsx:38-50 | just now under a minute, the future included; minutes under an hour; hours under a day; days from then on; each count is the whole number of units elapsed |
| `PublicMapPage.UnitWord` | src/pages/public/PublicMapPage.tsx:44-50 | the unit word is plural exactly when the count is above one |
| `PublicMapPage.RenderWords` | src/pages/public/PublicMapPage.tsx:44-50 | an elapsed text splits into the number, the unit word and "ago", and the number reads back as the count |
| `PublicMapPage.RenderJustNowOnly` | src/pages/public/PublicMapPage.tsx:43-50 | only a time under a minute is shown as "Just now" |
| `PublicMapPage.RenderInjective` | src/pages/public/PublicMapPage.tsx:43-50 | different elapsed times are shown as different texts |
| `PublicMapPage.FormatLastUpdated` | src/pages/public/PublicMapPage.tsx:38-51 | "Just now" exactly when under a minute has passed, else three words ending in "ago" |
| `PublicMapPage.MarkerPeriodic` | src/pages/public/PublicMapPage.tsx:114-121 | marker positions repeat every five bins |
| `PublicMapPage.MarkerDistinctWithinFive` | src/pages/public/PublicMapPage.tsx:114-121 | any five consecutive bins get five different positions |
| `PublicMapPage.Render` | src/pages/public/PublicMapPage.tsx:43-50 | the "Just now" and `<n> <unit> ago` template literals; `PublicMapPage.RenderWords`, `PublicMapPage.RenderJustNowOnly` and `PublicMapPage.RenderInjective` state what the text says |
| `PublicMapPage.MarkerPosition` | src/pages/public/PublicMapPage.tsx:114-121 | `positions[idx % positions.length]`; `PublicMapPage.MarkerPeriodic` and `PublicMapPage.MarkerDistinctWithinFive` state its period |
| `AuthContext.MockUser` | src/contexts/AuthContext.tsx:25-40 | the mock user of a role has that role |
| `AuthContext.UserForEmail` | src/contexts/AuthContext.tsx:45-55 | "admin" in the address wins; otherwise "driver"; nothing exactly when neither appears |
| `AuthContext.MockAddressesSignIn` | src/contexts/AuthContext.tsx:25-53 | each mock user's own address signs that user in |
| `AuthContext.AuthState.constructor` | src/contexts/AuthContext.tsx:43 | the demo starts signed in as the admin |
| `AuthContext.AuthState.Login` | src/contexts/AuthContext.tsx:45-55 | succeeds exactly when the address names a mock user and signs that user in; a refused login keeps the user; the password is ignored |
| `AuthContext.AuthState.Logout` | src/contexts/AuthContext.tsx:57-59 | nobody is signed in afterwards |
| `AuthContext.AuthState.SwitchRole` | src/contexts/AuthContext.tsx:61-63 | the mock user of the chosen role is signed in |
| `ProtectedRoute.Guard` | src/components/auth/ProtectedRoute.tsx:14-27 | login page exactly when nobody is signed in; the page exactly when no role is required or it matches; otherwise the user's own dashboard |
| `ProtectedRoute.RedirectSettles` | src/components/auth/ProtectedRoute.tsx:14-27 | a dashboard redirect happens only to a signed-in user whose role the page does not accept, and a page guarded by that user's own role, or by none, shows its content to them |
| `ActivityLogsView.ActionBadge` | src/components/activity-logs-view.tsx:7-12 | the first of "created", "updated" and "deleted" found picks the badge, case-sensitively; otherwise the action's own text |
| `ActivityLogsView.RouteCreatedFallsThrough` | src/data/mockData.ts:118 | the fixture action "Route Created" gets the plain badge with its own text |
| `ActivityLogsView.RouteCreatedLacksCreated` | src/data/mockData.ts:118 | "Route Created" does not contain "created" |
| `ActivityLogsView.RouteCreatedLacksUpdated` | src/data/mockData.ts:118 | "Route Created" does not contain "updated" |
| `ActivityLogsView.RouteCreatedLacksDeleted` | src/data/mockData.ts:118 | "Route Created" does not contain "deleted" |
| `ActivityLogsView.UserLine` | src/components/activity-logs-view.tsx:33 | "System" for an empty user, else "By " followed by the user |
| `ActivityLogsView.UserLineInjective` | src/components/activity-logs-view.tsx:33 | different users give different lines, and no user's line reads "System" |
| `Firmware.Median` | ESP/script.py:72-76 | one of the three readings, between their minimum and maximum, with at least two readings on each side |
| `Firmware.MedianSymmetric` | ESP/script.py:72-76 | the median does not depend on the order of the readings |
| `Firmware.MedianIgnoresSpike` | ESP/script.py:62-76 | two equal readings decide the result whatever the third |
| `Firmware.DistanceCM` | ESP/script.py:63-77 | -1 when any reading failed; otherwise the swap network returns the median |
| `Firmware.TruncToInt` | ESP/script.py:85 | the C cast truncates toward zero |
| `Firmware.Constrain` | ESP/script.py:86 | `constrain` clamps into the range and keeps values already in it |
| `Firmware.PercentBounds` | ESP/script.py:84 | between the calibration distances the linear figure lies strictly between 0 and 100 |
| `Firmware.PercentDecreasing` | ESP/script.py:84 | the linear figure falls as the distance grows |
| `Firmware.FillPercent` | ESP/script.py:79-87 | -1 exactly for a failed reading; 100 at or inside 4 cm; 0 at or beyond 100 cm; in between the linear figure rounded to within one half |
| `Firmware.FillMonotone` | ESP/script.py:79-87 | a bin further from the sensor is never shown fuller |
| `Firmware.ShowOnDisplay` | ESP/script.py:89-103 | dashes exactly for a failed distance or fill, "FULL" exactly above 99, else the number |
| `Firmware.ReadingDisplay` | ESP/script.py:79-103 | a reading shows dashes exactly when it failed, "FULL" exactly at fill 100 (always at or inside 4 cm), and 0 for an empty bin |
| `Firmware.Percent` | ESP/script.py:84 | the linear fill figure; `Firmware.PercentBounds` and `Firmware.PercentDecreasing` state its range and direction |
| `Strings.Contains` | src/components/activity-logs-view.tsx:8-10 | `String.prototype.includes`; `Strings.ContainsIff` states it holds exactly when the text occurs at some position |
| `Strings.ContainsIff` | src/components/activity-logs-view.tsx:8-10 | `includes` holds exactly when there is a position where the text occurs |
| `Strings.MissingCharNotContained` | src/components/activity-logs-view.tsx:8-10 | a text lacking one of the characters of the search string does not include it |
| `Strings.NatToString` | src/components/route-dialog.tsx:42 | the decimal digits of a number in a template literal: at least one digit, and no leading zero except for 0 itself |
| `Strings.DecimalRoundTrip` | src/components/route-dialog.tsx:42 | reading the rendered digits back gives the number |
| `Strings.NatToStringInjective` | src/components/route-dialog.tsx:42 | different numbers render to different texts, so ids built from different times differ |
| `Strings.IntToString` | src/components/route-tracking.tsx:36-39 | the decimal rendering of any integer, with a minus sign before a negative one |
| `Strings.Split` | src/components/drivers-management.tsx:187 | `split` on one separator character: at least one piece, and no piece contains the separator |
| `Strings.SplitJoin` | src/components/drivers-management.tsx:187 | joining the pieces of a split with the separator gives back the text |
| `Strings.SplitLength` | src/components/drivers-management.tsx:187 | a split has one more piece than the text has separators |
| `Strings.SplitNoSeparator` | src/components/drivers-management.tsx:187 | a text without the separator splits into itself alone |
| `Strings.SplitFirstWord` | src/components/drivers-management.tsx:187 | a separator-free word followed by the separator is the first piece, and the rest of the text gives the other pieces |
| `Seqs.Filter` | src/components/route-dialog.tsx:61 | `Array.prototype.filter`; never longer than its input, with its content stated by `Seqs.FilterMembers`, `Seqs.FilterMultiset`, `Seqs.FilterSubsequence` and `Seqs.FilterAll` |
| `Seqs.FilterMembers` | src/components/route-dialog.tsx:61 | `filter` keeps exactly the elements that pass |
| `Seqs.FilterMultiset` | src/components/route-dialog.tsx:61 | `filter` keeps an element that passes as often as it occurs, and drops every one that fails |
| `Seqs.FilterSubsequence` | src/components/route-dialog.tsx:61 | `filter` keeps the relative order of what it keeps |
| `Seqs.FilterAll` | src/components/route-dialog.tsx:61 | when every element passes, `filter` removes nothing |
| `Seqs.FilterConcat` | src/components/route-dialog.tsx:61 | filtering a concatenation is the concatenation of the filtered parts |
| `Seqs.Without` | src/components/route-dialog.tsx:58 | `filter(id => id !== x)`: every occurrence of x removed, the other values kept with their multiplicity and order, and nothing changed when x is absent |
| `Seqs.WithoutAppended` | src/components/route-dialog.tsx:58 | appending an absent value and filtering it out again gives back the list |

## Left out

- Map, chart and page rendering (MapLibre sources, layers, markers, popups, recharts, cursor styles) is outside the model. The stale-layer cleanup by id and index is outside it too, because it is wiring to a foreign library.
- The point-in-polygon test of the geometry library is the uninterpreted parameter `inside`. Polygon geometry is not modelled.
- The routing request to the road-routing server is the parameter `outcome` (routed geometry or failure). The metre and second conversions of the routing hook are not modelled.
- The late-response-after-cancel race is concurrency, so `MapPage.MapPageState.CompleteRoute` runs as one atomic step. Hence `isRoutingLoading` is false between events; it is part of the invariant.
- The `editZone` mode is part of the mode type. No handler sets it.
- `Math.random`, `Date.now`, `new Date()`, generated ids and the `confirm` answer are inputs. The simulated network delays (route-dialog, analytics) and the tracking page's clock timer are not modelled.
- Floating point is modelled as exact reals. No claim is made about IEEE results, about `toFixed`, or about the `parseFloat` total area of the zones card (src/components/zones-management.tsx:268).
- `Analytics.CollectionTrends`: the `YYYY-MM-DD` date key of `toISOString()` is modelled as the UTC day index of the timestamp. Two timestamps get the same key exactly when they fall on the same UTC day, so the grouping is the same.
- JavaScript orders integer-like object keys ahead of the others. The model keeps every key in first-insertion order. That is what the source gets for keys that are neither integer-like nor inherited property names, which covers the status names and dates; zone and driver names can be either.
- Keys that name inherited `Object.prototype` members (`"toString"`, `"constructor"`, …) are not modelled. In the source, `!acc[route.assignedDriver]` at src/lib/analytics.ts:83-84 is false for a driver named "toString", so that driver never gets a row, and `(acc[bin.zone] || 0) + 1` at src/data/publicData.ts:66 concatenates strings for such a zone. `Analytics.DriverStats` and `PublicData.GetPublicStatistics` treat every name as a plain key with its own count.
- `PublicData.GetPublicStatistics`: the zone counts are read in that same first-insertion key order.
- The fixture bins in src/data/mockData.ts have no `zone` or `lastUpdated` fields, although src/data/publicData.ts reads them; there they evaluate to `undefined`. The model's `Bin` carries both fields explicitly.
- Likewise the fixture route stops are `binId` strings while the route dialog stores `bin.id`. Both are plain strings here.
- The default branches that return gray or `outline`, or the raw status, are out of the model because the status type has no other values: `getBinMarkerColor`, `getStatusBadgeVariant`, `getStatusLabel`, and the `Unknown` badge of the zones page's priority switch (src/components/zones-management.tsx:93-94), which `ZonesManagement.PriorityLabel` does not need because the priority type has only three values.
- The relative time of activity logs (`formatDistanceToNow` from date-fns, src/components/activity-logs-view.tsx:30) is a library call and is not modelled.
- The initial truck and driver tables are constructor parameters, because their dates depend on the clock. The analytics and statistics functions take the bins, routes and logs as parameters instead of reading the fixtures.
- `TrucksManagement.FormTruckData`: `parseInt` of the capacity field may give NaN. The model takes an integer capacity.
- The public map page's selected-bin popup state is display-only and is not modelled.
- Firmware I/O is not modelled: Wi-Fi, HTTP posting, `pulseIn`, the `delay` calls, the display driver and the echo-time conversion `duration*0.0343/2`. Readings enter as reals.
- The route table of src/App.tsx is not part of this model. `ProtectedRoute.Guard` decides between login, the page and a redirect to `/admin/dashboard` or `/driver/dashboard`; which page those paths mount is not modelled (in the shown route table `/admin/dashboard` is unguarded and `/driver/dashboard` falls through to the not-found page).
- The browser's native `required` validation is modelled only for the route dialog's name (`RouteDialog.RouteDialogState.Submit`). `ZonesManagement.ZonesManagementState.AddZone`, `TrucksManagement.TrucksManagementState.AddTruck`, `DriversManagement.DriversManagementState.AddDriver` and `BinsManagement.BinsManagementState.Save` accept any field values, including empty ones the browser would refuse before their handlers run.
- `DriversManagement.FirstChars` takes the whole first character of each name piece. JavaScript `n[0]` is one UTF-16 code unit, so for a name piece that starts with a character outside the Basic Multilingual Plane the source shows a lone surrogate, which the model does not capture.
- The server and database code (the Flask logger, the Prisma seed script) is not part of this model. Neither are the UI-only pages, the login form and the bin dialog's field parsing.
