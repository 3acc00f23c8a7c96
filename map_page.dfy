/** The admin city map page: its record set (zones, bins, routes), the
    creation-mode workflow that places bins, draws zones and builds routes,
    and the delete handlers that cascade over the record set.

    The point-in-polygon test of the geometry library is the parameter
    `inside`; the outcome of the road-routing request is the parameter
    `outcome`; generated ids, the random fill level and the clock are
    parameters too. */
module MapPage {
  import opened Options
  import opened Seqs
  import opened Strings

  datatype Coord = Coord(lng: real, lat: real)

  datatype BinStatus = OK | NeedsPickup | Overflowing

  datatype Bin = Bin(
    id: string,
    coordinates: Coord,
    status: BinStatus,
    zoneId: Option<string>,
    fillLevel: int,
    lastCollection: string)

  /** `coordinates` is a GeoJSON polygon: a list of linear rings. */
  datatype Zone = Zone(id: string, name: string, color: string, coordinates: seq<seq<Coord>>)

  datatype WasteRoute = WasteRoute(id: string, name: string, stops: seq<string>, coordinates: seq<Coord>)

  /** The page's mode tag. `EditZone` is part of the type but no handler ever sets it. */
  datatype EditMode = NoMode | AddBin | CreateZone | CreateRoute | EditZone

  /** The three mode buttons of the Actions panel. */
  datatype Tool = ZoneTool | BinTool | RouteTool

  /** The geometry-library point-in-polygon test, left uninterpreted. */
  type InsideTest = (Coord, seq<seq<Coord>>) -> bool

  /** What the routing service gave back for one request. */
  datatype RoutingOutcome = Routed(geometry: seq<Coord>) | Failed

  // ---------------------------------------------------------------------------
  // Pure helpers
  // ---------------------------------------------------------------------------

  /** Marker colour by bin status. */
  function GetBinColor(status: BinStatus): (color: string)
    ensures color == "#22c55e" <==> status == OK
    ensures color == "#f59e0b" <==> status == NeedsPickup
    ensures color == "#ef4444" <==> status == Overflowing
  {
    match status
    case OK => "#22c55e"
    case NeedsPickup => "#f59e0b"
    case Overflowing => "#ef4444"
  }

  /** The palette new zones take their colour from, by position in the zone list. */
  const ZonePalette: seq<string> := ["#3b82f6", "#8b5cf6", "#06b6d4", "#10b981", "#f59e0b", "#ef4444"]

  function ToolMode(t: Tool): EditMode
  {
    match t
    case ZoneTool => CreateZone
    case BinTool => AddBin
    case RouteTool => CreateRoute
  }

  /** A mode button is disabled while another mode is active. */
  predicate ToolDisabled(mode: EditMode, t: Tool)
  {
    mode != NoMode && mode != ToolMode(t)
  }

  /** The mode after pressing button `t`; a disabled button does nothing. */
  function PressTool(mode: EditMode, t: Tool): (m: EditMode)
    ensures mode == NoMode ==> m == ToolMode(t)
    ensures mode == ToolMode(t) ==> m == NoMode
    ensures ToolDisabled(mode, t) ==> m == mode
    ensures m == NoMode || m == ToolMode(t) || m == mode
  {
    if ToolDisabled(mode, t) then mode
    else if mode == ToolMode(t) then NoMode
    else ToolMode(t)
  }

  /** Pressing an enabled button twice returns to the mode one started from. */
  lemma PressToolTwice(mode: EditMode, t: Tool)
    requires !ToolDisabled(mode, t)
    ensures PressTool(PressTool(mode, t), t) == mode
  {
  }

  /** While some mode is active, exactly one button (the active one) is enabled. */
  lemma OneToolEnabled(mode: EditMode, t: Tool, u: Tool)
    requires mode != NoMode && !ToolDisabled(mode, t) && !ToolDisabled(mode, u)
    ensures t == u
  {
  }

  /** A GeoJSON linear ring: at least four positions, the last equal to the first
      (section 3.1.6 of RFC 7946). */
  predicate IsLinearRing(ring: seq<Coord>)
  {
    |ring| >= 4 && ring[0] == ring[|ring| - 1]
  }

  /** A zone polygon is a single linear ring. */
  predicate ValidZoneGeometry(z: Zone)
  {
    |z.coordinates| == 1 && IsLinearRing(z.coordinates[0])
  }

  /** `[...points, points[0]]`: close the drawn outline into a ring. */
  function CloseRing(points: seq<Coord>): (ring: seq<Coord>)
    requires |points| >= 1
    ensures |ring| == |points| + 1
    ensures ring[..|points|] == points && ring[|ring| - 1] == ring[0]
    ensures |points| >= 3 ==> IsLinearRing(ring)
  {
    points + [points[0]]
  }

  /** The id of the first zone, in list order, whose polygon contains `p`. */
  function FirstContainingZone(zones: seq<Zone>, p: Coord, inside: InsideTest): Option<string>
    decreases |zones|
  {
    if zones == [] then None
    else if inside(p, zones[0].coordinates) then Some(zones[0].id)
    else FirstContainingZone(zones[1..], p, inside)
  }

  /** `FirstContainingZone` finds the first containing zone, and finds none only
      when no zone contains the point. */
  lemma {:induction false} FirstContainingZoneSpec(zones: seq<Zone>, p: Coord, inside: InsideTest)
    ensures FirstContainingZone(zones, p, inside) == None <==>
              forall i | 0 <= i < |zones| :: !inside(p, zones[i].coordinates)
    ensures FirstContainingZone(zones, p, inside).Some? ==>
              exists i | 0 <= i < |zones| ::
                zones[i].id == FirstContainingZone(zones, p, inside).value
                && inside(p, zones[i].coordinates)
                && forall j | 0 <= j < i :: !inside(p, zones[j].coordinates)
    decreases |zones|
  {
    if zones != [] && !inside(p, zones[0].coordinates) {
      var rest := zones[1..];
      FirstContainingZoneSpec(rest, p, inside);
      if FirstContainingZone(rest, p, inside).Some? {
        var i :| 0 <= i < |rest| && rest[i].id == FirstContainingZone(rest, p, inside).value
                 && inside(p, rest[i].coordinates)
                 && forall j | 0 <= j < i :: !inside(p, rest[j].coordinates);
        assert zones[i + 1] == rest[i];
        forall j | 0 <= j < i + 1 ensures !inside(p, zones[j].coordinates) {
          if j > 0 { assert zones[j] == rest[j - 1]; }
        }
      } else {
        forall i | 0 <= i < |zones| ensures !inside(p, zones[i].coordinates) {
          if i > 0 { assert zones[i] == rest[i - 1]; }
        }
      }
    } else if zones != [] {
      assert 0 < |zones|;
    }
  }

  /** The zone-assignment loop of the bin placement: the first zone containing
      the point wins and the loop stops there. */
  method FindZone(zones: seq<Zone>, p: Coord, inside: InsideTest) returns (zoneId: Option<string>)
    ensures zoneId == FirstContainingZone(zones, p, inside)
  {
    zoneId := None;
    var k := 0;
    while k < |zones|
      invariant 0 <= k <= |zones|
      invariant FirstContainingZone(zones, p, inside) == FirstContainingZone(zones[k..], p, inside)
    {
      if inside(p, zones[k].coordinates) {
        zoneId := Some(zones[k].id);
        return;
      }
      assert zones[k..][1..] == zones[k + 1..];
      k := k + 1;
    }
  }

  /** `bins.find(b => b.id === id)?.coordinates`. */
  function LookupCoordinates(bins: seq<Bin>, id: string): (c: Option<Coord>)
    ensures c.None? <==> forall i | 0 <= i < |bins| :: bins[i].id != id
    ensures c.Some? ==> exists i | 0 <= i < |bins| ::
              bins[i].id == id && bins[i].coordinates == c.value
              && forall j | 0 <= j < i :: bins[j].id != id
    decreases |bins|
  {
    if bins == [] then None
    else if bins[0].id == id then Some(bins[0].coordinates)
    else
      var c := LookupCoordinates(bins[1..], id);
      assert forall i | 0 < i < |bins| :: bins[i] == bins[1..][i - 1];
      if c.Some? then
        var i :| 0 <= i < |bins[1..]| && bins[1..][i].id == id && bins[1..][i].coordinates == c.value
                 && forall j | 0 <= j < i :: bins[1..][j].id != id;
        assert bins[i + 1] == bins[1..][i];
        c
      else c
  }

  /** Whether some bin has id `id`. */
  predicate KnownBin(bins: seq<Bin>, id: string)
  {
    exists i | 0 <= i < |bins| :: bins[i].id == id
  }

  /** The stop coordinates in selection order; ids with no bin are dropped. */
  function StopCoordinates(stops: seq<string>, bins: seq<Bin>): (coords: seq<Coord>)
    ensures |coords| <= |stops|
    ensures (forall k | 0 <= k < |stops| :: KnownBin(bins, stops[k])) ==>
              |coords| == |stops| &&
              forall k | 0 <= k < |stops| :: Some(coords[k]) == LookupCoordinates(bins, stops[k])
    ensures forall c | c in coords :: exists i | 0 <= i < |bins| :: bins[i].coordinates == c
    decreases |stops|
  {
    if stops == [] then []
    else
      var rest := StopCoordinates(stops[1..], bins);
      assert forall k | 0 < k < |stops| :: stops[k] == stops[1..][k - 1];
      match LookupCoordinates(bins, stops[0])
      case None => rest
      case Some(c) =>
        var r := [c] + rest;
        assert forall k | 0 < k < |r| :: r[k] == rest[k - 1];
        r
  }

  /** `fetchOSRMRoute`: fewer than two points are returned as they are; otherwise
      the road geometry on success and the straight-line points on any failure. */
  function FetchRoute(stops: seq<Coord>, outcome: RoutingOutcome): (path: seq<Coord>)
    ensures |stops| < 2 || outcome.Failed? ==> path == stops
    ensures |stops| >= 2 && outcome.Routed? ==> path == outcome.geometry
  {
    if |stops| < 2 then stops
    else match outcome
      case Routed(g) => g
      case Failed => stops
  }

  /** `bins.map(b => b.zoneId === zoneId ? { ...b, zoneId: null } : b)`. */
  function ClearZone(bins: seq<Bin>, zoneId: string): (r: seq<Bin>)
    ensures |r| == |bins|
    ensures forall i | 0 <= i < |r| :: r[i].zoneId != Some(zoneId)
    ensures forall i | 0 <= i < |r| :: r[i] == bins[i].(zoneId := r[i].zoneId)
    ensures forall i | 0 <= i < |r| :: bins[i].zoneId != Some(zoneId) ==> r[i] == bins[i]
    ensures forall i | 0 <= i < |r| :: bins[i].zoneId == Some(zoneId) ==> r[i].zoneId == None
  {
    seq(|bins|, i requires 0 <= i < |bins| =>
      if bins[i].zoneId == Some(zoneId) then bins[i].(zoneId := None) else bins[i])
  }

  /** `routes.map(r => ({ ...r, stops: r.stops.filter(s => s !== binId) }))`. */
  function DropStop(routes: seq<WasteRoute>, binId: string): (r: seq<WasteRoute>)
    ensures |r| == |routes|
    ensures forall i | 0 <= i < |r| :: r[i] == routes[i].(stops := r[i].stops)
    ensures forall i | 0 <= i < |r| ::
              binId !in r[i].stops && IsSubsequence(r[i].stops, routes[i].stops)
    ensures forall i, s | 0 <= i < |r| && s != binId ::
              multiset(r[i].stops)[s] == multiset(routes[i].stops)[s]
  {
    seq(|routes|, i requires 0 <= i < |routes| =>
      routes[i].(stops := Without(routes[i].stops, binId)))
  }

  function RemoveZone(zones: seq<Zone>, zoneId: string): (r: seq<Zone>)
    ensures forall z :: z in r <==> z in zones && z.id != zoneId
    ensures forall z: Zone | z.id != zoneId :: multiset(r)[z] == multiset(zones)[z]
    ensures IsSubsequence(r, zones)
  {
    var keep := (z: Zone) => z.id != zoneId;
    FilterMembers(zones, keep);
    FilterMultiset(zones, keep);
    FilterSubsequence(zones, keep);
    Filter(zones, keep)
  }

  function RemoveBin(bins: seq<Bin>, binId: string): (r: seq<Bin>)
    ensures forall b :: b in r <==> b in bins && b.id != binId
    ensures forall b: Bin | b.id != binId :: multiset(r)[b] == multiset(bins)[b]
    ensures IsSubsequence(r, bins)
  {
    var keep := (b: Bin) => b.id != binId;
    FilterMembers(bins, keep);
    FilterMultiset(bins, keep);
    FilterSubsequence(bins, keep);
    Filter(bins, keep)
  }

  function RemoveRoute(routes: seq<WasteRoute>, routeId: string): (r: seq<WasteRoute>)
    ensures forall x :: x in r <==> x in routes && x.id != routeId
    ensures forall x: WasteRoute | x.id != routeId :: multiset(r)[x] == multiset(routes)[x]
    ensures IsSubsequence(r, routes)
  {
    var keep := (x: WasteRoute) => x.id != routeId;
    FilterMembers(routes, keep);
    FilterMultiset(routes, keep);
    FilterSubsequence(routes, keep);
    Filter(routes, keep)
  }

  /** Number of bins with the given status (the status summary of the Statistics panel). */
  function HasStatus(s: BinStatus): Bin -> bool
  {
    (b: Bin) => b.status == s
  }

  /** `bins.filter(b => b.status === s).length`. */
  function CountStatus(bins: seq<Bin>, s: BinStatus): (n: nat)
    ensures n <= |bins|
  {
    |Filter(bins, HasStatus(s))|
  }

  /** The first bin counts under its own status only. */
  lemma CountStatusCons(bins: seq<Bin>, s: BinStatus)
    requires bins != []
    ensures CountStatus(bins, s) == (if bins[0].status == s then 1 else 0) + CountStatus(bins[1..], s)
  {
    assert [bins[0]] + bins[1..] == bins;
    FilterConcat([bins[0]], bins[1..], HasStatus(s));
    FilterSingle(bins[0], HasStatus(s));
  }

  /** The OK, Needs Pickup and Overflowing counts add up to the number of bins. */
  lemma {:induction false} StatusCountsSum(bins: seq<Bin>)
    ensures CountStatus(bins, OK) + CountStatus(bins, NeedsPickup) + CountStatus(bins, Overflowing) == |bins|
    decreases |bins|
  {
    if bins != [] {
      StatusCountsSum(bins[1..]);
      CountStatusCons(bins, OK);
      CountStatusCons(bins, NeedsPickup);
      CountStatusCons(bins, Overflowing);
    }
  }

  /** The set of zone ids. */
  function ZoneIds(zones: seq<Zone>): set<string>
  {
    set z | z in zones :: z.id
  }

  /** A bin's zone reference is either empty or names an existing zone. */
  predicate ZoneRefOk(b: Bin, zones: seq<Zone>)
  {
    b.zoneId.Some? ==> b.zoneId.value in ZoneIds(zones)
  }

  /** The bin that a click in add-bin mode places. */
  function PlacedBin(p: Coord, uid: string, rnd: real, now: string, zoneId: Option<string>): Bin
  {
    Bin("bin-" + uid, p, OK, zoneId, (rnd * 40.0).Floor + 10, now)
  }

  /** The zone that completing a drawing appends, given the current zone count. */
  function DrawnZone(uid: string, count: nat, points: seq<Coord>): Zone
    requires |points| >= 1
  {
    Zone("zone-" + uid, "Zone " + NatToString(count + 1), ZonePalette[count % |ZonePalette|],
         [CloseRing(points)])
  }

  // ---------------------------------------------------------------------------
  // The page state
  // ---------------------------------------------------------------------------

  /** The zones the page starts with. */
  function InitialZones(): seq<Zone>
  {
    [ Zone("zone-1", "Gulshan District", "#3b82f6",
        [[Coord(90.4050, 23.7950), Coord(90.4200, 23.7950), Coord(90.4200, 23.8100),
          Coord(90.4050, 23.8100), Coord(90.4050, 23.7950)]]),
      Zone("zone-2", "Banani Sector", "#8b5cf6",
        [[Coord(90.3950, 23.8100), Coord(90.4100, 23.8100), Coord(90.4100, 23.8250),
          Coord(90.3950, 23.8250), Coord(90.3950, 23.8100)]]),
      Zone("zone-3", "Uttara Zone", "#06b6d4",
        [[Coord(90.3850, 23.8250), Coord(90.4050, 23.8250), Coord(90.4050, 23.8400),
          Coord(90.3850, 23.8400), Coord(90.3850, 23.8250)]]) ]
  }

  /** The bins the page starts with. */
  function InitialBins(): seq<Bin>
  {
    [ Bin("bin-1", Coord(90.4100, 23.8000), OK, Some("zone-1"), 35, "2024-01-15 08:30"),
      Bin("bin-2", Coord(90.4150, 23.8050), NeedsPickup, Some("zone-1"), 78, "2024-01-14 14:20"),
      Bin("bin-3", Coord(90.4080, 23.7980), Overflowing, Some("zone-1"), 95, "2024-01-13 09:15"),
      Bin("bin-4", Coord(90.4000, 23.8150), OK, Some("zone-2"), 22, "2024-01-15 07:45"),
      Bin("bin-5", Coord(90.4050, 23.8200), NeedsPickup, Some("zone-2"), 82, "2024-01-14 16:00"),
      Bin("bin-6", Coord(90.3980, 23.8180), OK, Some("zone-2"), 45, "2024-01-15 10:30"),
      Bin("bin-7", Coord(90.3920, 23.8300), Overflowing, Some("zone-3"), 98, "2024-01-12 11:00"),
      Bin("bin-8", Coord(90.3980, 23.8350), OK, Some("zone-3"), 15, "2024-01-15 09:00") ]
  }

  /** Every fixture zone is one closed ring and every fixture bin names a fixture zone. */
  lemma InitialRecordsValid()
    ensures forall i | 0 <= i < |InitialZones()| :: ValidZoneGeometry(InitialZones()[i])
    ensures forall i | 0 <= i < |InitialBins()| :: ZoneRefOk(InitialBins()[i], InitialZones())
  {
    var zs := InitialZones();
    assert zs[0] in zs && zs[1] in zs && zs[2] in zs;
    assert ZoneIds(zs) == {"zone-1", "zone-2", "zone-3"};
  }

  class MapPageState {
    var zones: seq<Zone>
    var bins: seq<Bin>
    var routes: seq<WasteRoute>
    var editMode: EditMode
    var drawingPoints: seq<Coord>
    var routeStops: seq<string>
    var isRoutingLoading: bool

    /** The invariant every handler keeps. Handlers run to completion one at a
        time, so the routing-in-progress flag is clear between events. */
    ghost predicate Valid()
      reads this
    {
      && !isRoutingLoading
      && editMode != EditZone
      && NoDuplicates(routeStops)
      && (forall i | 0 <= i < |zones| :: ValidZoneGeometry(zones[i]))
      && (forall i | 0 <= i < |bins| :: ZoneRefOk(bins[i], zones))
      && (forall i | 0 <= i < |routes| :: NoDuplicates(routes[i].stops))
    }

    /** The page as first rendered: the fixture zones and bins, no routes, no mode. */
    constructor ()
      ensures Valid()
      ensures zones == InitialZones() && bins == InitialBins() && routes == []
      ensures editMode == NoMode && drawingPoints == [] && routeStops == []
    {
      zones := InitialZones();
      bins := InitialBins();
      routes := [];
      editMode := NoMode;
      drawingPoints := [];
      routeStops := [];
      isRoutingLoading := false;
      new;
      InitialRecordsValid();
    }

    /** A click on a mode button. Leaving a mode this way keeps the pending
        points and stops. */
    method PressToolButton(t: Tool)
      requires Valid()
      modifies this
      ensures Valid()
      ensures editMode == PressTool(old(editMode), t)
      ensures zones == old(zones) && bins == old(bins) && routes == old(routes)
      ensures drawingPoints == old(drawingPoints) && routeStops == old(routeStops)
      ensures isRoutingLoading == old(isRoutingLoading)
    {
      editMode := PressTool(editMode, t);
    }

    /** A click on the map at `p`. In add-bin mode one bin is placed (status OK,
        fill level 10..49, zone found by the containment loop) and the mode ends;
        in zone-drawing mode the point is appended; otherwise nothing changes. */
    method MapClick(p: Coord, uid: string, rnd: real, now: string, inside: InsideTest)
      requires Valid()
      requires 0.0 <= rnd < 1.0
      modifies this
      ensures Valid()
      ensures old(editMode) == AddBin ==>
                && bins == old(bins) + [PlacedBin(p, uid, rnd, now, FirstContainingZone(old(zones), p, inside))]
                && editMode == NoMode && drawingPoints == old(drawingPoints)
      ensures old(editMode) == AddBin ==>
                10 <= bins[|bins| - 1].fillLevel <= 49 && bins[|bins| - 1].status == OK
      ensures old(editMode) == CreateZone ==>
                && drawingPoints == old(drawingPoints) + [p]
                && bins == old(bins) && editMode == old(editMode)
      ensures old(editMode) != AddBin && old(editMode) != CreateZone ==>
                bins == old(bins) && editMode == old(editMode) && drawingPoints == old(drawingPoints)
      ensures zones == old(zones) && routes == old(routes) && routeStops == old(routeStops)
      ensures isRoutingLoading == old(isRoutingLoading)
    {
      if editMode == AddBin {
        var zoneId := FindZone(zones, p, inside);
        FirstContainingZoneSpec(zones, p, inside);
        var b := PlacedBin(p, uid, rnd, now, zoneId);
        if zoneId.Some? {
          var i :| 0 <= i < |zones| && zones[i].id == zoneId.value && inside(p, zones[i].coordinates)
                   && forall j | 0 <= j < i :: !inside(p, zones[j].coordinates);
          assert zones[i] in zones;
        }
        assert ZoneRefOk(b, zones);
        bins := bins + [b];
        editMode := NoMode;
      } else if editMode == CreateZone {
        drawingPoints := drawingPoints + [p];
      }
    }

    /** A click on a bin marker: in route mode its id is appended unless already
        selected; in any other mode only a popup opens. */
    method BinClick(binId: string)
      requires Valid()
      modifies this
      ensures Valid()
      ensures old(editMode) == CreateRoute && binId !in old(routeStops) ==>
                routeStops == old(routeStops) + [binId]
      ensures old(editMode) != CreateRoute || binId in old(routeStops) ==>
                routeStops == old(routeStops)
      ensures binId in old(routeStops) ==> binId in routeStops
      ensures zones == old(zones) && bins == old(bins) && routes == old(routes)
      ensures editMode == old(editMode) && drawingPoints == old(drawingPoints)
      ensures isRoutingLoading == old(isRoutingLoading)
    {
      if editMode == CreateRoute {
        if binId !in routeStops {
          routeStops := routeStops + [binId];
        }
      }
    }

    /** "Complete Zone": with fewer than three points nothing happens; otherwise
        one zone with the closed ring is appended and drawing ends. */
    method CompleteZone(uid: string)
      requires Valid()
      modifies this
      ensures Valid()
      ensures |old(drawingPoints)| < 3 ==>
                zones == old(zones) && drawingPoints == old(drawingPoints) && editMode == old(editMode)
      ensures |old(drawingPoints)| >= 3 ==>
                && zones == old(zones) + [DrawnZone(uid, |old(zones)|, old(drawingPoints))]
                && drawingPoints == [] && editMode == NoMode
      ensures |old(drawingPoints)| >= 3 ==> IsLinearRing(zones[|zones| - 1].coordinates[0])
      ensures bins == old(bins) && routes == old(routes) && routeStops == old(routeStops)
      ensures isRoutingLoading == old(isRoutingLoading)
    {
      if |drawingPoints| < 3 {
        return;
      }
      var z := DrawnZone(uid, |zones|, drawingPoints);
      assert ZoneIds(zones + [z]) >= ZoneIds(zones) by {
        forall x | x in zones ensures x in zones + [z] { }
      }
      zones := zones + [z];
      drawingPoints := [];
      editMode := NoMode;
    }

    /** "Complete Route": with fewer than two stops, or while a routing request
        is pending, nothing happens; otherwise one route over the selected stops
        is appended (road geometry, or the straight-line stop coordinates when
        routing fails) and route building ends. */
    method CompleteRoute(uid: string, outcome: RoutingOutcome)
      requires Valid()
      modifies this
      ensures Valid()
      ensures |old(routeStops)| < 2 || old(isRoutingLoading) ==>
                routes == old(routes) && routeStops == old(routeStops) && editMode == old(editMode)
      ensures |old(routeStops)| >= 2 && !old(isRoutingLoading) ==>
                && routes == old(routes) + [WasteRoute("route-" + uid, "Route " + NatToString(|old(routes)| + 1),
                                                       old(routeStops),
                                                       FetchRoute(StopCoordinates(old(routeStops), old(bins)), outcome))]
                && routeStops == [] && editMode == NoMode
      ensures zones == old(zones) && bins == old(bins) && drawingPoints == old(drawingPoints)
      ensures isRoutingLoading == old(isRoutingLoading)
    {
      if |routeStops| < 2 || isRoutingLoading {
        return;
      }
      var stopCoordinates := StopCoordinates(routeStops, bins);
      isRoutingLoading := true;
      var path := FetchRoute(stopCoordinates, outcome);
      var r := WasteRoute("route-" + uid, "Route " + NatToString(|routes| + 1), routeStops, path);
      routes := routes + [r];
      routeStops := [];
      editMode := NoMode;
      isRoutingLoading := false;
    }

    /** Delete a zone: it leaves the list and the bins that referenced it lose
        their zone; no bin is removed. */
    method DeleteZone(zoneId: string)
      requires Valid()
      modifies this
      ensures Valid()
      ensures zones == RemoveZone(old(zones), zoneId)
      ensures bins == ClearZone(old(bins), zoneId)
      ensures routes == old(routes) && editMode == old(editMode)
      ensures drawingPoints == old(drawingPoints) && routeStops == old(routeStops)
      ensures isRoutingLoading == old(isRoutingLoading)
    {
      var newZones := RemoveZone(zones, zoneId);
      var newBins := ClearZone(bins, zoneId);
      forall i | 0 <= i < |newBins| ensures ZoneRefOk(newBins[i], newZones) {
        if newBins[i].zoneId.Some? {
          assert ZoneRefOk(bins[i], zones);
          var z :| z in zones && z.id == newBins[i].zoneId.value;
          assert z in newZones;
        }
      }
      zones := newZones;
      bins := newBins;
    }

    /** Delete a bin: it leaves the list and its id leaves every route's stops;
        the routes themselves stay. */
    method DeleteBin(binId: string)
      requires Valid()
      modifies this
      ensures Valid()
      ensures bins == RemoveBin(old(bins), binId)
      ensures routes == DropStop(old(routes), binId)
      ensures zones == old(zones) && editMode == old(editMode)
      ensures drawingPoints == old(drawingPoints) && routeStops == old(routeStops)
      ensures isRoutingLoading == old(isRoutingLoading)
    {
      var newBins := RemoveBin(bins, binId);
      var newRoutes := DropStop(routes, binId);
      forall i | 0 <= i < |newBins| ensures ZoneRefOk(newBins[i], zones) {
        assert newBins[i] in bins;
      }
      forall i | 0 <= i < |newRoutes| ensures NoDuplicates(newRoutes[i].stops) {
        SubsequenceNoDuplicates(newRoutes[i].stops, routes[i].stops);
      }
      bins := newBins;
      routes := newRoutes;
    }

    method DeleteRoute(routeId: string)
      requires Valid()
      modifies this
      ensures Valid()
      ensures routes == RemoveRoute(old(routes), routeId)
      ensures zones == old(zones) && bins == old(bins) && editMode == old(editMode)
      ensures drawingPoints == old(drawingPoints) && routeStops == old(routeStops)
      ensures isRoutingLoading == old(isRoutingLoading)
    {
      var newRoutes := RemoveRoute(routes, routeId);
      forall i | 0 <= i < |newRoutes| ensures NoDuplicates(newRoutes[i].stops) {
        assert newRoutes[i] in routes;
      }
      routes := newRoutes;
    }

    /** "Cancel": leave the mode and discard the pending points and stops. */
    method CancelCurrentAction()
      requires Valid()
      modifies this
      ensures Valid()
      ensures editMode == NoMode && drawingPoints == [] && routeStops == []
      ensures zones == old(zones) && bins == old(bins) && routes == old(routes)
      ensures isRoutingLoading == old(isRoutingLoading)
    {
      editMode := NoMode;
      drawingPoints := [];
      routeStops := [];
    }
  }
}
