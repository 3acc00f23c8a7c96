/** The public view of the bin data: the bin records with the operational
    fields dropped, the public statistics card, and the marker colours. */
module PublicData {
  import opened Seqs
  import opened Tally
  import opened MockData

  /** A bin as the public map shows it. */
  datatype PublicBin = PublicBin(
    id: string,
    location: string,
    latitude: real,
    longitude: real,
    fillLevel: int,
    status: BinStatus,
    zone: string,
    lastUpdated: int)

  function ToPublic(bin: Bin): PublicBin
  {
    PublicBin(bin.id, bin.location, bin.latitude, bin.longitude, bin.currentFillLevel,
              bin.status, bin.zone, bin.lastUpdated)
  }

  /** `getPublicBins`: one public record per bin, in the same order, with the
      fill level taken from `currentFillLevel`. */
  function GetPublicBins(bins: seq<Bin>): (pub: seq<PublicBin>)
    ensures |pub| == |bins|
    ensures forall i | 0 <= i < |bins| ::
              && pub[i].id == bins[i].id && pub[i].location == bins[i].location
              && pub[i].latitude == bins[i].latitude && pub[i].longitude == bins[i].longitude
              && pub[i].fillLevel == bins[i].currentFillLevel && pub[i].status == bins[i].status
              && pub[i].zone == bins[i].zone && pub[i].lastUpdated == bins[i].lastUpdated
  {
    seq(|bins|, i requires 0 <= i < |bins| => ToPublic(bins[i]))
  }

  /** The public view does not depend on the fields it removes: two bin lists
      that differ only in `binId`, `capacity` and `lastEmptied` look the same. */
  lemma PublicViewHidesPrivate(bins: seq<Bin>, other: seq<Bin>)
    requires |bins| == |other|
    requires forall i | 0 <= i < |bins| ::
               other[i] == bins[i].(binId := other[i].binId, capacity := other[i].capacity,
                                    lastEmptied := other[i].lastEmptied)
    ensures GetPublicBins(bins) == GetPublicBins(other)
  {
    var a := GetPublicBins(bins);
    var b := GetPublicBins(other);
    forall i | 0 <= i < |bins| ensures a[i] == b[i] {
      assert other[i].id == bins[i].id;
    }
  }

  /** `b.status === "NEEDS_PICKUP" || b.status === "OVERFLOWING"`. */
  predicate NeedsPickupNow(b: Bin)
  {
    b.status == NeedsPickup || b.status == Overflowing
  }

  /** The number of bins needing pickup: those needing pickup plus those overflowing. */
  function PickupCount(bins: seq<Bin>): (n: nat)
    ensures n == CountBins(bins, NeedsPickup) + CountBins(bins, Overflowing)
    decreases |bins|
  {
    if bins == [] then 0 else (if NeedsPickupNow(bins[0]) then 1 else 0) + PickupCount(bins[1..])
  }

  /** overflowingBins <= binsNeedingPickup <= totalBins. */
  lemma PickupBounds(bins: seq<Bin>)
    ensures CountBins(bins, Overflowing) <= PickupCount(bins) <= |bins|
    ensures PickupCount(bins) == CountNotOk(bins)
  {
    NotOkSplits(bins);
  }

  /** The zones of the bins needing pickup, in bin order, one per bin. */
  function PickupZones(bins: seq<Bin>): (zs: seq<string>)
    ensures |zs| == PickupCount(bins)
    decreases |bins|
  {
    if bins == [] then []
    else (if NeedsPickupNow(bins[0]) then [bins[0].zone] else []) + PickupZones(bins[1..])
  }

  /** Every zone counted belongs to some bin needing pickup, and every such bin's zone is counted. */
  lemma {:induction false} PickupZonesMembers(bins: seq<Bin>, z: string)
    ensures z in PickupZones(bins) <==> exists i | 0 <= i < |bins| :: NeedsPickupNow(bins[i]) && bins[i].zone == z
    decreases |bins|
  {
    if bins != [] {
      PickupZonesMembers(bins[1..], z);
      if exists i | 0 <= i < |bins| :: NeedsPickupNow(bins[i]) && bins[i].zone == z {
        var i :| 0 <= i < |bins| && NeedsPickupNow(bins[i]) && bins[i].zone == z;
        if i > 0 {
          assert bins[1..][i - 1] == bins[i];
        }
      }
      if z in PickupZones(bins[1..]) {
        var i :| 0 <= i < |bins[1..]| && NeedsPickupNow(bins[1..][i]) && bins[1..][i].zone == z;
        assert bins[i + 1] == bins[1..][i];
      }
    }
  }

  /** The position of the first entry with the largest count: what
      `sort((a, b) => b[1] - a[1])[0]` picks, the sort being stable. */
  function FirstMax<K>(es: seq<Entry<K>>): (k: nat)
    requires es != []
    ensures k < |es|
    ensures forall j | 0 <= j < |es| :: es[j].count <= es[k].count
    ensures forall j | 0 <= j < k :: es[j].count < es[k].count
    decreases |es|
  {
    if |es| == 1 then 0
    else
      var k := FirstMax(es[..|es| - 1]);
      assert forall j | 0 <= j < |es| - 1 :: es[..|es| - 1][j] == es[j];
      if es[|es| - 1].count > es[k].count then |es| - 1 else k
  }

  datatype PublicStatistics = PublicStatistics(
    totalBins: nat,
    binsNeedingPickup: nat,
    overflowingBins: nat,
    pickupsToday: nat,
    mostAffectedZone: string,
    overflowIncidentsToday: nat)

  /** The fallback zone when no bin needs pickup: the first bin's zone, or "N/A"
      when there is no bin or its zone is empty (`bins[0].zone || "N/A"`). */
  function FallbackZone(bins: seq<Bin>): (z: string)
    ensures z == "N/A" <==> bins == [] || bins[0].zone == "" || bins[0].zone == "N/A"
    ensures bins != [] && bins[0].zone != "" ==> z == bins[0].zone
  {
    if bins != [] && bins[0].zone != "" then bins[0].zone else "N/A"
  }

  /** `getPublicStatistics`. When some bin needs pickup the most affected zone
      is one with the largest number of bins needing pickup, and among those
      the one met first; otherwise it is the fallback zone. */
  method GetPublicStatistics(bins: seq<Bin>) returns (st: PublicStatistics)
    ensures st.totalBins == |bins|
    ensures st.binsNeedingPickup == PickupCount(bins)
    ensures st.overflowingBins == CountBins(bins, Overflowing)
    ensures st.overflowIncidentsToday == st.overflowingBins
    ensures st.pickupsToday == 5
    ensures var zs := PickupZones(bins);
            zs != [] ==>
              && st.mostAffectedZone in zs
              && (forall z | z in zs :: multiset(zs)[z] <= multiset(zs)[st.mostAffectedZone])
              && (forall j | 0 <= j < IndexOf(Dedup(zs), st.mostAffectedZone) ::
                    multiset(zs)[Dedup(zs)[j]] < multiset(zs)[st.mostAffectedZone])
    ensures PickupZones(bins) == [] ==> st.mostAffectedZone == FallbackZone(bins)
  {
    var zs := PickupZones(bins);
    var zoneStats := TallyKeys(zs);
    var zone: string;
    if |zoneStats| > 0 {
      var k := FirstMax(zoneStats);
      zone := zoneStats[k].key;
      var ks := Keys(zoneStats);
      assert ks[k] == zone;
      assert IndexOf(ks, zone) == k by {
        assert NoDuplicates(ks);
      }
      forall z | z in zs ensures multiset(zs)[z] <= multiset(zs)[zone] {
        var j := IndexOf(ks, z);
        assert zoneStats[j].key == z;
      }
    } else {
      assert Keys(zoneStats) == [];
      zone := FallbackZone(bins);
    }
    var overflowing := CountBins(bins, Overflowing);
    st := PublicStatistics(|bins|, PickupCount(bins), overflowing, 5, zone, overflowing);
  }

  /** `getBinMarkerColor`: green, yellow and red hex colours. */
  function GetBinMarkerColor(status: BinStatus): (color: string)
    ensures color == "#22c55e" <==> status == Ok
    ensures color == "#eab308" <==> status == NeedsPickup
    ensures color == "#ef4444" <==> status == Overflowing
  {
    match status
    case Ok => "#22c55e"
    case NeedsPickup => "#eab308"
    case Overflowing => "#ef4444"
  }
}
