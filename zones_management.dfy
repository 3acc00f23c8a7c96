/** The zones management page: a zone table seeded with four zones, an "Add
    Zone" form, delete with confirmation, and the statistics card. */
module ZonesManagement {
  import opened Options
  import opened Seqs
  import opened Strings

  datatype Priority = High | Medium | Low

  /** A zone record; `area` is the square-kilometre figure kept as the form's text. */
  datatype Zone = Zone(
    id: string,
    name: string,
    description: string,
    priority: Priority,
    binCount: int,
    area: string,
    supervisor: Option<string>,
    color: string)

  /** The fields the "Add Zone" form hands over (everything but `id` and `binCount`). */
  datatype ZoneData = ZoneData(
    name: string,
    description: string,
    priority: Priority,
    area: string,
    supervisor: Option<string>,
    color: string)

  /** The supervisor field: an empty entry is stored as absent (`|| undefined`). */
  function FormSupervisor(entry: string): (s: Option<string>)
    ensures s == None <==> entry == ""
    ensures s.Some? ==> s.value == entry
  {
    if entry == "" then None else Some(entry)
  }

  /** The priority badge's label. */
  function PriorityLabel(p: Priority): (badge: string)
    ensures badge == "High Priority" <==> p == High
    ensures badge == "Medium Priority" <==> p == Medium
    ensures badge == "Low Priority" <==> p == Low
  {
    match p
    case High => "High Priority"
    case Medium => "Medium Priority"
    case Low => "Low Priority"
  }

  /** The initial table. */
  function MockZones(): seq<Zone>
  {
    [ Zone("zone-1", "Downtown District",
           "Central business district with high traffic and commercial areas",
           High, 45, "2.3", Some("John Smith"), "#ef4444"),
      Zone("zone-2", "Residential North",
           "Northern residential neighborhoods with regular collection needs",
           Medium, 67, "4.1", Some("Sarah Johnson"), "#f59e0b"),
      Zone("zone-3", "Industrial Park",
           "Manufacturing and industrial facilities with specialized waste handling",
           High, 23, "1.8", Some("Mike Davis"), "#10b981"),
      Zone("zone-4", "Suburban East",
           "Eastern suburban areas with moderate collection frequency",
           Low, 89, "6.2", Some("Lisa Chen"), "#3b82f6") ]
  }

  /** A new zone: the form data under a fresh `zone-` id, with no bins yet. */
  function NewZone(data: ZoneData, now: nat): (z: Zone)
    ensures z.id == "zone-" + NatToString(now) && z.binCount == 0
    ensures z.name == data.name && z.description == data.description && z.priority == data.priority
    ensures z.area == data.area && z.supervisor == data.supervisor && z.color == data.color
  {
    Zone("zone-" + NatToString(now), data.name, data.description, data.priority,
         0, data.area, data.supervisor, data.color)
  }

  /** `zones.filter(z => z.id !== id)`. */
  function DeleteById(zones: seq<Zone>, id: string): (r: seq<Zone>)
    ensures forall z :: z in r <==> z in zones && z.id != id
    ensures forall z: Zone | z.id != id :: multiset(r)[z] == multiset(zones)[z]
    ensures IsSubsequence(r, zones)
    ensures (forall i | 0 <= i < |zones| :: zones[i].id != id) ==> r == zones
  {
    var keep := (z: Zone) => z.id != id;
    FilterMembers(zones, keep);
    FilterMultiset(zones, keep);
    FilterSubsequence(zones, keep);
    FilterAll(zones, keep);
    Filter(zones, keep)
  }

  predicate IsHigh(z: Zone)
  {
    z.priority == High
  }

  /** The "High Priority" figure: the number of zones whose priority is HIGH. */
  function HighPriorityCount(zones: seq<Zone>): (n: nat)
    ensures n <= |zones|
  {
    |Filter(zones, IsHigh)|
  }

  /** The figure equals the zone count exactly when every zone is HIGH. */
  lemma HighPriorityAll(zones: seq<Zone>)
    ensures HighPriorityCount(zones) == |zones| <==> forall i | 0 <= i < |zones| :: zones[i].priority == High
  {
    var notHigh := (z: Zone) => !IsHigh(z);
    FilterPartition(zones, IsHigh, notHigh);
    FilterMembers(zones, notHigh);
    FilterAll(zones, IsHigh);
    if HighPriorityCount(zones) == |zones| {
      assert Filter(zones, notHigh) == [];
      forall i | 0 <= i < |zones| ensures zones[i].priority == High {
        assert zones[i] in zones;
      }
    }
  }

  /** Adding a zone raises the High Priority figure by one exactly when the new zone is HIGH. */
  lemma HighPriorityAppend(zones: seq<Zone>, z: Zone)
    ensures HighPriorityCount(zones + [z]) == HighPriorityCount(zones) + (if z.priority == High then 1 else 0)
  {
    FilterConcat(zones, [z], IsHigh);
  }

  /** The "Total Bins" figure: the sum of `binCount`. */
  function TotalBins(zones: seq<Zone>): int
    decreases |zones|
  {
    if zones == [] then 0 else zones[0].binCount + TotalBins(zones[1..])
  }

  lemma {:induction false} TotalBinsConcat(a: seq<Zone>, b: seq<Zone>)
    ensures TotalBins(a + b) == TotalBins(a) + TotalBins(b)
    decreases |a|
  {
    if a == [] {
      assert a + b == b;
    } else {
      assert (a + b)[1..] == a[1..] + b;
      TotalBinsConcat(a[1..], b);
    }
  }

  /** Deleting zones never raises the Total Bins figure when bin counts are non-negative. */
  lemma {:induction false} TotalBinsSubsequence(r: seq<Zone>, s: seq<Zone>)
    requires IsSubsequence(r, s)
    requires forall i | 0 <= i < |s| :: s[i].binCount >= 0
    ensures TotalBins(r) <= TotalBins(s)
    decreases |s|
  {
    if s != [] {
      if r != [] && r[0] == s[0] {
        TotalBinsSubsequence(r[1..], s[1..]);
      } else {
        TotalBinsSubsequence(r, s[1..]);
      }
    }
  }

  class ZonesManagementState {
    var zones: seq<Zone>
    var dialogOpen: bool

    constructor ()
      ensures zones == MockZones() && !dialogOpen
    {
      zones := MockZones();
      dialogOpen := false;
    }

    /** Add a zone: it goes last, nothing else in the table changes, and the dialog closes. */
    method AddZone(data: ZoneData, now: nat)
      modifies this
      ensures zones == old(zones) + [NewZone(data, now)]
      ensures TotalBins(zones) == TotalBins(old(zones))
      ensures !dialogOpen
    {
      TotalBinsConcat(zones, [NewZone(data, now)]);
      zones := zones + [NewZone(data, now)];
      dialogOpen := false;
    }

    /** Delete: a declined confirmation keeps the table as it is. */
    method DeleteZone(id: string, confirmed: bool)
      modifies this
      ensures zones == (if confirmed then DeleteById(old(zones), id) else old(zones))
      ensures dialogOpen == old(dialogOpen)
    {
      if !confirmed {
        return;
      }
      zones := DeleteById(zones, id);
    }
  }
}
