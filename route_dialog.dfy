/** The "Create Collection Route" dialog: a route name, a selection of bin ids
    toggled by checkboxes, and a submit that builds a pending route. */
module RouteDialog {
  import opened Options
  import opened Seqs
  import opened Strings
  import opened MockData

  /** A checkbox click: an id already selected is removed, otherwise it is appended. */
  function ToggleBin(selected: seq<string>, binId: string): (r: seq<string>)
    ensures binId in r <==> binId !in selected
    ensures forall x | x != binId :: x in r <==> x in selected
    ensures binId !in selected ==> r == selected + [binId]
    ensures binId in selected ==>
              && IsSubsequence(r, selected)
              && forall y | y != binId :: multiset(r)[y] == multiset(selected)[y]
  {
    if binId in selected then Without(selected, binId) else selected + [binId]
  }

  /** A duplicate-free selection stays duplicate-free under any toggle. */
  lemma ToggleKeepsNoDuplicates(selected: seq<string>, binId: string)
    requires NoDuplicates(selected)
    ensures NoDuplicates(ToggleBin(selected, binId))
  {
    if binId in selected {
      SubsequenceNoDuplicates(ToggleBin(selected, binId), selected);
    }
  }

  /** Checking and then unchecking a bin restores the selection. */
  lemma ToggleTwice(selected: seq<string>, binId: string)
    requires binId !in selected
    ensures ToggleBin(ToggleBin(selected, binId), binId) == selected
  {
    assert ToggleBin(selected, binId) == selected + [binId];
    WithoutAppended(selected, binId);
  }

  predicate IsPriority(b: Bin)
  {
    b.status == Overflowing || b.status == NeedsPickup
  }

  predicate IsOther(b: Bin)
  {
    b.status == Ok
  }

  /** The "Priority Bins" list. */
  function PriorityBins(bins: seq<Bin>): (r: seq<Bin>)
    ensures forall b :: b in r <==> b in bins && IsPriority(b)
    ensures IsSubsequence(r, bins)
  {
    var keep := IsPriority;
    FilterMembers(bins, keep);
    FilterSubsequence(bins, keep);
    Filter(bins, keep)
  }

  /** The "Other Bins" list. */
  function OtherBins(bins: seq<Bin>): (r: seq<Bin>)
    ensures forall b :: b in r <==> b in bins && IsOther(b)
    ensures IsSubsequence(r, bins)
  {
    var keep := IsOther;
    FilterMembers(bins, keep);
    FilterSubsequence(bins, keep);
    Filter(bins, keep)
  }

  /** Every bin is listed under exactly one heading, so the two lists together
      have as many entries as there are bins. */
  lemma BinListsPartition(bins: seq<Bin>)
    ensures forall b | b in bins :: (b in PriorityBins(bins)) != (b in OtherBins(bins))
    ensures |PriorityBins(bins)| + |OtherBins(bins)| == |bins|
  {
    FilterPartition(bins, IsPriority, IsOther);
  }

  /** The route a successful submit hands to `onSave`. */
  function NewRoute(now: nat, name: string, selected: seq<string>): WasteRoute
  {
    WasteRoute("route-" + NatToString(now), name, "", Pending, selected, |selected| * 15)
  }

  class RouteDialogState {
    /** The dialog's `open` prop, closed through `onOpenChange(false)`. */
    var open: bool
    var loading: bool
    var routeName: string
    var selectedBins: seq<string>

    ghost predicate Valid()
      reads this
    {
      NoDuplicates(selectedBins) && !loading
    }

    constructor (open: bool)
      ensures Valid()
      ensures this.open == open && routeName == "" && selectedBins == []
    {
      this.open := open;
      loading := false;
      routeName := "";
      selectedBins := [];
    }

    method SetRouteName(name: string)
      requires Valid()
      modifies this
      ensures Valid()
      ensures routeName == name && selectedBins == old(selectedBins) && open == old(open)
    {
      routeName := name;
    }

    method Toggle(binId: string)
      requires Valid()
      modifies this
      ensures Valid()
      ensures selectedBins == ToggleBin(old(selectedBins), binId)
      ensures routeName == old(routeName) && open == old(open)
    {
      ToggleKeepsNoDuplicates(selectedBins, binId);
      selectedBins := ToggleBin(selectedBins, binId);
    }

    /** Submit: the Route Name input is `required`, so with an empty name the
        browser refuses the form and the handler never runs; with nothing
        selected the user is alerted and nothing is saved; otherwise the new
        route is returned for saving, the dialog closes and the form is reset. */
    method Submit(now: nat) returns (saved: Option<WasteRoute>)
      requires Valid()
      modifies this
      ensures Valid()
      ensures old(routeName) == "" || old(selectedBins) == [] ==>
                saved == None && selectedBins == old(selectedBins)
                && routeName == old(routeName) && open == old(open)
      ensures old(routeName) != "" && old(selectedBins) != [] ==>
                && saved == Some(NewRoute(now, old(routeName), old(selectedBins)))
                && routeName == "" && selectedBins == [] && !open
      ensures saved.Some? ==>
                && saved.value.name != ""
                && saved.value.status == Pending && saved.value.assignedDriver == ""
                && saved.value.stops == old(selectedBins)
                && saved.value.estimatedDuration == 15 * |saved.value.stops|
    {
      if routeName == "" {
        return None;
      }
      if |selectedBins| == 0 {
        return None;
      }
      loading := true;
      var route := NewRoute(now, routeName, selectedBins);
      saved := Some(route);
      loading := false;
      open := false;
      routeName := "";
      selectedBins := [];
    }
  }
}
