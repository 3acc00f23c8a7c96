/** The bins management table: delete with confirmation, and a dialog that either
    edits the selected bin or creates a new one. The browser's `confirm` answer
    and the clock are parameters. */
module BinsManagement {
  import opened Options
  import opened Seqs
  import opened Strings
  import opened MockData

  /** `bins.filter(b => b.id !== id)`. */
  function DeleteById(bins: seq<Bin>, id: string): (r: seq<Bin>)
    ensures forall b :: b in r <==> b in bins && b.id != id
    ensures forall b: Bin | b.id != id :: multiset(r)[b] == multiset(bins)[b]
    ensures IsSubsequence(r, bins)
    ensures (forall i | 0 <= i < |bins| :: bins[i].id != id) ==> r == bins
  {
    var keep := (b: Bin) => b.id != id;
    FilterMembers(bins, keep);
    FilterMultiset(bins, keep);
    FilterSubsequence(bins, keep);
    FilterAll(bins, keep);
    Filter(bins, keep)
  }

  /** `bins.map(b => b.id === bin.id ? bin : b)`. */
  function ReplaceById(bins: seq<Bin>, bin: Bin): (r: seq<Bin>)
    ensures |r| == |bins|
    ensures forall i | 0 <= i < |r| :: r[i] == (if bins[i].id == bin.id then bin else bins[i])
  {
    seq(|bins|, i requires 0 <= i < |bins| => if bins[i].id == bin.id then bin else bins[i])
  }

  predicate UniqueIds(bins: seq<Bin>)
  {
    forall i, j | 0 <= i < j < |bins| :: bins[i].id != bins[j].id
  }

  /** With unique ids, saving an edited bin overwrites exactly the one position
      holding its id and leaves every other bin as it was. */
  lemma ReplaceSingle(bins: seq<Bin>, bin: Bin, k: nat)
    requires UniqueIds(bins) && k < |bins| && bins[k].id == bin.id
    ensures ReplaceById(bins, bin) == bins[k := bin]
    ensures UniqueIds(ReplaceById(bins, bin))
  {
    var r := ReplaceById(bins, bin);
    forall i | 0 <= i < |bins| ensures r[i] == bins[k := bin][i] {
      if i != k {
        assert bins[i].id != bins[k].id;
      }
    }
  }

  /** Saving an edit whose id is not in the table changes nothing. */
  lemma ReplaceAbsent(bins: seq<Bin>, bin: Bin)
    requires forall i | 0 <= i < |bins| :: bins[i].id != bin.id
    ensures ReplaceById(bins, bin) == bins
  {
  }

  /** Saving the same edit twice is the same as saving it once. */
  lemma ReplaceIdempotent(bins: seq<Bin>, bin: Bin)
    ensures ReplaceById(ReplaceById(bins, bin), bin) == ReplaceById(bins, bin)
  {
  }

  /** The record a create-mode save appends: the dialog's bin under a fresh id. */
  function CreatedBin(bin: Bin, now: nat): (b: Bin)
    ensures b == bin.(id := b.id)
    ensures b.id == "new-" + NatToString(now)
  {
    bin.(id := "new-" + NatToString(now))
  }

  /** Two creates at different times give different ids. */
  lemma CreatedIdsDistinct(bin: Bin, bin2: Bin, now: nat, now2: nat)
    requires now != now2
    ensures CreatedBin(bin, now).id != CreatedBin(bin2, now2).id
  {
    var p := "new-";
    if CreatedBin(bin, now).id == CreatedBin(bin2, now2).id {
      assert (p + NatToString(now))[|p|..] == NatToString(now);
      assert (p + NatToString(now2))[|p|..] == NatToString(now2);
      NatToStringInjective(now, now2);
    }
  }

  class BinsManagementState {
    var bins: seq<Bin>
    var dialogOpen: bool
    var selectedBin: Option<Bin>

    constructor (initialBins: seq<Bin>)
      ensures bins == initialBins && !dialogOpen && selectedBin == None
    {
      bins := initialBins;
      dialogOpen := false;
      selectedBin := None;
    }

    /** Delete: a declined confirmation keeps the table as it is. */
    method Delete(id: string, confirmed: bool)
      modifies this
      ensures bins == (if confirmed then DeleteById(old(bins), id) else old(bins))
      ensures dialogOpen == old(dialogOpen) && selectedBin == old(selectedBin)
    {
      if !confirmed {
        return;
      }
      bins := DeleteById(bins, id);
    }

    method Edit(bin: Bin)
      modifies this
      ensures selectedBin == Some(bin) && dialogOpen && bins == old(bins)
    {
      selectedBin := Some(bin);
      dialogOpen := true;
    }

    method Create()
      modifies this
      ensures selectedBin == None && dialogOpen && bins == old(bins)
    {
      selectedBin := None;
      dialogOpen := true;
    }

    /** Save from the dialog: in edit mode every bin with the saved id is
        replaced; in create mode the bin is appended under a fresh `new-` id.
        Either way the dialog closes. */
    method Save(bin: Bin, now: nat)
      modifies this
      ensures old(selectedBin).Some? ==> bins == ReplaceById(old(bins), bin)
      ensures old(selectedBin).None? ==> bins == old(bins) + [CreatedBin(bin, now)]
      ensures old(selectedBin).None? ==> |bins| == |old(bins)| + 1 && bins[..|old(bins)|] == old(bins)
      ensures old(selectedBin).Some? ==> |bins| == |old(bins)|
      ensures !dialogOpen && selectedBin == old(selectedBin)
    {
      if selectedBin.Some? {
        bins := ReplaceById(bins, bin);
      } else {
        bins := bins + [CreatedBin(bin, now)];
      }
      dialogOpen := false;
    }
  }
}
