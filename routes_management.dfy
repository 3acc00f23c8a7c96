/** The routes management table: delete with confirmation and create through the
    route dialog. */
module RoutesManagement {
  import opened Seqs
  import opened MockData

  /** The test `r.id !== id`. */
  function OtherId(id: string): WasteRoute -> bool
  {
    (x: WasteRoute) => x.id != id
  }

  /** `routes.filter(r => r.id !== id)`. */
  function DeleteById(routes: seq<WasteRoute>, id: string): (r: seq<WasteRoute>)
    ensures forall x :: x in r <==> x in routes && x.id != id
    ensures forall x: WasteRoute | x.id != id :: multiset(r)[x] == multiset(routes)[x]
    ensures IsSubsequence(r, routes)
    ensures (forall i | 0 <= i < |routes| :: routes[i].id != id) ==> r == routes
  {
    var keep := OtherId(id);
    FilterMembers(routes, keep);
    FilterMultiset(routes, keep);
    FilterSubsequence(routes, keep);
    FilterAll(routes, keep);
    Filter(routes, keep)
  }

  /** Deleting twice by the same id is the same as deleting once. */
  lemma DeleteIdempotent(routes: seq<WasteRoute>, id: string)
    ensures DeleteById(DeleteById(routes, id), id) == DeleteById(routes, id)
  {
    var r := DeleteById(routes, id);
    forall i | 0 <= i < |r| ensures r[i].id != id {
      assert r[i] in r;
    }
  }

  /** Creating a route and then deleting its id removes it again, provided no
      other route had the same id. */
  lemma CreateThenDelete(routes: seq<WasteRoute>, route: WasteRoute)
    requires forall i | 0 <= i < |routes| :: routes[i].id != route.id
    ensures DeleteById(routes + [route], route.id) == routes
  {
    FilterConcat(routes, [route], OtherId(route.id));
    FilterSingle(route, OtherId(route.id));
    FilterAll(routes, OtherId(route.id));
  }

  class RoutesManagementState {
    var routes: seq<WasteRoute>
    var dialogOpen: bool

    constructor (initialRoutes: seq<WasteRoute>)
      ensures routes == initialRoutes && !dialogOpen
    {
      routes := initialRoutes;
      dialogOpen := false;
    }

    /** Delete: a declined confirmation keeps the table as it is. */
    method Delete(id: string, confirmed: bool)
      modifies this
      ensures routes == (if confirmed then DeleteById(old(routes), id) else old(routes))
      ensures dialogOpen == old(dialogOpen)
    {
      if !confirmed {
        return;
      }
      routes := DeleteById(routes, id);
    }

    method OpenDialog()
      modifies this
      ensures dialogOpen && routes == old(routes)
    {
      dialogOpen := true;
    }

    /** The dialog's save callback: the route goes last and the dialog closes. */
    method Create(route: WasteRoute)
      modifies this
      ensures routes == old(routes) + [route]
      ensures |routes| == |old(routes)| + 1 && routes[..|old(routes)|] == old(routes)
      ensures !dialogOpen
    {
      routes := routes + [route];
      dialogOpen := false;
    }
  }
}
