/** src/components/layouts/admin-layouts/RoutesPage.tsx: the route list of an admin.
    The search keeps the routes whose name, pickup city or drop-off city contains the
    search text, ignoring case, and a route can be deleted from the list. */
module RoutesPage {
  import opened Js

  /** A route as listed: the fields the page reads, each possibly missing. */
  datatype Route = Route(id: string, routeName: Option<string>, pickupCity: Option<string>,
                         dropoffCity: Option<string>)

  /** The predicate of `filteredRoutes`. */
  predicate RouteShown(r: Route, search: string) {
    FieldMatches(r.routeName, search) || FieldMatches(r.pickupCity, search) || FieldMatches(r.dropoffCity, search)
  }

  function FilteredRoutes(routes: seq<Route>, search: string): (r: seq<Route>)
    ensures forall i :: 0 <= i < |r| ==> r[i] in routes && RouteShown(r[i], search)
    ensures forall i :: 0 <= i < |routes| && RouteShown(routes[i], search) ==> routes[i] in r
  {
    Filter(routes, (x: Route) => RouteShown(x, search))
  }

  /** The shown routes keep the order of the list, and the case of the search text
      does not matter. */
  lemma FilteredRoutesSpec(routes: seq<Route>, search: string)
    ensures SubsequenceOf(FilteredRoutes(routes, search), routes)
    ensures FilteredRoutes(routes, ToLower(search)) == FilteredRoutes(routes, search)
  {
    FilterIsSubsequence(routes, (x: Route) => RouteShown(x, search));
    forall i | 0 <= i < |routes|
      ensures RouteShown(routes[i], ToLower(search)) == RouteShown(routes[i], search)
    {
      FieldMatchesCaseBlind(routes[i].routeName, search);
      FieldMatchesCaseBlind(routes[i].pickupCity, search);
      FieldMatchesCaseBlind(routes[i].dropoffCity, search);
    }
    FilterCongruent(routes, (x: Route) => RouteShown(x, ToLower(search)),
                    (x: Route) => RouteShown(x, search));
  }

  /** A route with none of the three fields is never shown, not even for an empty
      search; one with a name is shown for an empty search. */
  lemma RouteShownCases(r: Route, search: string)
    ensures r.routeName.None? && r.pickupCity.None? && r.dropoffCity.None? ==> !RouteShown(r, search)
    ensures r.routeName.Some? && search == "" ==> RouteShown(r, search)
  {
    if r.routeName.Some? && search == "" {
      assert OccursAt(ToLower(r.routeName.value), ToLower(search), 0);
    }
  }

  /** The collection without the document `id`. */
  function Without(routes: seq<Route>, id: string): (r: seq<Route>)
    ensures forall i :: 0 <= i < |r| ==> r[i].id != id && r[i] in routes
    ensures forall i :: 0 <= i < |routes| && routes[i].id != id ==> routes[i] in r
  {
    Filter(routes, (x: Route) => x.id != id)
  }

  /** Deleting keeps every other route in its order, and deleting an id that is not
      there, or deleting twice, changes nothing. */
  lemma WithoutSpec(routes: seq<Route>, id: string)
    ensures SubsequenceOf(Without(routes, id), routes)
    ensures (forall i :: 0 <= i < |routes| ==> routes[i].id != id) ==> Without(routes, id) == routes
    ensures Without(Without(routes, id), id) == Without(routes, id)
  {
    FilterIsSubsequence(routes, (x: Route) => x.id != id);
    FilterKeepsAll(routes, (x: Route) => x.id != id);
    FilterKeepsAll(Without(routes, id), (x: Route) => x.id != id);
  }

  class Page {
    /** The admin's routes collection, in listing order. */
    var store: seq<Route>
    /** The list last fetched. */
    var routes: seq<Route>

    constructor (store: seq<Route>)
      ensures this.store == store && routes == store
    {
      this.store := store;
      routes := store;
    }

    /** `handleDelete`: with an admin signed in, the route is deleted and the list
        fetched again; `deleteOk` is the outcome of `deleteDoc`, whose failure stops
        the handler before the fetch. */
    method HandleDelete(adminId: Option<string>, id: string, deleteOk: bool)
      modifies this
      ensures adminId.Some? && deleteOk ==> store == Without(old(store), id) && routes == store
      ensures adminId.None? || !deleteOk ==> store == old(store) && routes == old(routes)
    {
      if adminId.None? {
        return;
      }
      if !deleteOk {
        return;
      }
      store := Without(store, id);
      routes := store;
    }
  }
}
