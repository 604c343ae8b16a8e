/** The stateful half of `useHashRoute`: the address bar's hash and the
    `route` state slot, the `navigate` setter, the `hashchange` handler and
    `App`'s mount-time redirect. */
module Router {
  import opened Options
  import opened Segments
  import opened HashRoute

  class HashRouter {
    /** `window.location.hash` as last assigned or read. */
    var locationHash: string
    /** The `hash` state slot of `useHashRoute`, exposed as `route`. */
    var route: string

    /** The stored route is never empty. */
    ghost predicate Valid()
      reads this
    {
      route != ""
    }

    /** The stored route is the one the current hash normalises to. */
    ghost predicate Synced()
      reads this
    {
      route == Normalize(locationHash)
    }

    /** Mounting `useHashRoute`: the state slot starts from the current hash. */
    constructor (initialHash: string)
      ensures locationHash == initialHash
      ensures route == Normalize(initialHash)
      ensures Valid() && Synced()
    {
      locationHash := initialHash;
      route := Normalize(initialHash);
    }

    /** `navigate(to)`: writes the hash and leaves the state slot to the
        `hashchange` handler. */
    method Navigate(to: string)
      requires Valid()
      modifies this`locationHash
      ensures Valid()
      ensures locationHash == NavTarget(to)
      ensures StartsWith(to, "#") ==> locationHash == to
      ensures !StartsWith(to, "#") ==> locationHash == "#/" + to
      ensures route == old(route)
    {
      if StartsWith(to, "#") {
        locationHash := to;
      } else {
        locationHash := "#/" + to;
      }
    }

    /** The `hashchange` handler: re-reads the hash into the state slot. */
    method OnHashChange()
      modifies this`route
      ensures route == Normalize(locationHash)
      ensures locationHash == old(locationHash)
      ensures Valid() && Synced()
    {
      var stripped := StripHash(locationHash);
      if stripped == "" {
        route := "home";
      } else {
        route := stripped;
      }
    }

    /** `App`'s mount effect: an empty hash is replaced by `navigate("home")`. */
    method Mount()
      requires Valid()
      modifies this`locationHash
      ensures Valid()
      ensures locationHash == MountHash(old(locationHash))
      ensures route == old(route)
    {
      if locationHash == "" {
        Navigate("home");
      }
    }

    /** A `navigate(to)` followed by the browser's `hashchange` event, which
        fires only when the assigned hash differs from the current one. Either
        way the state slot ends on the route of the new hash. */
    method NavigateAndNotify(to: string)
      requires Synced()
      modifies this
      ensures locationHash == NavTarget(to)
      ensures route == Normalize(NavTarget(to))
      ensures Valid() && Synced()
      ensures !StartsWith(to, "#") && to != "" ==> route == to
    {
      var before := locationHash;
      Navigate(to);
      if locationHash != before {
        OnHashChange();
      }
      NavigateRoundTrip(to);
    }
  }

  /** A first visit with an empty hash: the mount redirect and its event leave
      the home page showing, and a case-study link then shows that case. */
  method FirstVisit(slug: string) returns (before: View, after: View)
    requires '/' !in slug
    ensures before == View("home", None) && Dispatch(before) == [HomeBody]
    ensures after == View("case", Some(slug))
  {
    var r := new HashRouter("");
    r.Mount();
    r.OnHashChange();
    MountKeepsView("");
    DeriveSegment("home");
    before := Derive(r.route);
    r.NavigateAndNotify("case/" + slug);
    NavigateToCase(slug);
    after := Derive(r.route);
  }
}
