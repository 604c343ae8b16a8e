/** The pure half of the hash router: turning `window.location.hash` into a
    route, the hash that `navigate` writes, the `(page, slug)` view derived
    from a route, the page body it selects, and the header's active link. */
module HashRoute {
  import opened Options
  import opened Segments

  /** The view state `App` derives from the route: a page name and, on a case
      study page, the optional project slug. */
  datatype View = View(page: string, slug: Option<string>)

  /** The page bodies `App` may render inside `<main>`. */
  datatype Body = HomeBody | WorkBody | CaseBody(slug: Option<string>) | AboutBody | ContactBody

  /** The page names `App` has a body for. */
  const KnownPages: set<string> := {"home", "work", "case", "about", "contact"}

  /** The `to` targets of the header's four `NavLink`s, in order. */
  const NavLinks: seq<string> := ["home", "work", "about", "contact"]

  /** `hash.replace(/^#\/?/, "")`: drops one leading `#` and, only when it
      comes right after that `#`, one `/`. */
  function StripHash(hash: string): (r: string)
    ensures |r| <= |hash| && hash[|hash| - |r|..] == r
    ensures hash[..|hash| - |r|] ==
      if StartsWith(hash, "#/") then "#/" else if StartsWith(hash, "#") then "#" else ""
  {
    if |hash| > 0 && hash[0] == '#' then
      if |hash| > 1 && hash[1] == '/' then hash[2..] else hash[1..]
    else hash
  }

  /** `hash.replace(/^#\/?/, "") || "home"`: the route `useHashRoute` stores. */
  function Normalize(hash: string): (route: string)
    ensures route != ""
    ensures StripHash(hash) != "" ==> route == StripHash(hash)
  {
    var stripped := StripHash(hash);
    if stripped == "" then "home" else stripped
  }

  /** What `navigate(to)` assigns to `window.location.hash`. */
  function NavTarget(to: string): (hash: string)
    ensures StartsWith(hash, "#")
    ensures StartsWith(to, "#") ==> hash == to
    ensures !StartsWith(to, "#") ==> hash == "#/" + to && hash[2..] == to
  {
    if StartsWith(to, "#") then to else "#/" + to
  }

  /** The hash after the mount effect: an empty hash becomes `navigate("home")`'s. */
  function MountHash(hash: string): (h: string)
    ensures h != ""
    ensures hash == "" ==> h == "#/home"
    ensures hash != "" ==> h == hash
  {
    if hash == "" then
      assert "home"[0] != '#';
      NavTarget("home")
    else hash
  }

  /** `route.split("/")` and the `(page, slug)` pair `App` memoises. */
  function Derive(route: string): (v: View)
    ensures v.page != "" && '/' !in v.page
    ensures v.slug.Some? ==> v.page == "case" && '/' !in v.slug.value
  {
    var parts := Split(route);
    if parts[0] == "case" then View("case", if |parts| > 1 then Some(parts[1]) else None)
    else View(if parts[0] == "" then "home" else parts[0], None)
  }

  /** The five `page === ...` tests in `App`, as the list of bodies rendered. */
  function Dispatch(v: View): (bodies: seq<Body>)
    ensures |bodies| <= 1
    ensures |bodies| == 1 <==> v.page in KnownPages
    ensures v.page == "case" ==> bodies == [CaseBody(v.slug)]
  {
    (if v.page == "home" then [HomeBody] else []) +
    (if v.page == "work" then [WorkBody] else []) +
    (if v.page == "case" then [CaseBody(v.slug)] else []) +
    (if v.page == "about" then [AboutBody] else []) +
    (if v.page == "contact" then [ContactBody] else [])
  }

  /** `NavLink`'s highlight test: the hash with `#` and `/` stripped, and no
      `"home"` default, equals the link's target, or names a case study while
      the link is the "work" one. */
  function IsActive(hash: string, to: string): (active: bool)
    ensures hash == "" || hash == "#" || hash == "#/" ==> (active <==> to == "")
    ensures to != "work" ==> (active <==> StripHash(hash) == to)
    ensures to == "work" ==>
      (active <==> StripHash(hash) == "work" || StartsWith(StripHash(hash), "case/"))
    ensures StartsWith(hash, "#/case/") ==> (active <==> to == "work" || StripHash(hash) == to)
  {
    var route := StripHash(hash);
    route == to || (StartsWith(route, "case/") && to == "work")
  }

  // ---------------------------------------------------------------------
  // Normalisation

  /** A hash not starting with `#` passes through; `"#//x"` loses only `#/`. */
  lemma StripHashCases(hash: string)
    ensures !StartsWith(hash, "#") ==> StripHash(hash) == hash
    ensures StartsWith(hash, "#") && !StartsWith(hash, "#/") ==> "#" + StripHash(hash) == hash
    ensures StartsWith(hash, "#/") ==> "#/" + StripHash(hash) == hash
    ensures StripHash("#//x") == "/x" && StripHash("/x") == "/x"
  {
    var r := StripHash(hash);
    if StartsWith(hash, "#/") {
      assert hash == hash[..2] + r;
    } else if StartsWith(hash, "#") {
      assert hash == hash[..1] + r;
    }
    assert "#//x"[2..] == "/x";
  }

  /** The three spellings of an empty hash all give the route `"home"`. */
  lemma EmptyHashIsHome()
    ensures Normalize("") == "home" && Normalize("#") == "home" && Normalize("#/") == "home"
  {
  }

  /** A route is left alone by normalisation exactly when it is non-empty and
      does not start with `#`. */
  lemma NormalizeFixedPoint(r: string)
    ensures Normalize(r) == r <==> r != "" && !StartsWith(r, "#")
  {
    if r != "" && StartsWith(r, "#") {
      var s := StripHash(r);
      if s != "" {
        assert |s| < |r|;
      } else {
        assert r == "#" || r == "#/" by {
          assert r[..|r| - |s|] == r;
        }
      }
    }
  }

  // ---------------------------------------------------------------------
  // navigate and the hash it writes

  /** Round trip: normalising the hash written by `navigate(to)` gives `to`
      back when `to` is non-empty and does not start with `#`; a target that
      already starts with `#` is normalised as written, and `""` reaches home. */
  lemma NavigateRoundTrip(to: string)
    ensures !StartsWith(to, "#") && to != "" ==> Normalize(NavTarget(to)) == to
    ensures StartsWith(to, "#") ==> Normalize(NavTarget(to)) == Normalize(to)
    ensures Normalize(NavTarget("")) == "home"
  {
    if !StartsWith(to, "#") {
      assert StartsWith(NavTarget(to), "#/");
    }
    assert NavTarget("") == "#/";
  }

  /** `navigate(x)`, `navigate("#" + x)` and `navigate("#/" + x)` reach the same
      route, for any `x` that does not itself start with `#` or `/`. */
  lemma NavigateHashSpellings(x: string)
    requires !StartsWith(x, "#") && !StartsWith(x, "/")
    ensures Normalize(NavTarget("#" + x)) == Normalize(NavTarget(x))
    ensures Normalize(NavTarget("#/" + x)) == Normalize(NavTarget(x))
  {
    var h1 := "#" + x;
    assert StartsWith(h1, "#");
    assert !StartsWith(h1, "#/") by {
      if |x| > 0 { assert h1[1] == x[0]; assert x[..1] != "/"; }
    }
    assert h1[1..] == x;
    var h2 := "#/" + x;
    assert StartsWith(h2, "#/") && h2[2..] == x;
    NavigateRoundTrip(x);
  }

  /** Conversely, when `x` starts with `#` or `/`, `navigate("#" + x)` reaches a
      different route from `navigate(x)`. */
  lemma NavigateHashSpellingsConverse(x: string)
    requires StartsWith(x, "#") || StartsWith(x, "/")
    ensures Normalize(NavTarget("#" + x)) != Normalize(NavTarget(x))
  {
    var h := "#" + x;
    assert StartsWith(h, "#") && h[1..] == x && h[1] == x[0];
    if StartsWith(x, "#") {
      assert !StartsWith(h, "#/");
      assert StripHash(h) == x;
      NormalizeFixedPoint(x);
    } else {
      assert x[0] == '/';
      assert StartsWith(h, "#/") && StripHash(h) == x[1..];
      assert !StartsWith(x, "#");
      NavigateRoundTrip(x);
      if x[1..] == "" {
        assert Normalize(h) == "home" && x == "/";
      } else {
        assert |x[1..]| < |x|;
      }
    }
  }

  /** A leading `/` in a target is not absorbed: `navigate("/work")` writes
      `"#//work"`, whose route `"/work"` has an empty first segment, so the
      page is `"home"`, not `"work"`. */
  lemma NavigateLeadingSlash()
    ensures NavTarget("/work") == "#//work"
    ensures Normalize(NavTarget("/work")) == "/work"
    ensures Derive(Normalize(NavTarget("/work"))) == View("home", None)
    ensures Derive(Normalize(NavTarget("work"))) == View("work", None)
  {
    assert "#//work"[2..] == "/work";
    assert "/work" == "" + "/" + "work";
    SplitAtFirstSlash("", "work");
    SplitNoSlash("work");
    assert "#/work"[2..] == "work";
  }

  // ---------------------------------------------------------------------
  // Derivation of (page, slug)

  /** A single-segment route: `"case"` has no slug, an empty segment is
      `"home"`, and any other name (known or not) is the page as written. */
  lemma DeriveSegment(p: string)
    requires '/' !in p
    ensures Derive(p) == if p == "case" then View("case", None)
                         else View(if p == "" then "home" else p, None)
  {
    SplitNoSlash(p);
  }

  /** `"case/<slug>"`, with any further segments, has page `"case"` and that slug. */
  lemma DeriveCase(slug: string, rest: string)
    requires '/' !in slug
    ensures Derive("case/" + slug) == View("case", Some(slug))
    ensures Derive("case/" + slug + "/" + rest) == View("case", Some(slug))
  {
    assert "case/" + slug == "case" + "/" + slug;
    SplitAtFirstSlash("case", slug);
    SplitNoSlash(slug);
    assert "case/" + slug + "/" + rest == "case" + "/" + (slug + "/" + rest);
    SplitAtFirstSlash("case", slug + "/" + rest);
    SplitAtFirstSlash(slug, rest);
  }

  /** Any first segment other than `"case"` is the page (empty becomes
      `"home"`), with no slug, whatever follows it. */
  lemma DeriveOther(a: string, b: string)
    requires '/' !in a && a != "case"
    ensures Derive(a + "/" + b) == View(if a == "" then "home" else a, None)
  {
    SplitAtFirstSlash(a, b);
  }

  /** Partition of all routes: the page is `"case"` exactly for `"case"` and
      routes starting with `"case/"`, and a slug is present exactly for the latter. */
  lemma DeriveCasePartition(route: string)
    ensures Derive(route).slug.Some? <==> StartsWith(route, "case/")
    ensures Derive(route).page == "case" <==> route == "case" || StartsWith(route, "case/")
  {
    var parts := Split(route);
    FirstSegment(route);
    var p := parts[0];
    if |parts| == 1 {
      if |route| >= 5 {
        assert route[4] in p;
        assert route[..5][4] != '/';
      }
    } else {
      var tail := Join(parts[1..]);
      assert route == p + "/" + tail;
      if p == "case" {
        assert route[..5] == "case/";
      } else if |p| < 4 {
        assert route[|p|] == '/';
      } else if |p| == 4 {
        assert route[..5][..4] == p;
      } else {
        assert route[4] == p[4] && p[4] in p;
      }
    }
  }

  /** Round trip through the address bar for a case study link:
      `navigate("case/" + slug)` then normalise then derive gives `("case", slug)`. */
  lemma NavigateToCase(slug: string)
    requires '/' !in slug
    ensures Derive(Normalize(NavTarget("case/" + slug))) == View("case", Some(slug))
  {
    assert StartsWith("case/" + slug, "c");
    NavigateRoundTrip("case/" + slug);
    DeriveCase(slug, "");
  }

  /** Round trip for every header link: navigating to it derives that page
      with no slug, and exactly one body is rendered for it. */
  lemma NavigateToNavLink(to: string)
    requires to in NavLinks
    ensures Derive(Normalize(NavTarget(to))) == View(to, None)
    ensures |Dispatch(Derive(Normalize(NavTarget(to))))| == 1
  {
    NavLinkShape(to);
    NavigateRoundTrip(to);
    DeriveSegment(to);
  }

  /** The mount-time rewrite of an empty hash to `"#/home"` does not change
      the derived view. */
  lemma MountKeepsView(hash: string)
    ensures Derive(Normalize(MountHash(hash))) == Derive(Normalize(hash))
  {
    if hash == "" {
      NavigateToNavLink("home");
      DeriveSegment("home");
    }
  }

  // ---------------------------------------------------------------------
  // Dispatch

  /** Dispatch renders exactly the body named by the page, or nothing for a
      page name outside the known five. */
  lemma DispatchBody(v: View)
    ensures v.page == "home" ==> Dispatch(v) == [HomeBody]
    ensures v.page == "work" ==> Dispatch(v) == [WorkBody]
    ensures v.page == "about" ==> Dispatch(v) == [AboutBody]
    ensures v.page == "contact" ==> Dispatch(v) == [ContactBody]
    ensures v.page !in KnownPages ==> Dispatch(v) == []
  {
  }

  // ---------------------------------------------------------------------
  // NavLink

  /** Each header link target is a non-empty single segment other than
      `"case"`, starting with neither `#` nor `"case/"`. */
  lemma NavLinkShape(to: string)
    requires to in NavLinks
    ensures to != "" && '/' !in to && to != "case"
    ensures !StartsWith(to, "#") && !StartsWith(to, "case/")
  {
    assert to == "home" || to == "work" || to == "about" || to == "contact";
    assert to[0] != '#' && to[..1] != "#";
    if |to| >= 5 {
      assert to[..5][1] == to[1] != 'a';
    }
  }

  /** With an empty hash no header link is highlighted. */
  lemma NoActiveLinkOnEmptyHash(to: string)
    requires to in NavLinks
    ensures !IsActive("", to)
  {
  }

  /** At most one header link is highlighted for any hash. */
  lemma AtMostOneActiveLink(hash: string, i: nat, j: nat)
    requires i < j < |NavLinks|
    ensures !(IsActive(hash, NavLinks[i]) && IsActive(hash, NavLinks[j]))
  {
    var route := StripHash(hash);
    if StartsWith(route, "case/") {
      assert route[..5] == "case/";
      forall k | 0 <= k < |NavLinks| ensures route != NavLinks[k] {
        NavLinkShape(NavLinks[k]);
      }
    }
  }

  /** A highlighted link agrees with the derived page: either the page is the
      link's own, or the page is a case study and the link is "work". */
  lemma ActiveLinkMatchesPage(hash: string, to: string)
    requires to in NavLinks && IsActive(hash, to)
    ensures Derive(Normalize(hash)).page == to ||
            (to == "work" && Derive(Normalize(hash)).page == "case")
  {
    var route := StripHash(hash);
    if route == to {
      NavLinkShape(to);
      DeriveSegment(to);
    } else {
      DeriveCasePartition(route);
    }
  }

  /** The hash `navigate(to)` writes for a header link satisfies that link's
      highlight test, and the hash of `navigate("case/" + slug)` satisfies the
      "work" link's. The highlight shows when `NavLink` next evaluates it,
      which is on mount. */
  lemma NavigateHighlights(to: string, slug: string)
    requires to in NavLinks
    ensures IsActive(NavTarget(to), to)
    ensures IsActive(NavTarget("case/" + slug), "work")
  {
    NavLinkShape(to);
    var c := "case/" + slug;
    assert !StartsWith(c, "#") by { assert c[0] == 'c'; }
    assert StartsWith(NavTarget(c), "#/");
    assert StripHash(NavTarget(c)) == c;
    assert c[..5] == "case/";
  }

}
