/** The project records, `CasePage`'s lookup by slug and `HomePage`'s
    featured slice, for both versions of the site. */
module Portfolio {
  import opened Options
  import opened HashRoute

  /** A project record, reduced to what lookup and routing use: the slug that
      keys it and the title shown for it. */
  datatype Project = Project(slug: string, title: string)

  /** `PROJECTS` of the full site: three case studies. */
  const Projects: seq<Project> := [
    Project("tax-savings-simulator", "Tax Savings Simulator"),
    Project("multi-jurisdiction-compliance", "Multi‑Jurisdiction Compliance Tracker"),
    Project("fx-exposure-dashboard", "FX Exposure & Hedging Dashboard")
  ]

  /** `PROJECTS` of the earlier version of the site: one case study. */
  const DraftProjects: seq<Project> := [
    Project("tax-savings-simulator", "Tax Savings Simulator")
  ]

  /** No two records share a slug. */
  ghost predicate DistinctSlugs(ps: seq<Project>)
  {
    forall i, j :: 0 <= i < j < |ps| ==> ps[i].slug != ps[j].slug
  }

  /** `ps[i]` is the first record whose slug is `slug`. */
  ghost predicate FirstWithSlug(ps: seq<Project>, i: int, slug: string)
  {
    0 <= i < |ps| && ps[i].slug == slug &&
    forall j :: 0 <= j < i ==> ps[j].slug != slug
  }

  /** `ps.find((p) => p.slug === slug)`: the first record with that slug, and
      nothing when `slug` is `undefined` or no record carries it. */
  function Find(ps: seq<Project>, slug: Option<string>): (r: Option<Project>)
    ensures r.Some? ==> slug.Some? && exists i :: FirstWithSlug(ps, i, slug.value) && ps[i] == r.value
    ensures r.None? ==> slug.None? || forall i :: 0 <= i < |ps| ==> ps[i].slug != slug.value
    decreases |ps|
  {
    if ps == [] then None
    else if slug.Some? && ps[0].slug == slug.value then
      assert FirstWithSlug(ps, 0, slug.value);
      Some(ps[0])
    else
      assert slug.Some? ==> forall i :: FirstWithSlug(ps[1..], i, slug.value) ==> FirstWithSlug(ps, i + 1, slug.value);
      Find(ps[1..], slug)
  }

  /** `ps.slice(0, 3)`: the first three records, or all of them when fewer. */
  function Featured(ps: seq<Project>): (top: seq<Project>)
    ensures |top| == if |ps| < 3 then |ps| else 3
    ensures top == ps[..|top|]
  {
    ps[..if |ps| < 3 then |ps| else 3]
  }

  /** With distinct slugs a record is found by its own slug, and only by it. */
  lemma {:induction false} FindBySlug(ps: seq<Project>, p: Project)
    requires DistinctSlugs(ps) && p in ps
    ensures Find(ps, Some(p.slug)) == Some(p)
    decreases |ps|
  {
    if ps[0] != p {
      assert p in ps[1..];
      FindBySlug(ps[1..], p);
    }
  }

  /** The slugs of both versions' records are pairwise distinct and contain no `/`. */
  lemma SlugsWellFormed()
    ensures DistinctSlugs(Projects) && DistinctSlugs(DraftProjects)
    ensures forall p :: p in Projects ==> '/' !in p.slug
    ensures forall p :: p in DraftProjects ==> '/' !in p.slug
  {
    assert Projects[0].slug[0] == 't';
    assert Projects[1].slug[0] == 'm';
    assert Projects[2].slug[0] == 'f';
  }

  /** The full site features all three records, the earlier one its single record. */
  lemma FeaturedIsAll()
    ensures Featured(Projects) == Projects
    ensures Featured(DraftProjects) == DraftProjects
  {
  }

  /** Following a record's case-study link (`navigate("case/" + p.slug)`)
      through the address bar, the route and the lookup opens that record. */
  lemma CaseLinkOpensProject(ps: seq<Project>, p: Project)
    requires DistinctSlugs(ps) && p in ps && '/' !in p.slug
    ensures Derive(Normalize(NavTarget("case/" + p.slug))) == View("case", Some(p.slug))
    ensures Find(ps, Derive(Normalize(NavTarget("case/" + p.slug))).slug) == Some(p)
  {
    NavigateToCase(p.slug);
    FindBySlug(ps, p);
  }

  /** Every featured and listed case-study link of the full site opens its record. */
  lemma SiteCaseLinksResolve(p: Project)
    requires p in Projects
    ensures Find(Projects, Derive(Normalize(NavTarget("case/" + p.slug))).slug) == Some(p)
  {
    SlugsWellFormed();
    CaseLinkOpensProject(Projects, p);
  }

  /** The earlier site's case-study link opens its one record, and its "back to
      work" button reaches the work page. */
  lemma DraftLinksResolve(p: Project)
    requires p in DraftProjects
    ensures Find(DraftProjects, Derive(Normalize(NavTarget("case/" + p.slug))).slug) == Some(p)
    ensures Normalize(NavTarget("case/" + p.slug)) == "case/" + p.slug
    ensures Normalize(NavTarget("work")) == "work"
  {
    SlugsWellFormed();
    CaseLinkOpensProject(DraftProjects, p);
    assert ("case/" + p.slug)[0] == 'c';
    NavigateRoundTrip("case/" + p.slug);
    NavigateRoundTrip("work");
  }

  /** A case route without a slug, or with an unknown one, finds nothing and
      `CasePage` shows its not-found message. */
  lemma CaseNotFound(ps: seq<Project>, slug: string)
    requires '/' !in slug && forall i :: 0 <= i < |ps| ==> ps[i].slug != slug
    ensures Find(ps, Derive(Normalize(NavTarget("case"))).slug) == None
    ensures Find(ps, Derive(Normalize(NavTarget("case/" + slug))).slug) == None
  {
    assert "case"[0] != '#' && '/' !in "case";
    NavigateRoundTrip("case");
    DeriveSegment("case");
    NavigateToCase(slug);
    assert Find(ps, Some(slug)) == None;
  }

}
