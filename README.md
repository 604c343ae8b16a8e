# Portfolio hash router — a Dafny model

The portfolio site is a single-page React application with a hash router.
`useHashRoute` turns `window.location.hash` into a route string: it strips
`^#\/?` and falls back to `"home"`. `navigate(to)` writes `to` into the hash, with
`#/` put in front unless `to` already starts with `#`. `App` splits the route
on `/` into a `(page, slug)` view, redirects an empty hash to `#/home` on mount,
and renders at most one of five page bodies. `NavLink` highlights the header link that
matches the hash. `CasePage` looks up a project by slug, and `HomePage`
features the first three projects.

The two versions of the site (`src/src/App.jsx`, and the earlier, shorter
`src/App.jsx`) share the same router code, so one set of definitions models
both. Their project lists differ: three records and one record.

Modules:

- `Options`: `Option`, standing for JavaScript's `undefined`.
- `Segments`: `startsWith` and `split("/")`, with `Join` as the inverse of `Split`.
- `HashRoute`: normalisation, navigate targets, the mount redirect, the
  `(page, slug)` derivation, dispatch and the nav-link predicate. All are
  pure functions, and the lemmas about them live here too.
- `Portfolio`: the project records (slug and title), `find` by slug and `slice(0, 3)`.
- `Router`: the class `HashRouter`. Its fields are `locationHash` (the address
  bar) and `route` (the hook's state slot). Its methods are `Navigate`,
  `OnHashChange` (the `hashchange` handler) and `Mount` (the redirect effect).

Two points where the code is narrower than "strip any leading `#` and `/`,
and fall back to a default page for unknown names". The model follows the
code in both:

- Only `#` and `#/` are absorbed. `navigate("/work")` writes `"#//work"`, and
  that hash normalises to `"/work"`. Its first segment is empty, so the page
  is `"home"`. `HashRoute.NavigateLeadingSlash` states this.
  `navigate(x)`, `navigate("#" + x)` and `navigate("#/" + x)` agree only when
  `x` starts with neither `#` nor `/` (`HashRoute.NavigateHashSpellings`, and
  `HashRoute.NavigateHashSpellingsConverse` for the other direction).
- Page names are not checked. Any first segment becomes the page. A page
  outside the five known names renders no body at all (`HashRoute.Dispatch`);
  there is no fallback page.

## Model

| member | source | states |
|---|---|---|
| `Segments.StartsWith` | src/src/App.jsx:12 | `startsWith` holds exactly when every character of the prefix matches the start of the string; the string is then that prefix followed by the rest |
| `Segments.Split` | src/src/App.jsx:386 | `split("/")` always yields at least one segment, and no segment contains `/` |
| `Segments.JoinSplit` | src/src/App.jsx:386 | joining the segments with `/` gives back the route, so splitting loses nothing |
| `Segments.SplitJoin` | src/src/App.jsx:386 | splitting a `/`-join of slash-free segments gives back those segments (the other direction of the inverse) |
| `Segments.SplitNoSlash` | src/src/App.jsx:386 | a slash-free route is a single segment |
| `Segments.SplitAtFirstSlash` | src/src/App.jsx:386-387 | the first `/` ends the first segment; the remainder is split on its own |
| `Segments.FirstSegment` | src/src/App.jsx:386-388 | every route is either one segment, or its first segment, a `/`, and the rest |
| `HashRoute.StripHash` | src/src/App.jsx:5 | the result is a suffix of the hash; the removed prefix is `#/` if the hash starts with it, else `#` if it starts with that, else nothing |
| `HashRoute.StripHashCases` | src/src/App.jsx:5-7 | a hash not starting with `#` is unchanged; otherwise `#` or `#/` is removed; `"#//x"` gives `"/x"` and `"/x"` stays `"/x"` |
| `HashRoute.Normalize` | src/src/App.jsx:5-7 | the stored route is never empty; a non-empty stripped hash is kept as it is |
| `HashRoute.EmptyHashIsHome` | src/src/App.jsx:5 | `""`, `"#"` and `"#/"` all give the route `"home"` |
| `HashRoute.NormalizeFixedPoint` | src/src/App.jsx:5-7 | normalisation leaves a string unchanged if and only if it is non-empty and does not start with `#` |
| `HashRoute.NavTarget` | src/src/App.jsx:11-13 | the written hash starts with `#`; it is `to` itself when `to` starts with `#`, and `"#/" + to` otherwise |
| `HashRoute.NavigateRoundTrip` | src/src/App.jsx:5-13 | normalising what `navigate(to)` writes gives back `to` for a non-empty `to` not starting with `#`; a `#`-target normalises as written; `navigate("")` reaches `"home"` |
| `HashRoute.NavigateHashSpellings` | src/src/App.jsx:5-12 | `navigate(x)`, `navigate("#"+x)` and `navigate("#/"+x)` reach the same route when `x` starts with neither `#` nor `/` |
| `HashRoute.NavigateHashSpellingsConverse` | src/src/App.jsx:5-12 | when `x` starts with `#` or `/`, `navigate("#"+x)` and `navigate(x)` reach different routes |
| `HashRoute.NavigateLeadingSlash` | src/src/App.jsx:12 | `navigate("/work")` writes `"#//work"`, which has route `"/work"` and page `"home"`, while `navigate("work")` reaches page `"work"` |
| `HashRoute.MountHash` | src/src/App.jsx:391-393 | after the mount effect an empty hash has become `"#/home"` (what `navigate("home")` writes), and a non-empty hash is left alone |
| `HashRoute.MountKeepsView` | src/src/App.jsx:391-393 | the mount redirect of an empty hash to `#/home` does not change the derived view |
| `HashRoute.Derive` | src/src/App.jsx:385-389 | the page is never empty and contains no `/`; a slug is present only on the `"case"` page and contains no `/` |
| `HashRoute.DeriveSegment` | src/src/App.jsx:386-388 | for a one-segment route: `"case"` gives no slug; `""` gives `"home"`; any other name, known or not, is the page |
| `HashRoute.DeriveCase` | src/src/App.jsx:387 | `"case/<slug>"` gives `("case", slug)`, and later segments are ignored |
| `HashRoute.DeriveOther` | src/src/App.jsx:388 | any other first segment is the page, with an empty one read as `"home"`; there is no slug, whatever follows |
| `HashRoute.DeriveCasePartition` | src/src/App.jsx:385-389 | a slug is present if and only if the route starts with `"case/"`; the page is `"case"` if and only if the route is `"case"` or starts with `"case/"` |
| `HashRoute.NavigateToCase` | src/src/App.jsx:175 | `navigate("case/" + slug)`, then normalise, then derive gives `("case", slug)` for a slash-free slug |
| `HashRoute.NavigateToNavLink` | src/src/App.jsx:357-360 | navigating to each header link derives that page with no slug, and exactly one body is rendered for it |
| `HashRoute.Dispatch` | src/src/App.jsx:399-403 | at most one body is rendered; exactly one if and only if the page is one of the five known names; the case body carries the slug |
| `HashRoute.DispatchBody` | src/src/App.jsx:399-403 | each known page renders its own body, and an unknown page renders none |
| `HashRoute.IsActive` | src/src/App.jsx:113-114 | with an empty hash (`""`, `"#"` or `"#/"`) only an empty target would match, since there is no `"home"` default; a link other than "work" is active exactly when the stripped hash is its target; the "work" link is active exactly when the stripped hash is `"work"` or starts with `"case/"` (so `"#/case"` does not light it, while `"#case/x"` and `"#work"` do) |
| `HashRoute.NavLinkShape` | src/src/App.jsx:357-360 | each header link target is a non-empty single segment, other than `"case"`, starting with neither `#` nor `"case/"` |
| `HashRoute.NoActiveLinkOnEmptyHash` | src/src/App.jsx:113-114 | with an empty hash no header link is highlighted, because there is no `"home"` default here |
| `HashRoute.AtMostOneActiveLink` | src/src/App.jsx:113-114 | for any hash, at most one of the four header links is highlighted |
| `HashRoute.ActiveLinkMatchesPage` | src/src/App.jsx:113-114 | a highlighted link names the derived page, or it is "work" and the page is a case study |
| `HashRoute.NavigateHighlights` | src/src/App.jsx:112-118 | the hash `navigate(to)` writes satisfies the highlight test for `to`, and the hash of `navigate("case/" + slug)` satisfies it for "work"; the highlight shows when `NavLink` next mounts, e.g. on reload |
| `Portfolio.Find` | src/src/App.jsx:218 | a found record is the first one whose slug equals the parameter; nothing is found if and only if the parameter is absent or no record has it |
| `Portfolio.Featured` | src/src/App.jsx:130 | the featured list is the prefix of the records of length min(3, number of records) |
| `Portfolio.FindBySlug` | src/src/App.jsx:218-219 | when slugs are distinct, each record is found by its own slug |
| `Portfolio.SlugsWellFormed` | src/src/App.jsx:20-86 | the records' slugs are pairwise distinct and slash-free, for these three records and for the single record at src/App.jsx:20-45 |
| `Portfolio.FeaturedIsAll` | src/App.jsx:20-70 | the earlier site features its single record; the full site (src/src/App.jsx:20-86 and 130) features all three |
| `Portfolio.CaseLinkOpensProject` | src/src/App.jsx:205-219 | following a record's case link through hash, route and lookup opens that same record |
| `Portfolio.SiteCaseLinksResolve` | src/src/App.jsx:175-218 | every case-study link of the full site opens its own record |
| `Portfolio.DraftLinksResolve` | src/App.jsx:129-159 | in the earlier site, the case link opens its record, its route is `"case/" + slug`, and "back to work" reaches `"work"` |
| `Portfolio.CaseNotFound` | src/src/App.jsx:217-223 | a case route with no slug, or with a slug no record has, finds nothing (the not-found view) |
| `Router.HashRouter.constructor` | src/src/App.jsx:5 | the state slot starts as the normalised initial hash, so it is non-empty and in sync |
| `Router.HashRouter.Navigate` | src/src/App.jsx:11-13 | the hash becomes `to`, or `"#/" + to`; the state slot is untouched, so it stays non-empty |
| `Router.HashRouter.OnHashChange` | src/src/App.jsx:7 | the state slot becomes the normalised hash, so it is non-empty and in sync; the hash is untouched |
| `Router.HashRouter.Mount` | src/src/App.jsx:391-393 | an empty hash becomes `navigate("home")`'s; any other hash and the state slot are unchanged, so the slot stays non-empty |
| `Router.HashRouter.NavigateAndNotify` | src/src/App.jsx:7-12 | `navigate` and then the `hashchange` event (fired only if the hash changed) leave the slot on the new hash's route, which equals `to` for a plain target |
| `Router.FirstVisit` | src/src/App.jsx:383-401 | a first visit with an empty hash shows the home body, and a case link then shows `("case", slug)` |

## Left out

- React rendering: component trees, markup, class names and page text are presentation. Only the choice of page body is modelled (`Dispatch`).
- Hook scheduling: the timing of `useState`, `useMemo` and `useEffect` is not modelled. This includes `NavLink`'s memo with empty dependencies, which computes the highlight once per mount. Only the highlight predicate `IsActive` is modelled.
- Registering and removing the `hashchange` listener is left out. A hash change is the explicit call `OnHashChange`.
- Browser semantics of `location.hash`: percent-encoding, and the browser turning an assigned `"#"` or `""` into an empty hash, are not modelled. An assignment stores the string as it is. `NavigateAndNotify` assumes only that the event fires when the value changes.
- Project records keep only `slug` and `title`. The other fields (summary, tags, images, problem, process, outcome) are static content.
- The placeholder image generators, the footer's `new Date().getFullYear()` and `LINKEDIN_URL` are presentation and environment input.
- The `App` component of `src/App.jsx` is not part of this model, because that file ends before it. Only that version's router, lookup, slice and records are modelled.
- NavigateHighlights, ActiveLinkMatchesPage: these state the highlight test on one given hash. In the program `NavLink` evaluates that test once, when it mounts, and `Header` is never unmounted by navigation. So the highlight on screen stays as it was on the first render, and it is not updated after a `navigate`. On a first visit with an empty hash, no link is highlighted until a reload.
- DraftLinksResolve: its first clause, that the case link opens the record, assumes the earlier version's `App` derives `(page, slug)` as the later one does. That `App` lies past the end of `src/App.jsx` as available. The other two clauses rest only on that file's `navigate`, `find` and links.
- `WorkPage`'s listing of every record is rendering. Its links are covered by `SiteCaseLinksResolve`.
