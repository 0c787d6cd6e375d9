# Airavata website: UI state model

A Dafny model of the few pieces of state logic in the Airavata Technologies
marketing site. Everything else in the site is markup and animation.

- **About** (`about.dfy`): the `ProfessionalCounter` statistic counter. Once it
  is in view, an interval steps the count from 0 by `ceil(value / 40)` per tick.
  When the count reaches or passes the target, it is clamped to the target and
  the interval stops. `TickRule` is one run of the state updater.
  `AfterTicks(value, n)` is the counter after n ticks. The lemmas are stated
  over `AfterTicks`, and the `ProfessionalCounter` class keeps its fields equal
  to it through a ghost tick count.
- **Projects** (`projects.dfy`): the category filter with its `"all"` sentinel,
  as functions on sequences of projects. The `ProjectsSection` class holds the
  section state: the active filter, the selected project and the detail-modal
  flag, plus the zoomed image and zoom flag of the nested `ProjectDetailsModal`.
  The two overlays are nested. A click on the zoom backdrop closes the zoom and
  then bubbles up to the detail backdrop, which closes the detail modal too. The
  zoom close button sits under a `stopPropagation` and closes only the zoom.
  `handleCloseModal` does not reset the zoom state on its own, and
  `ProjectDetailsModal` stays mounted, so that state survives; `ZoomScenario`
  shows this.
- **Navigation** (`navigation.dfy`): the `Navbar` class. `HandleNavigation`
  either changes the route or scrolls to a section. A section chosen away from
  home is handed across the route change under the session-storage key
  `scrollTarget`. The location effect reads it and removes it exactly once.
  The class also holds the scroll-threshold visibility flag and the mobile-menu
  toggle.

The browser is replaced by plain state:

- the route is a string;
- session storage is a `map<string, string>`;
- the document is the set of element ids present when a scroll runs;
- every smooth scroll is appended to a ghost log, `scrolled`.

Each file ends with a small client method that walks through one scenario
using only the contracts.

## Model

| member | source | states |
|---|---|---|
| About.Step | client/src/components/sections/about.tsx:84 | the step is `Math.ceil(value / 40)`: the least s with 40·s ≥ value, for every integer target, negative ones included |
| About.TickRule | client/src/components/sections/about.tsx:79-85 | one updater call: the interval stops iff the previous count had reached the target, a stop shows exactly the target, and otherwise the count grows by ceil(value / 40) |
| About.AfterTicks | client/src/components/sections/about.tsx:78-86 | the repeated interval: it starts from 0 and running, and a target ≤ 0 is clamped on the first tick and stays there |
| About.StoppedShowsValue | client/src/components/sections/about.tsx:80-82 | the only way the interval stops is the clamp, so a stopped counter shows exactly `value` |
| About.StoppedIsFinal | client/src/components/sections/about.tsx:80-82 | once the interval is cleared, the displayed count never changes again |
| About.RunningExactly | client/src/components/sections/about.tsx:79-85 | for value > 0 the interval still runs after n ticks iff n = 0 or (n−1)·step < value, and while it runs the count is n·step |
| About.StopsWithin41 | client/src/components/sections/about.tsx:79-85 | every counter has stopped on `value` after at most 41 ticks; a target ≤ 0 is shown on the first tick |
| About.CountBounds | client/src/components/sections/about.tsx:79-85 | for value > 0: 0 ≤ count < value + step at every tick, and a count above `value` is only ever seen while the interval runs |
| About.NoOvershootWhenDivisible | client/src/components/sections/about.tsx:84 | when 40 divides the target, the count never passes it |
| About.Overshoot45 | client/src/components/sections/about.tsx:79-85 | a target of 45 shows 44, then 46, then settles on 45 |
| About.Lands2000 | client/src/components/sections/about.tsx:79-85 | a target of 2000 reaches exactly 2000 on tick 40 and stops on tick 41 |
| About.ProfessionalCounter.constructor | client/src/components/sections/about.tsx:71-73 | the count starts at 0, the counter is not visible, and no interval runs |
| About.ProfessionalCounter.EnterViewport | client/src/components/sections/about.tsx:75-99 | the viewport trigger sets visibility once and starts the interval from 0; a second trigger changes nothing |
| About.ProfessionalCounter.Tick | client/src/components/sections/about.tsx:78-86 | one interval period: clamp and stop when count ≥ value, otherwise add the step; no interval means no change; the state stays equal to `AfterTicks` |
| About.ProfessionalCounter.Animate | client/src/components/sections/about.tsx:78-86 | running the interval to the end stops it within 41 ticks, with the count exactly `value` |
| Projects.FilterByCategory | client/src/components/sections/projects.tsx:336 | the result is a subsequence of the projects, in original order, holding each project exactly as often as the input when it has the category and never otherwise |
| Projects.Visible | client/src/components/sections/projects.tsx:334-336 | under `"all"` the whole list, unchanged and in order; under any other filter exactly the projects in that category, in order; never longer than the list |
| Projects.VisibleMembership | client/src/components/sections/projects.tsx:336 | under a filter other than `"all"`, a project is shown iff it is listed and its categories include the filter |
| Projects.FilterKeepsAll | client/src/components/sections/projects.tsx:336 | filtering by a category every project has keeps the whole list |
| Projects.FilterDropsAll | client/src/components/sections/projects.tsx:336 | filtering by a category no project has shows nothing |
| Projects.ShippedFilterResults | client/src/components/sections/projects.tsx:244-336 | with the shipped data, the first two filter buttons (`all`, `web`) show all three projects, and every other button (`mobile`, `cloud`, `ai`) shows none |
| Projects.ProjectsSection.VisibleProjects | client/src/components/sections/projects.tsx:334-336 | the grid's list (rendered at line 392): a subsequence of the projects, all of them under `"all"`, and otherwise a project is shown iff it is listed and in the active category |
| Projects.ProjectsSection.DetailRendered | client/src/components/sections/projects.tsx:93-107 | the detail modal renders nothing without a project or while closed, and under the handlers it renders exactly while the modal is open |
| Projects.ProjectsSection.ZoomRendered | client/src/components/sections/projects.tsx:227-232 | the zoom overlay (gated at line 53) renders only with its flag set and inside the rendered detail modal (line 107), and then it has an image to show |
| Projects.ProjectsSection.constructor | client/src/components/sections/projects.tsx:240-242 | the filter starts at `"all"`, so the whole list is shown, and no project or zoomed image is selected |
| Projects.ProjectsSection.SetFilter | client/src/components/sections/projects.tsx:376 | a filter click sets the active filter and leaves the overlays alone; choosing the active filter again changes nothing |
| Projects.ProjectsSection.ViewDetails | client/src/components/sections/projects.tsx:338-341 | the given project is selected and the modal opens, whatever was selected before; the modal is open iff a project is selected |
| Projects.ProjectsSection.CloseModal | client/src/components/sections/projects.tsx:343-346 | the modal closes and the selection is cleared, so the detail renders nothing; the zoom fields are untouched |
| Projects.ProjectsSection.ImageClick | client/src/components/sections/projects.tsx:95-98 | the clicked image is zoomed and the zoom overlay renders; the detail state is untouched |
| Projects.ProjectsSection.CloseImageZoom | client/src/components/sections/projects.tsx:100-103 | the zoom flag and image are cleared together; the detail modal stays as it was |
| Projects.ProjectsSection.ZoomBackdropClick | client/src/components/sections/projects.tsx:227-232 | a zoom-backdrop click closes the zoom and also, by bubbling to the detail backdrop, the detail modal |
| Navigation.IsPageNavigation | client/src/components/layout/navbar.tsx:44 | only an item with `isPage` and a non-empty path changes the route; `isPage` without a path takes the section branch |
| Navigation.ScrollsTo | client/src/components/layout/navbar.tsx:14-19 | a scroll request scrolls at most once, to that id, and not at all when no element has the id |
| Navigation.Navbar.HasPendingTarget | client/src/components/layout/navbar.tsx:23 | a missing `scrollTarget` and a stored empty string are both read as no pending target |
| Navigation.Navbar.GlassEffect | client/src/components/layout/navbar.tsx:82 | the glass class applies exactly when the bar is hidden |
| Navigation.Navbar.constructor | client/src/components/layout/navbar.tsx:8-30 | on mount the bar is shown, the menu is closed, and a pending scroll target is consumed and scrolled to |
| Navigation.Navbar.ScrollToSection | client/src/components/layout/navbar.tsx:14-19 | scrolls to the element with that id, and does nothing when no element has it |
| Navigation.Navbar.OnLocationChange | client/src/components/layout/navbar.tsx:22-30 | a pending target is removed from storage and scrolled to; afterwards none is pending, so a second run changes nothing |
| Navigation.Navbar.HandleNavigation | client/src/components/layout/navbar.tsx:43-60 | page item: route := path, storage untouched. Section item away from home: writes `scrollTarget` and `visited`, route := "/". Section item at home: storage untouched, scrolls. The menu ends closed in every branch |
| Navigation.Navbar.Navigate | client/src/components/layout/navbar.tsx:22-60 | a click followed by the location effect: a section chosen away from home is scrolled to once on the home page, its key is gone, and `visited` stays |
| Navigation.Navbar.OnScroll | client/src/components/layout/navbar.tsx:34-38 | records the offset; the bar is shown iff offset ≤ 50, and the glass class applies exactly when the bar is not shown |
| Navigation.Navbar.ToggleMobileMenu | client/src/components/layout/navbar.tsx:130 | flips the mobile menu and nothing else, so two toggles restore it |

## Left out

- Rendering, Tailwind classes and framer-motion animation are not modelled. This includes the About parallax (`useScroll`/`useTransform`), which is float interpolation.
- Timing is not modelled:
  - the counter's `delay` and its 60 ms period become discrete ticks;
  - the navbar's 50 ms scroll delay is dropped, and the scroll runs against the document given to the call;
  - the counter effect's cleanup clears only the timeout, so a change of `value` while counting could leave two intervals running. This is not modelled.
- About.ProfessionalCounter.Animate: the target is an integer. JavaScript allows a fractional `value`, which is not modelled.
- About.StopsWithin41: the model's arithmetic is exact, while `value` and `count` are JavaScript numbers (IEEE doubles). Above 2^53, `prev + Math.ceil(value / 40)` rounds, and a target such as 2^54 + 120 can take one more tick. The 41-tick bound and the other counter lemmas hold for targets up to `Number.MAX_SAFE_INTEGER` (2^53 − 1).
- Navigation.Navbar.OnScroll: `window.scrollY` can be fractional, but the model takes an integer offset.
- `count.toLocaleString()` is left out. It is locale-dependent formatting.
- A React updater may be invoked twice in development strict mode. This is not modelled.
- Projects.ProjectsSection.ImageClick requires the detail modal to be rendered. That is the only place its gallery exists; the handler itself does not check it.
- Projects.ProjectsSection.CloseModal: while the full-screen zoom overlay is open, the pointer cannot reach the detail close button or the detail backdrop. The close button can still be reached with the keyboard, because nothing traps focus. So `handleCloseModal` can run with the zoom still open, and `ZoomScenario` follows that path. No method encodes the stacking. Instead, `CloseModal` states that the zoom stays nested exactly when it was already closed.
- Projects are reduced to `id` and `categories`. Titles, images, tags, features and links are display data.
- The services section (`services.tsx`) is a static list of cards with no state or handlers. There is no services detail modal in the code.
- `shared/schema.ts` is not part of this model. It holds a table declaration, a zod schema and sample data, with no logic.
- `client/src/pages/home.tsx` is not part of this model. It composes the page, and its preloader flag is always false.
- The portfolio page and its own navbar, if it has one, are not part of this model. The navbar here is one instance that sees every location change.
- The `visited` marker is written but never read in the files modelled.
- Navigation.Navbar.Navigate: its storage guarantee for a section item away from home assumes a non-empty `item.id`. An empty stored target reads as false in JavaScript and is never consumed. Every shipped item has a non-empty id.
- `ProfessionalCounter` is declared in `about.tsx` but not instantiated in the files modelled. The 45 and 2000 targets are examples, not shipped values.
