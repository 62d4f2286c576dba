# Portfolio site core, modelled in Dafny

This project models the sequential logic of a personal portfolio site. The site is mostly
animation and I/O. The parts modelled here are:

- **Card slider** (`Slider`, scripts/slider.js). A class `SliderController` holds `current`,
  the `active` attribute of every card, the `active` class of every dot, and the disabled flags
  of the prev/next buttons. Its methods are the source's closures: init, toggle, centre,
  activate, go, and the click, hover, touch, key and resize handlers. The pure functions
  `Toggled`, `Activated`, `GoTarget`, `SwipeStep`, `KeyStep` and `CenterLog` specify them.
  `Reachable` is the invariant every initialised slider keeps.
- **Project detail page** (`ProjectDetail`, scripts/project-detail.js). The filename→id lookup,
  the `x[lang] || x.en` fallback, the render of one detail record, and a `Gallery` class for the
  thumbnail strip and the lightbox with its wrap-around index and 1-based counter.
- **Cached repository** (`Repository`, scripts/db.js). A `Database` class whose only state is
  `_cache`, and the two queries over it: find-by-id and a copying sort, newest date first.
- **Card renderer** (`CardRenderer`, scripts/projects.js). The track is replaced by one card per
  record, in input order. `projectsLoaded` is dispatched only after the last card is added.
- **Language switch** (`Language`, scripts/language.js). `currentLanguage`, the button label,
  the page's elements and the dropdown.
- **Admin sessions and input check** (`AdminServer`, backend/server.js). The `sessions` map is
  changed by login, logout and `requireAuth`. There is also the required-field check of the
  contact endpoint.
- **Page load** (`Site`). The `projectsLoaded` event links the renderer to the slider's
  re-initialisation.

The following come in as parameters:

- DOM measurements: card `offsetLeft`/`clientWidth`, track and wrapper widths.
- Media-query results: `(max-width:767px)` and `(hover:hover)`.
- Touch coordinates and key names.
- Fetch outcomes: `Fetch.Loaded(data)` or `Fetch.Failed`.
- The clock `Date.now()` and the session id `generateSessionId()` returns.
- Environment variables.

Scroll offsets are kept doubled (`twiceLeft`), so the source's `width / 2` stays integral.

Behaviour of the code worth noting:

- `activate(i)` does not clamp `i`. Only `go` clamps. With no cards, `go` sets `current` to -1.
- With no cards, `toggleUI(0)` leaves the next button enabled. After a `go`, the prev button
  is enabled and the next button is disabled.
- A failed fetch in scripts/projects.js never dispatches `projectsLoaded`, so the slider is
  never initialised.
- scripts/projects.js fetches the JSON itself, not through the cached repository.
  scripts/db.js broadcasts nothing.
- Rendered cards carry only the primary-language fields, not the localized variants.
- `switchLanguage` with a name every plain object inherits, such as `toString`, does not
  throw. It empties the button label and translates the elements as for English.

Smaller behaviours the model keeps:

- The gallery's arrow buttons only move the lightbox index and counter. The main image
  changes only on a thumbnail click.
- A thumbnail click does not refresh the counter.

## Model

| member | source | states |
|---|---|---|
| Slider.GoTarget | scripts/slider.js:73-75 | `go`'s target is `current+step` clamped into [0, len-1] when there are cards, and -1 when there are none |
| Slider.GoStopsAtEnds | scripts/slider.js:73-75 | `go(1)` at the last index and `go(-1)` at index 0 leave the index unchanged |
| Slider.GoTargetInRange | scripts/slider.js:74 | the target of any `go` is a card index, or -1 when there are no cards; `InRange` also admits init's 0 |
| Slider.Toggled | scripts/slider.js:58-63 | after `toggleUI(i)`, card k and dot k are active iff k == i; prev is disabled iff i == 0; next is disabled iff i == cards.length-1; a missing button stays missing |
| Slider.ActivateIdempotent | scripts/slider.js:65-71 | activating i twice gives the same UI state as activating it once |
| Slider.ActivatedReachable | scripts/slider.js:65-71 | activating an in-range index leaves the slider in a reachable state, with marks and flags agreeing with `current` |
| Slider.ReachableMarks | scripts/slider.js:58-62 | in every reachable state exactly the card and dot at `current` are active and, with at least one card, the set of active cards is {current}; prev is disabled iff current == 0, next iff current == last |
| Slider.EmptyInitLeavesNextEnabled | scripts/slider.js:61-62 | with zero cards, `toggleUI(0)` disables prev and leaves next enabled |
| Slider.SwipeStep | scripts/slider.js:104-113 | a swipe navigates iff \|dx\| is strictly above the threshold (40 mobile, 60 otherwise); positive dx steps back, negative dx steps forward |
| Slider.SwipeThresholdIsStrict | scripts/slider.js:109 | a swipe of exactly the threshold does nothing; one pixel more navigates |
| Slider.KeyStep | scripts/slider.js:143-152 | ArrowRight/ArrowDown step +1, ArrowLeft/ArrowUp step -1, and any other key does nothing |
| Slider.TwiceMobileLeft | scripts/slider.js:41 | the mobile scroll offset puts the card's midpoint on the midpoint of the visible track |
| Slider.TwiceDesktopLeft | scripts/slider.js:49-52 | the desktop scroll offset puts the card's midpoint on the midpoint of the visible wrapper |
| Slider.CenteringFormulasAgree | scripts/slider.js:29-55 | the mobile and desktop centring formulas are the same arithmetic, applied to different containers |
| Slider.CenterLog | scripts/slider.js:29-56 | `center(i)` issues no scroll when card i is missing; otherwise one smooth scroll of the track (mobile) or the wrapper (desktop) that centres card i |
| Slider.SliderController.constructor | scripts/slider.js:128-129 | before the first `projectsLoaded` there is no slider: no cards, no dots, no scrolls |
| Slider.SliderController.Init | scripts/slider.js:6-27 | re-initialisation builds exactly one inactive dot per card, then sets current = 0, applies `toggleUI(0)` and centres card 0; the result is reachable |
| Slider.SliderController.ToggleUI | scripts/slider.js:58-63 | the loops over cards and dots and the flag updates produce exactly `Toggled` of the old state |
| Slider.SliderController.Center | scripts/slider.js:29-56 | appends exactly `CenterLog(vp, i)` to the issued scrolls and changes nothing else |
| Slider.SliderController.Activate | scripts/slider.js:65-71 | sets current = i and re-applies the UI even when i == current; scrolls only when asked; keeps the slider reachable |
| Slider.SliderController.Go | scripts/slider.js:73-75 | activates the clamped target with scrolling |
| Slider.SliderController.ClickPrev | scripts/slider.js:78 | a click on an enabled prev button after init is `go(-1)`; a disabled or missing button changes nothing |
| Slider.SliderController.ClickNext | scripts/slider.js:79 | a click on an enabled next button after init is `go(1)`; a disabled or missing button changes nothing |
| Slider.SliderController.ClickDot | scripts/slider.js:22 | clicking dot i activates card i and centres it |
| Slider.SliderController.ClickCard | scripts/slider.js:90 | clicking card i activates it and centres it |
| Slider.SliderController.HoverCard | scripts/slider.js:85-89 | hovering card i activates it only when the device supports hover |
| Slider.SliderController.TouchStart | scripts/slider.js:93-102 | a touch start records its coordinates once the slider exists |
| Slider.SliderController.TouchEnd | scripts/slider.js:104-113 | a touch end steps by `SwipeStep` of the horizontal distance to the start point; the vertical distance is ignored |
| Slider.SliderController.KeyDown | scripts/slider.js:143-152 | arrow keys step by `KeyStep` once a slider exists; other keys change nothing |
| Slider.SliderController.Resize | scripts/slider.js:139-141 | a resize re-centres `current` in the new viewport's mode and changes no index or mark |
| ProjectDetail.LastSegment | scripts/project-detail.js:7-8 | the page name is a suffix of the path with no '/', preceded by '/' unless it is the whole path |
| ProjectDetail.LastSegmentOfJoin | scripts/project-detail.js:8 | the last segment of `dir/name` is `name` for any directory |
| ProjectDetail.LastSegmentOfName | scripts/project-detail.js:8 | a path without '/' is its own page name |
| ProjectDetail.PageProjectId | scripts/project-detail.js:9-19 | the if/else chain agrees with the seven-entry page table; any other filename gives no id |
| ProjectDetail.ProjectIdOfPagePath | scripts/project-detail.js:7-19 | a known page under any directory loads that page's record |
| ProjectDetail.Localize | scripts/project-detail.js:41 | the shown text is `field[lang]` when it is a non-empty string, otherwise `field.en`, for a language that is a key of the field or no property of a plain object |
| ProjectDetail.LocalizeEnglish | scripts/project-detail.js:53 | in English the fallback shows exactly `field.en` |
| ProjectDetail.LocalizeVariants | scripts/project-detail.js:60 | the shown text is the chosen language's variant or the English one, and is undefined only when neither exists |
| ProjectDetail.Shown | scripts/project-detail.js:41-43 | a localized element shows the fallback text and keeps both variants as `data-en`/`data-zh` |
| ProjectDetail.Thumbnails | scripts/project-detail.js:89-93 | one thumbnail per image, in order, with only thumbnail 0 active |
| ProjectDetail.RenderDetail | scripts/project-detail.js:27-99 | each field is written only when present, and the others keep their old content; subtitle, overview, process (only inside an overview) and every spec show the fallback text and keep both variants; with at least one image, the main image is images[0] and thumbnail k shows image k, only thumbnail 0 active |
| ProjectDetail.LoadDetail | scripts/project-detail.js:7-101 | an unknown page, a failed fetch or a missing record leaves the page untouched and starts no gallery; a found record is rendered, and the gallery starts, on exactly its images, iff it has at least one image |
| ProjectDetail.Wrapped | scripts/project-detail.js:172-177 | the new image index always lies in [0, n-1]; past the end it wraps to 0, below 0 to n-1 |
| ProjectDetail.WrapAtEnds | scripts/project-detail.js:174-175 | next from the last image gives 0, prev from the first gives n-1 |
| ProjectDetail.NextThenPrev | scripts/project-detail.js:172-177 | next and prev undo each other on every valid index |
| ProjectDetail.LightboxKey | scripts/project-detail.js:205-214 | Escape closes and the arrows step, only while the lightbox is displayed; other keys do nothing |
| ProjectDetail.Gallery.constructor | scripts/project-detail.js:103-117 | the gallery images are the thumbnails' images, index 0, total = number of images, lightbox closed |
| ProjectDetail.Gallery.ClickThumbnail | scripts/project-detail.js:119-127 | the clicked thumbnail becomes the main image and the only active one, and the index follows it |
| ProjectDetail.Gallery.UpdateLightbox | scripts/project-detail.js:179-184 | the lightbox shows the current image and the counter shows index+1, within 1..n |
| ProjectDetail.Gallery.ChangeImage | scripts/project-detail.js:172-177 | the index moves by `Wrapped` and the lightbox and counter follow it |
| ProjectDetail.Gallery.OpenLightbox | scripts/project-detail.js:164-170 | opening at an index displays the lightbox at that image and locks the page body |
| ProjectDetail.Gallery.ClickMainImage | scripts/project-detail.js:162 | clicking the main image opens the lightbox at the current index |
| ProjectDetail.Gallery.CloseLightbox | scripts/project-detail.js:189-193 | closing hides the lightbox and unlocks the body |
| ProjectDetail.Gallery.ClickLightbox | scripts/project-detail.js:199-203 | a click closes the lightbox only when it lands on the backdrop itself |
| ProjectDetail.Gallery.KeyDown | scripts/project-detail.js:205-214 | the key handler does what `LightboxKey` says: close, step with wrap-around, or nothing |
| Repository.CachedIgnoresNetwork | scripts/db.js:14 | once the cache is set, `connect` returns it whatever the network would do, and keeps it |
| Repository.FirstSuccessIsFinal | scripts/db.js:18-22 | a successful fetch is cached, and every later call returns that same array |
| Repository.FailureRetries | scripts/db.js:23-26 | a failed fetch returns [] and leaves the cache empty, so the next call fetches again |
| Repository.FirstIndex | scripts/db.js:37 | the position of the first record with the id, or -1 exactly when no record has it |
| Repository.FindById | scripts/db.js:35-38 | returns the first record whose id equals the argument, and undefined iff there is none |
| Repository.Insert | scripts/db.js:43 | inserting into a newest-first list keeps it newest-first and adds exactly that record |
| Repository.SortByDateDesc | scripts/db.js:41-44 | the result is a permutation of the projects ordered by date, newest first |
| Repository.Database.constructor | scripts/db.js:6-10 | the repository starts with no cache |
| Repository.Database.Connect | scripts/db.js:13-27 | fetches iff nothing is cached; returns the cache, the fetched data, or [] on failure; caches only a success |
| Repository.Database.GetAllProjects | scripts/db.js:30-32 | returns exactly what `connect` returns |
| Repository.Database.GetProjectById | scripts/db.js:35-38 | the first match in what `connect` returns |
| Repository.Database.GetProjectsSortedByDate | scripts/db.js:41-44 | a sorted copy of what `connect` returns, with the cached array left as cached |
| CardRenderer.Cards | scripts/projects.js:18-34 | one card per project, card k built from project k |
| CardRenderer.CardShowsProject | scripts/projects.js:20-31 | card k carries project k's title (also as `data-title`), image, badge, description and link |
| CardRenderer.ProjectsPage.constructor | scripts/projects.js:3-4 | the page starts with its static track and dots and no event dispatched |
| CardRenderer.ProjectsPage.Load | scripts/projects.js:10-45 | on success the track is exactly the cards of the projects, whatever it held before; the dots are emptied; one `projectsLoaded` is dispatched with the full track; on failure nothing changes |
| Language.LabelFor | scripts/language.js:4-17 | the label is `currentLang` of 'zh' or 'en'; a name inherited from `Object.prototype` gives `undefined`, shown as the empty string; the lookup throws exactly for every other name |
| Language.Translated | scripts/language.js:20-32 | an element with both attributes shows `data-zh` for 'zh' and `data-en` for any other language; other elements are untouched |
| Language.TranslatedAll | scripts/language.js:20-33 | every element of the page is rewritten by that rule, in place |
| Language.TranslateIdempotent | scripts/language.js:15-37 | switching to the same language twice gives the page of switching once |
| Language.LastSwitchWins | scripts/language.js:15-37 | after two switches the page is that of the last switch alone |
| Language.LanguageSwitch.constructor | scripts/language.js:58 | the page starts in English with the English label and the dropdown closed |
| Language.LanguageSwitch.SwitchLanguage | scripts/language.js:15-37 | sets `currentLanguage`; when `translations[lang]` is defined it writes `LabelFor(lang)` into the label, rewrites the elements and closes the dropdown; otherwise it throws after the assignment and changes nothing else |
| Language.LanguageSwitch.ClickButton | scripts/language.js:40-43 | the language button toggles the dropdown |
| Language.LanguageSwitch.ClickDocument | scripts/language.js:53-55 | any other click closes the dropdown |
| Language.LanguageSwitch.ClickOption | scripts/language.js:45-50 | an option switches the language as `switchLanguage` does and always leaves the dropdown closed |
| AdminServer.EnvOr | backend/server.js:11-12 | a configured value is the environment variable when it is non-empty, otherwise the default |
| AdminServer.SessionIdOf | backend/server.js:49 | the session id is the header when it is non-empty, otherwise the query parameter |
| AdminServer.AuthDecision | backend/server.js:48-62 | passes iff the id is known and now <= expires; unknown or missing ids get 401 "Authentication required"; an expired session gets 401 "Session expired" |
| AdminServer.AfterAuth | backend/server.js:55-59 | `requireAuth` changes the table only by removing the session it found expired |
| AdminServer.AfterLogout | backend/server.js:92-98 | logout removes exactly the header's session, if a header is given, and keeps every other session |
| AdminServer.LogoutIdempotent | backend/server.js:92-98 | logging out twice gives the same table as logging out once |
| AdminServer.ValidThroughExpiry | backend/server.js:55-79 | a session created at login time t passes at every now <= t + 86400000, and is removed at the first later check |
| AdminServer.ExpiredThenUnknown | backend/server.js:49-59 | an expired session is rejected as expired once, and afterwards as unknown |
| AdminServer.LoggedOutIsUnknown | backend/server.js:51-52 | a logged-out session id no longer authenticates |
| AdminServer.CheckContact | backend/server.js:101-106 | a submission goes on to be stored iff name, email and message are all non-empty; otherwise 400 "All fields are required" |
| AdminServer.AdminApi.constructor | backend/server.js:10-26 | credentials come from the environment or the defaults; the session table starts empty |
| AdminServer.AdminApi.Login | backend/server.js:72-89 | succeeds iff both credentials match, adding one session that expires 24 hours later; otherwise 401 and the table is unchanged |
| AdminServer.AdminApi.RequireAuth | backend/server.js:47-62 | decides by `AuthDecision` and changes the table by `AfterAuth` |
| AdminServer.AdminApi.Logout | backend/server.js:91-98 | always reports success and changes the table by `AfterLogout` |
| Site.OnProjectsFetched | scripts/projects.js:41-43 | a successful fetch renders the cards and then initialises the slider on them: one dot per card in the shared `#dots` container, card 0 and dot 0 active, prev disabled, next disabled only for a single card, missing buttons stay missing, the touch start point is reset and exactly one scroll, `center(0)`, is issued; a failed fetch leaves the page and every field of the slider untouched |

## Left out

- HTTP and storage plumbing in backend/server.js: routing, CORS, static files, SQLite statements, the message list/read/count endpoints and shutdown. `/api/contact` is modelled up to its field check; the insert and its reply are not modelled. The root server.js is not part of this model.
- `generateSessionId` uses `Math.random` and `Date.now`. It is modelled as a fresh id passed in by the caller. A collision with an existing id overwrites that entry, as `Map.set` does.
- Network calls are modelled only by their outcome, success with data or failure. Payloads that parse but are not an array of records are not modelled. Two effects go with them: in scripts/db.js a falsy payload would be "cached" as falsy and fetched again; in scripts/projects.js `forEach` on a non-array throws after the track was cleared.
- Asynchrony: two `connect` calls that overlap before the first fetch resolves are modelled as two calls in sequence.
- HTML: template strings are not escaped, and the `&copy;` `innerHTML` re-parse in scripts/language.js is left out. Card and spec contents are modelled as the values interpolated.
- Browser behaviour: smooth-scroll animation, the browser's clamping and rounding of `scrollLeft`, and `matchMedia` and layout. Their results are inputs. A disabled button receives no click, as browsers do.
- Element lookups: every element the scripts query is taken to be present, except the prev/next buttons of scripts/slider.js, whose absence is modelled (`None`). This covers `#dots` in scripts/slider.js and scripts/projects.js, `#current-lang`, `#language-btn` and `#language-dropdown` in scripts/language.js, and every element of scripts/project-detail.js.
- Event listeners pile up when `initSlider` runs more than once on the same track (the source notes this). Only the latest slider's handlers are modelled.
- The `name` entry of `translations` is never read and is kept only as data. The empty language-refresh block at scripts/project-detail.js:216-221 does nothing.
- The detail page writes `textContent = undefined`, and `setAttribute` with `undefined`. The model records these writes as `None`, without the browser's string conversion.
- Localize: a `lang` naming an `Object.prototype` member that the field does not have as its own key, such as `toString` or `__proto__`, is not modelled. For such a name `field[lang]` finds the inherited member, and the page shows its string form, which is engine-dependent for functions, instead of `field.en`. The model shows `field.en`. The detail page's `currentLanguage` is set only by the markup's `data-lang` options, 'zh' and 'en'. The same gap covers `Shown`, `RenderDetail` and `LoadDetail`, which use `Localize`.
- TouchStart, TouchEnd: touch coordinates are whole pixels. An engine that reports fractional `clientX` values navigates on a \|dx\| strictly between 40 and 41 (or 60 and 61), which the model cannot express.
- SortByDateDesc: does not state that records with equal dates keep their input order (the stability of `Array.prototype.sort`). It also assumes every date is valid, so no `NaN` comparisons occur.
- Animation, physics and random visuals are not part of this model: the GSAP timelines, three-scene, eye, starry background, loading screen and enhancements. The Vue loader and both contact scripts are not part of it either.
