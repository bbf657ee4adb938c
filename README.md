# Content showcase: verified model of the client-side rules

The site is an admin-managed showcase. Administrators manage model profiles, media
and banners in a protected dashboard. Visitors browse a gallery with a lightbox.
Persistence, authentication and storage belong to a hosted backend; the
application code is a thin layer of small, deterministic rules. This project
models those rules in Dafny and proves what they promise.

One module per source file, over shared record types:

- `Types` (types.dfy): `Model`, `Banner`, `Media` and the placeholder `MediaItem`, plus `Option` and `Result`.
- `Text` (text.dfy): stand-ins for `toLowerCase`, `includes` and decimal printing.
- `Dashboard` (dashboard.dfy): the dashboard summary hook. `DashboardState` is a class holding `metrics`, `loading` and `error`. The per-day `reduce` and the 7-day fill are loops (`CountByLabel`, `FillWindow`). The histogram, split and trend are specification functions with lemmas. A row's timestamp is its local day number, and the `DD/MM` label is a function parameter. The trend is an integer in tenths of a percent.
- `SupabaseClient` (client.dfy): `ClientCache` is a class holding the override slot, `localStorage`, the environment and the memoised client. A created client is a token counting the clients made so far.
- `Middleware` (middleware.dfy): the admin route guard decision and the matcher scope.
- `AdminSidebar` (sidebar.dfy): the navigation links and the active-link rule.
- `ExclusiveContent` (gallery.dfy): the tab partition and the hint search as functions. `Lightbox` is a class with the selection, slide, fullscreen, search and tab state. Each carousel is a `Carousel` object. Its `ScrollTo`, `ScrollNext` and `ScrollPrev` are assumed to clamp into range without wrapping, because the carousel library is not part of this model.
- `ModelForm` (model_form.dfy): the validation schema, the slug auto-fill as a state machine over edits, and `FormState`, a class for submit, load and delete. `slugify` is a function parameter.
- `HeroBanners` (hero_banners.dfy): the hero slide list and its placeholder fallback.

Two facts about the code shape the model:

- The dashboard issues four queries: models, media, uploads and scheduled media (use-dashboard-metrics.ts:42-71).
- `createClient()` throws when the URL or the key is missing (client.ts:47-49); there is no fallback client.

## Model

| member | source | states |
|---|---|---|
| `Dashboard.CountLabel` | src/hooks/use-dashboard-metrics.ts:78-85 | the count under a label never exceeds the number of rows, and is 0 when no row carries that label |
| `Dashboard.CountByLabel` | src/hooks/use-dashboard-metrics.ts:78-85 | the accumulated map has a key exactly for the labels with at least one row, and each value is that label's row count |
| `Dashboard.FillWindow` | src/hooks/use-dashboard-metrics.ts:87-98 | exactly 7 entries; entry i is labelled with the day 6 - i days before today and counts that label's rows, or 0 when the label is missing |
| `Dashboard.Histogram` | src/hooks/use-dashboard-metrics.ts:87-98 | the published histogram always has 7 entries |
| `Dashboard.HistogramWindow` | src/hooks/use-dashboard-metrics.ts:87-98 | entry i is the day today - (6 - i), so entries are chronological and the last is today |
| `Dashboard.CountLabelInjective` | src/hooks/use-dashboard-metrics.ts:78-85 | under an injective day label, counting by label equals counting by day |
| `Dashboard.HistogramCounts` | src/hooks/use-dashboard-metrics.ts:78-98 | each entry counts exactly the rows of its day, and is 0 if and only if no row falls on that day |
| `Dashboard.HistogramTotal` | src/hooks/use-dashboard-metrics.ts:78-98 | with distinct window labels, the 7 counts add up to the rows whose label is in the window; other rows are dropped, so the total is at most the number of rows |
| `Dashboard.HalvesAddUp` | src/hooks/use-dashboard-metrics.ts:100-102 | the midpoint of the 7-day window is 3, and the earlier and recent sums add up to the 7-day total |
| `Dashboard.Trend` | src/hooks/use-dashboard-metrics.ts:100-108 | definition: the trend of the two halves, 100% (1000 tenths) or 0 when the earlier half is empty, else the rounded relative change in tenths |
| `Dashboard.RoundHalfAway` | src/hooks/use-dashboard-metrics.ts:108 | the result is within half a unit of num/den and has the sign of num |
| `Dashboard.TrendFromZero` | src/hooks/use-dashboard-metrics.ts:103-107 | with an empty earlier half the trend is 0 when the recent half is also empty, and 100% (1000 tenths) when it is not |
| `Dashboard.TrendBounds` | src/hooks/use-dashboard-metrics.ts:108 | with a non-empty earlier half the trend is at least -100%, non-negative when uploads did not fall, and non-positive when they did not rise |
| `Dashboard.SummarizeAborts` | src/hooks/use-dashboard-metrics.ts:73-76 | any failed reply aborts the update, and the first failure in query order gives the message |
| `Dashboard.Summarize` | src/hooks/use-dashboard-metrics.ts:73-118 | definition: the first failed reply in the order models, media, uploads, scheduled aborts with its message; otherwise `BuildMetrics` |
| `Dashboard.BuildMetrics` | src/hooks/use-dashboard-metrics.ts:78-118 | definition: the metrics record, with missing data as empty lists and missing counts as 0, the 7-day histogram and its trend |
| `Dashboard.SummarizeSucceeds` | src/hooks/use-dashboard-metrics.ts:100-118 | without failures the metrics carry the 7-day histogram, the trend of its two halves and the two counts |
| `Dashboard.MissingDataDefaults` | src/hooks/use-dashboard-metrics.ts:110-117 | null data and counts become empty lists, zero counts, a zero-filled window and a zero trend |
| `Dashboard.DashboardState.constructor` | src/hooks/use-dashboard-metrics.ts:17-30 | the hook starts from the initial state (empty `uploadsData`, trend 0), loading, with no error |
| `Dashboard.DashboardState.TrySummarize` | src/hooks/use-dashboard-metrics.ts:38-123 | an error keeps the old metrics and sets the prefixed message; success replaces the metrics with the summary and keeps the error cleared |
| `Dashboard.DashboardState.FetchSummaryAsWritten` | src/hooks/use-dashboard-metrics.ts:33-123 | as written: if client creation throws, loading stays true, the error stays null and the metrics are kept; otherwise the load ends with the summary or the prefixed error |
| `Dashboard.DashboardState.FetchSummary` | src/hooks/use-dashboard-metrics.ts:33-123 | corrected: loading ends false on every path; any error, including client creation, keeps the metrics and sets "Erro ao buscar dados do dashboard: " + message |
| `Dashboard.UnconfiguredStaysLoading` | src/hooks/use-dashboard-metrics.ts:36 | with unconfigured credentials the code as written leaves the dashboard loading with no error |
| `Dashboard.UnconfiguredReportsError` | src/hooks/use-dashboard-metrics.ts:119-123 | with unconfigured credentials the corrected hook stops loading and reports the configuration error |
| `SupabaseClient.ServerUsesEnvironment` | src/lib/supabase/client.ts:17-23 | on the server, credentials always come from the environment and the override is untouched |
| `SupabaseClient.Resolve` | src/lib/supabase/client.ts:17-42 | definition: the pair `readCredentials` returns: the environment on the server; in the browser a complete override, else a complete stored pair, else the environment |
| `SupabaseClient.OverrideAfterRead` | src/lib/supabase/client.ts:25-36 | definition: the override slot after a read: a complete stored pair is installed when no complete override is present |
| `SupabaseClient.BrowserPrecedence` | src/lib/supabase/client.ts:25-41 | in the browser a complete override wins; otherwise a complete stored pair, which is also installed as the override; otherwise the environment |
| `SupabaseClient.ResolveStable` | src/lib/supabase/client.ts:25-36 | resolving again after a resolution gives the same pair and installs nothing new |
| `SupabaseClient.ResolveAfterSet` | src/lib/supabase/client.ts:63-69 | after setting non-empty (u, k), resolution yields exactly (u, k); with an empty part it falls back to the environment |
| `SupabaseClient.ResolveAfterClear` | src/lib/supabase/client.ts:71-77 | after the overrides are removed, resolution yields the environment |
| `SupabaseClient.ClientCache.constructor` | src/lib/supabase/client.ts:14-15 | no cached client and empty cached credentials at start |
| `SupabaseClient.ClientCache.ReadCredentials` | src/lib/supabase/client.ts:17-42 | returns the resolved pair and installs the stored pair as the override when that pair was used |
| `SupabaseClient.ClientCache.EnsureClient` | src/lib/supabase/client.ts:44-57 | fails with the configuration message when url or key is missing or empty; reuses the cached client for an unchanged pair; otherwise creates exactly one client and caches it with the resolved pair |
| `SupabaseClient.ClientCache.SetCredentials` | src/lib/supabase/client.ts:63-69 | in the browser, sets the override and both storage keys and clears the cache; on the server changes nothing |
| `SupabaseClient.ClientCache.ClearOverrides` | src/lib/supabase/client.ts:71-77 | in the browser, removes the override and both storage keys and clears the cache; on the server changes nothing |
| `SupabaseClient.ConsecutiveCallsShareClient` | src/lib/supabase/client.ts:44-61 | two calls in a row return the same result and create at most one client |
| `SupabaseClient.SetThenCreate` | src/lib/supabase/client.ts:63-69 | after setting non-empty credentials, the next call creates a client for exactly that pair |
| `SupabaseClient.ClearThenCreate` | src/lib/supabase/client.ts:71-77 | after clearing, the next call uses the environment, or fails when it is incomplete |
| `Middleware.Target` | src/middleware.ts:64-73 | the login decision redirects to '/admin/login' and the session decision to '/admin/dashboard', each an if-and-only-if |
| `Middleware.Decide` | src/middleware.ts:61-75 | definition: the two `if`s of the guard on the session and the pathname |
| `Middleware.InScope` | src/middleware.ts:78-80 | definition: the matcher: '/admin', any path below '/admin/', or '/admin/login' |
| `Middleware.Handle` | src/middleware.ts:61-80 | definition: the guard as deployed; paths outside the matcher pass through |
| `Middleware.DecideCases` | src/middleware.ts:61-75 | without a session, an '/admin' path other than the login page redirects to login; with a session, the login page redirects to the dashboard; everything else passes (each an if-and-only-if) |
| `Middleware.PassThroughExamples` | src/middleware.ts:64-75 | an unauthenticated login page and authenticated admin pages pass through |
| `Middleware.NoSelfRedirect` | src/middleware.ts:64-73 | a redirect never targets the requested path |
| `Middleware.GuardInScope` | src/middleware.ts:78-80 | paths outside the matcher pass; inside it only the session and the login path decide |
| `AdminSidebar.ActiveRule` | src/components/ui/admin-sidebar.tsx:30-36 | an exact match is always active; the dashboard link only on an exact match; every other link if and only if its href is a string prefix of the pathname |
| `AdminSidebar.IsActive` | src/components/ui/admin-sidebar.tsx:30-36 | definition: an exact match, or a string prefix for every link but the dashboard |
| `AdminSidebar.NavLinks` | src/components/ui/admin-sidebar.tsx:17-25 | definition: the seven links, hrefs and captions in order |
| `AdminSidebar.ChildRouteActivatesSection` | src/components/ui/admin-sidebar.tsx:35 | '/admin/models/3' activates "Modelos", while a child of the dashboard does not activate the dashboard link |
| `AdminSidebar.NullPathnameNothingActive` | src/components/ui/admin-sidebar.tsx:28-36 | a null pathname becomes "" and then no link is active |
| `AdminSidebar.HrefsPrefixFree` | src/components/ui/admin-sidebar.tsx:17-25 | no link's href is a prefix of another's |
| `AdminSidebar.AtMostOneActive` | src/components/ui/admin-sidebar.tsx:17-36 | for any pathname at most one link is active |
| `ExclusiveContent.OfKind` | src/components/content-cove/exclusive-content.tsx:35-36 | a kind filter is never longer than its input |
| `ExclusiveContent.OfKindMembers` | src/components/content-cove/exclusive-content.tsx:35-36 | `photos` and `videos` hold exactly the items of their kind |
| `ExclusiveContent.OfKindAppend` | src/components/content-cove/exclusive-content.tsx:35-36 | the kind filter distributes over concatenation, so the original order is kept |
| `ExclusiveContent.PhotosVideosPartition` | src/components/content-cove/exclusive-content.tsx:35-36 | photos and videos together are the items as a multiset, so their lengths add up |
| `ExclusiveContent.TabChoice` | src/components/content-cove/exclusive-content.tsx:126-138 | 'photos' selects the photos, 'videos' the videos, any other value all items |
| `ExclusiveContent.TabItems` | src/components/content-cove/exclusive-content.tsx:126-138 | definition: the list `onTabChange` puts in the active tab for a tab value |
| `ExclusiveContent.FilterItems` | src/components/content-cove/exclusive-content.tsx:141-143 | the search result is never longer than the active tab |
| `ExclusiveContent.FilterMembers` | src/components/content-cove/exclusive-content.tsx:141-143 | an item is kept if and only if it is in the tab and matches the query |
| `ExclusiveContent.FilterAppend` | src/components/content-cove/exclusive-content.tsx:141-143 | the search distributes over concatenation, so it is an order-preserving sublist |
| `ExclusiveContent.MatchesAt` | src/components/content-cove/exclusive-content.tsx:142 | an item matches if and only if it has a hint and the lower-cased query occurs in the lower-cased hint |
| `ExclusiveContent.Matches` | src/components/content-cove/exclusive-content.tsx:142 | definition: the item has a hint, and its lower-cased form includes the lower-cased query |
| `ExclusiveContent.EmptyQueryKeepsHinted` | src/components/content-cove/exclusive-content.tsx:141-143 | the empty query keeps exactly the items with a hint; items without a hint are always dropped |
| `ExclusiveContent.FindIndex` | src/components/content-cove/exclusive-content.tsx:111 | returns the first index with the id, or none when no item has it |
| `ExclusiveContent.Clamp` | src/components/content-cove/exclusive-content.tsx:57 | where a clamping carousel of n slides lands when asked for slide i: slide 0 when empty, always in range, and i itself when i is in range |
| `ExclusiveContent.Carousel.ScrollTo` | src/components/content-cove/exclusive-content.tsx:57 | the selected index becomes the clamped target; the slide count is unchanged |
| `ExclusiveContent.Carousel.ScrollNext` | src/components/content-cove/exclusive-content.tsx:95 | the selected index moves one slide forward, clamped; the slide count is unchanged |
| `ExclusiveContent.Carousel.ScrollPrev` | src/components/content-cove/exclusive-content.tsx:97 | the selected index moves one slide back, clamped; the slide count is unchanged |
| `ExclusiveContent.Carousel.ReInit` | src/components/content-cove/exclusive-content.tsx:75 | a carousel re-initialised on n slides has n slides and keeps its index, clamped |
| `ExclusiveContent.Lightbox.constructor` | src/components/content-cove/exclusive-content.tsx:46-52 | nothing selected, slide 0, not fullscreen, empty search, all items active, no carousels |
| `ExclusiveContent.Lightbox.AttachCarousels` | src/components/content-cove/exclusive-content.tsx:48-49 | the two carousel handles are stored; both render the active items, one slide each (lines 213, 251) |
| `ExclusiveContent.Lightbox.OnTabChange` | src/components/content-cove/exclusive-content.tsx:126-138 | always clears the search and sets the active items to the chosen tab's items; the carousels then have one slide per new item |
| `ExclusiveContent.Lightbox.SetSearchQuery` | src/components/content-cove/exclusive-content.tsx:175 | the search input replaces the query |
| `ExclusiveContent.Lightbox.HandleItemClick` | src/components/content-cove/exclusive-content.tsx:110-115 | selects the first index of the id in the active tab, found by `FindIndex`; changes nothing when the id is absent |
| `ExclusiveContent.Lightbox.HandleCloseDialog` | src/components/content-cove/exclusive-content.tsx:117-120 | always leaves nothing selected and fullscreen off |
| `ExclusiveContent.Lightbox.ToggleFullscreen` | src/components/content-cove/exclusive-content.tsx:122-124 | flips the fullscreen flag |
| `ExclusiveContent.ToggleTwice` | src/components/content-cove/exclusive-content.tsx:122-124 | toggling twice restores the flag |
| `ExclusiveContent.Lightbox.HandleKeyDown` | src/components/content-cove/exclusive-content.tsx:91-101 | keys are ignored while nothing is selected; ArrowRight and ArrowLeft move the main carousel one slide; Escape closes the dialog; other keys change nothing |
| `ExclusiveContent.Lightbox.OnSelect` | src/components/content-cove/exclusive-content.tsx:62-69 | a no-op unless both carousels exist; otherwise the current slide and the thumbnail index equal the main index, and the thumbnails are not scrolled when already there |
| `ExclusiveContent.Lightbox.OnThumbClick` | src/components/content-cove/exclusive-content.tsx:54-60 | moves only the main carousel, and only when both carousels exist |
| `ExclusiveContent.Lightbox.OpenAtSelected` | src/components/content-cove/exclusive-content.tsx:82-87 | with a selection and a main carousel, the main carousel's index and the current slide both become the selected index |
| `ExclusiveContent.ThumbClickThenSettle` | src/components/content-cove/exclusive-content.tsx:54-69 | clicking thumbnail k and letting the main carousel settle puts the main, the thumbnails and the current slide on k |
| `ExclusiveContent.ArrowRightThenSettle` | src/components/content-cove/exclusive-content.tsx:91-101 | with the lightbox open, ArrowRight from a slide before the last moves to the next one, and the thumbnails follow |
| `ExclusiveContent.OpenShownItem` | src/components/content-cove/exclusive-content.tsx:110-115 | clicking the k-th item of `filteredItems` (lines 182-188) always finds it in the active tab, and the main carousel and the slide counter land on its index |
| `ModelForm.SchemaRules` | src/components/admin/ModelForm.tsx:25-30 | accepted values have a name of at least 3 and a bio of at least 10 characters; a non-empty slug has at least 2 characters from [a-z0-9-]; an absent slug is fine; `redes` does not matter |
| `ModelForm.SchemaAcceptsAsWritten` | src/components/admin/ModelForm.tsx:25-30 | definition: the schema as written; an optional slug admits only an absent slug, never "" |
| `ModelForm.SchemaAccepts` | src/components/admin/ModelForm.tsx:25-30 | definition: the corrected schema, with an empty slug treated as absent |
| `ModelForm.LoadedValues` | src/components/admin/ModelForm.tsx:71-76 | definition: the form reset with a loaded model, each null field becoming "" |
| `ModelForm.LoadedWithoutSlugRejected` | src/components/admin/ModelForm.tsx:71-76 | as written, a model loaded without a slug gets the slug "" and the schema rejects it |
| `ModelForm.AsWrittenFallbackDead` | src/components/admin/ModelForm.tsx:115 | as written, every accepted slug is non-empty, so the fallback to `slugify` for an empty slug is never taken |
| `ModelForm.EmptySlugFallsBack` | src/components/admin/ModelForm.tsx:115-116 | corrected: such a model is accepted and stored under `slugify(nome)` |
| `ModelForm.StoredSlug` | src/components/admin/ModelForm.tsx:115 | definition: the typed slug when non-empty, else `slugify(nome)` |
| `ModelForm.FinalData` | src/components/admin/ModelForm.tsx:116 | definition: the form values with the stored slug and the image URLs |
| `ModelForm.PlannedWrite` | src/components/admin/ModelForm.tsx:118-120 | definition: update by id in edit mode, else insert one row |
| `ModelForm.ChooseUrl` | src/components/admin/ModelForm.tsx:105-113 | definition: the uploaded URL when a file was chosen, else the existing one |
| `ModelForm.SubmitOutcome` | src/components/admin/ModelForm.tsx:99-133 | definition: the write issued and the message shown after one save |
| `ModelForm.SchemaCorrectionConservative` | src/components/admin/ModelForm.tsx:28 | the corrected schema accepts everything the written one accepts and differs only on the empty slug |
| `ModelForm.ReplayNome` | src/components/admin/ModelForm.tsx:183-188 | after any edits the name field holds the last name typed |
| `ModelForm.SlugFollowsNome` | src/components/admin/ModelForm.tsx:183-188 | while the slug was never edited, the slug is `slugify` of the current name after every name edit |
| `ModelForm.EditedSlugSticks` | src/components/admin/ModelForm.tsx:183-188 | once the slug was edited, name edits leave it untouched: it is the last slug typed |
| `ModelForm.SlugEditMarks` | src/components/admin/ModelForm.tsx:207-210 | any slug edit marks the slug as edited for good |
| `ModelForm.Step` | src/components/admin/ModelForm.tsx:183-210 | definition: one field edit; a name edit also sets the slug to `slugify` of the name while the slug is unedited; a slug edit marks it edited |
| `ModelForm.Replay` | src/components/admin/ModelForm.tsx:183-210 | definition: a sequence of field edits applied in order |
| `ModelForm.FinalDataFields` | src/components/admin/ModelForm.tsx:115-116 | the stored row keeps the other form values and the given URLs; its slug is the typed one when non-empty, else `slugify(nome)` |
| `ModelForm.WriteChoice` | src/components/admin/ModelForm.tsx:118-120 | with a model id the row with that id is updated; without one exactly one row is inserted |
| `ModelForm.SubmitOutcomeCases` | src/components/admin/ModelForm.tsx:99-133 | the client, avatar and banner failures abort in that order with "Erro ao salvar: " + message; a write is issued if and only if none fails, and it is the update or insert of the final data, with a new URL only when a file was chosen; the write error is shown if and only if there is one |
| `ModelForm.FormState.constructor` | src/components/admin/ModelForm.tsx:42-60 | default values with an empty slug, slug not edited, no files, no URLs, not loading, no error, modal closed |
| `ModelForm.FormState.OnNomeChange` | src/components/admin/ModelForm.tsx:183-188 | one step of the auto-fill machine for a name edit |
| `ModelForm.FormState.OnSlugChange` | src/components/admin/ModelForm.tsx:207-210 | one step of the auto-fill machine for a slug edit: sets the slug and marks it edited |
| `ModelForm.FormState.FetchModel` | src/components/admin/ModelForm.tsx:62-88 | in edit mode, a loaded model resets the fields, the existing URLs and "slug edited" to "stored slug is non-empty"; a failure sets its message or "Modelo não encontrado" and leaves the fields and URLs alone; the load ends false |
| `ModelForm.FormState.Submit` | src/components/admin/ModelForm.tsx:99-133 | the write issued and the message left are `SubmitOutcome` of the form state and the replies (see `SubmitOutcomeCases`); loading always ends false |
| `ModelForm.FormState.HandleSubmit` | src/components/admin/ModelForm.tsx:169 | rejected values change nothing and issue no write; accepted values are saved with exactly the outcome of `Submit` (validation uses the corrected schema) |
| `ModelForm.FormState.HandleDelete` | src/components/admin/ModelForm.tsx:136-152 | does nothing without a model id; otherwise deletes that id when a client is available, and always ends with loading false and the modal closed |
| `HeroBanners.BannersUsedAsIs` | src/components/content-cove/hero-banners.tsx:13 | supplied banners are the slides, unchanged and in order |
| `HeroBanners.Items` | src/components/content-cove/hero-banners.tsx:13-19 | definition: the banners when there are any, else the first four placeholders mapped to slides |
| `HeroBanners.ToPlaceholder` | src/components/content-cove/hero-banners.tsx:14-18 | definition: one placeholder slide: its id, the hint or 'Conteúdo premium', its type and url, and no link |
| `HeroBanners.BadgeText` | src/components/content-cove/hero-banners.tsx:28 | definition: the badge text "+n banners" |
| `HeroBanners.PlaceholderFallback` | src/components/content-cove/hero-banners.tsx:13-19 | without banners the slides are the first min(4, n) placeholders in order: id "placeholder-i", the hint or else 'Conteúdo premium' as title, the placeholder's type and url, and no link |
| `HeroBanners.PlaceholderIdsDistinct` | src/components/content-cove/hero-banners.tsx:14 | placeholder ids are pairwise distinct |
| `HeroBanners.BadgeCountsItems` | src/components/content-cove/hero-banners.tsx:28 | the badge text is determined by the number of slides and determines it |

## Findings

| source | as written | input that shows it | evidently intended | confidence | as-written member | corrected member |
|---|---|---|---|---|---|---|
| src/hooks/use-dashboard-metrics.ts:36 | `createClient()` is called before the `try`. When it throws, neither the `catch` nor the `finally` runs. | No URL or key configured: `createClient()` throws the configuration error. | The load ends, with `loading` false and the error shown, as the `finally` and `catch` intend. | medium, not executed | `Dashboard.DashboardState.FetchSummaryAsWritten` | `Dashboard.DashboardState.FetchSummary` |
| src/components/admin/ModelForm.tsx:28 | The slug is `.min(2)...optional()`, and `optional` admits only an absent value. The field always holds a string: "" by default and "" for a model loaded without a slug. | Edit a model whose slug is null and change only the bio: the schema rejects the empty slug. | An empty slug is accepted and stored as `slugify(nome)`, as the fallback at line 115 expects. | medium, not executed | `ModelForm.SchemaAcceptsAsWritten` | `ModelForm.SchemaAccepts` |

## Left out

- Every database, storage and authentication query, `Promise.all`, toasts and router calls. These are network I/O and concurrency. Their settled outcomes are method parameters: the four dashboard replies, the result of `createClient()`, the upload URLs or errors, and the write or delete error.
- `Date`, `Date.now` and `toLocaleDateString("pt-BR")`. A timestamp is its local day number, and the `DD/MM` label is a parameter. `HistogramCounts` assumes the label is injective. `HistogramTotal` assumes the 7 window labels differ; a `DD/MM` label differs within any year.
- The lower bound of the uploads query (`created_at >= now - 7 days`). Rows are any day numbers. Rows outside the window are dropped by the labelling.
- IEEE doubles and `toFixed(1)`. The trend is an exact integer in tenths of a percent, with halves rounded away from zero. Floating-point rounding error is not modelled.
- The carousel library. `ScrollTo`, `ScrollNext` and `ScrollPrev` are assumed to clamp into range without looping. The `jump` flag of `scrollTo` is not modelled. Mounting and unmounting the carousels with the dialog is not modelled; `ReInit` on a tab change stands in for carousels that render the new active items.
- ExclusiveContent.Lightbox.OnTabChange: requires that nothing is selected, because the tabs sit behind the modal dialog (line 194). The code itself has no such guard; a tab change under an open dialog would leave the selected index pointing into the old list.
- The listener wiring: `on`/`off` for 'select' and 'reInit', and `addEventListener('keydown')`. `OnSelect` and `HandleKeyDown` are the handlers themselves. The scenario methods call `OnSelect` where the library would fire 'select'.
- Unicode case mapping. `toLowerCase` maps only the ASCII letters A-Z.
- String lengths. zod's `min` counts UTF-16 code units; the model counts characters.
- `slugify` is not part of this model; it is a function parameter with no properties assumed.
- The placeholder JSON file is not part of this model. Its media items are a parameter, and their `id` is taken as a string.
- The cookie adapter callbacks of the middleware, the server client, and the `NextResponse`/`URL` objects. The matcher is read as "the admin root, anything below '/admin/', or '/admin/login'".
- ModelForm.FormState.HandleDelete: the delete's own error reaches the user only through a toast, so it is not modelled; the method says whether the delete was issued. The success navigation after submit and delete is not modelled.
- ModelForm.FormState.HandleSubmit: validates with the corrected schema `SchemaAccepts`; the code as written validates with `SchemaAcceptsAsWritten` (see Findings).
- The loading-skeleton render condition of the form, and all rendering and styling.
- Display fallbacks in other components (dashboard cards and chart, profile header, brand logo, empty state, pages), the progress bar, and the Next.js configuration files.
- The session idle timer and the bulk media import. They are not in the files modelled here.
