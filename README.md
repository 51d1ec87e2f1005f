# ThriftHub NYC: a verified model of the discovery logic

ThriftHub NYC is a directory of New York second-hand stores. It is a web
application with a map, store cards and pages, a blog, and a content
repository holding the stores, their categories, neighbourhoods and
regions. Most of it is rendering and repository plumbing. Under that lies
small, deterministic logic on strings and lists. This project models that
logic in Dafny and proves what it promises.

- **Discovery on the client.**
  - `MapMarker`: the keyword classifier that puts a store in one of eight map categories (first match wins), and the marker sizes.
  - `MapPage`: the discovery map page as an object whose methods are the page's handlers and effects. It covers the search filter, the category and neighbourhood selections, and their mirror in the URL.
  - `Autocomplete`: the suggestion box as an object, with its filtered options and its keyboard state machine.
  - `MapComponent`: the map component as an object with a marker registry keyed by store id, the camera fit and the fly-to for the selected store. Map-library objects are opaque handles.
- **The data service** (`StoreService`).
  - The GROQ where-clause `filterStores` builds, together with the predicate the clause is meant to express. Values are interpolated without escaping, and the model proves this changes the meaning.
  - What each fetch wrapper returns when a query yields nothing or throws.
- **The import and repair scripts.**
  - `SanityImport`: slugs and the document ids built from them, the HTML-to-block conversion, the store document and its stripping of empty fields, and the import counters.
  - `FixKeys`: the `_key` repair of description blocks and category references, including how its queued patches are merged.
  - `Portable`: the block, span and keyed-reference shapes both scripts share.
- **Aggregation.**
  - `CityPage`: grouping stores by region, ordering the groups by size, and the six-card cap.
  - `PrepareData`: the category and neighbourhood tallies and the data-quality counters of the summary script.
  - `Ranking`: the largest-first ordering both of these use.
- **Display derivations.**
  - `StoreCard` and `StoreDetailPanel`: the stock-image hash, the `$` price indicator, the card looks and link targets, the hours block, the website address and its domain.
  - `JsonLd`: the schema.org `Store`/`PostalAddress`/`AggregateRating` and `BlogPosting` documents.
  - The preview builders and `hidden` predicates of the content studio's blocks: `BlockPreview` (shared), `CallToAction`, `EmbeddedMap`, `PullQuote`, `ImageGallery`, `StoreSpotlight`.
- **Shared modules.** `Wrappers` (Option), `Text` (string operations as JavaScript performs them), `Types` (the records of lib/types/index.ts).

Code that works step by step is modelled imperatively. The page, the autocomplete and the map component are classes whose methods update fields. Loops (`filterStores`, `importData`, the stripping loop, the key repair, the grouping `reduce`, the counting `forEach`, the marker loop) are methods with loop invariants. Each such method is proved against a function that specifies it. Pure derivations are functions with lemmas.

Fetches, map-library calls, `Math.random`, `new URL(...)` and repository writes are not run. Their outcomes are parameters: a `Fetched` value, a "throws" flag, a key source, a host-name function.

Observations the model makes precise:

- `filterStores` pastes values between double quotes without escaping. A neighbourhood slug containing `"` renders to the same text as two slugs, and selects different stores (`StoreService.QuoteInjectionText`, `StoreService.QuoteInjectionMeaning`).
- The key repair merges its patches by object spread. When a store needs both patches, only the category references are written and the rebuilt description is lost (`FixKeys.DescriptionFixLost`). Child keys that are missing never queue a patch on their own (`FixKeys.ChildKeysAloneQueueNothing`).
- The registry keeps the last marker for a repeated store id (`MapComponent.RegistryLastWins`). The earlier marker stays on the map with no registry entry, so the next `addMarkers` cannot remove it (`MapComponent.MapComponent.Rebuild` keeps every fresh marker on the map and registers only the last one per id).
- `{store.metrics?.rating && ...}` and `{distance && ...}` render the text `0` when the value is zero (`StoreCard.NumberSlot`).
- ArrowUp from a highlight left over from a longer option list moves to an index that is still out of range (see the autocomplete rows).
- `getBlogPostBySlug` falls back to the mock posts. After a thrown fetch, only the first mock post can be found (`StoreService.ThrowHidesSecondMock`).
- `getWebsiteDomain` removes the first `www.` anywhere in the host, not only a leading one (`StoreDetailPanel.DomainDropsInnerWww`). The panel defines it but never calls it.
- The panel's hours block enumerates the keys of the hours object. For hours shaped as the `Hours` type declares, it shows a single row labelled `weekdayText` (`StoreDetailPanel.TypedHoursShowOneRow`).
- The postal code is the first run of five digits anywhere in the address, so a five-digit house number wins over the zip code (`JsonLd.HouseNumberTakenForPostalCode`).
- An unset `NEXT_PUBLIC_SITE_URL` yields URLs beginning with `undefined` (`JsonLd.EnvText`).
- `StoreJsonLd` reads `store.location.lat` without a guard, so it throws for a store without a location (`JsonLd.StoreLd`).
- The store spotlight's custom title never reaches its preview (`StoreSpotlight.CustomTitleNotPreviewed`).
- An embedded map whose type was never set reads "stores map" and shows no store count (`EmbeddedMap.Prepare`).
- Neighbourhood document ids come from the neighbourhood name alone, so equal names in different regions share one document (`SanityImport.NeighborhoodId`).
- The card and the detail panel repeat the image hash, the price indicator and the neighbourhood line word for word. Each is defined once here, in `StoreCard`.
- When a category or neighbourhood is selected, the list searched first is thrown away. The result is the search applied to what `filterStores` returns (`MapPage.FilterOutcomeSpec`).
- The search reads `store.neighborhood.name` without a guard. The `Store` type declares the neighbourhood as required, and the search functions require it.

## Model

| member | source | states |
|---|---|---|
| MapMarker.Config | components/map/MapMarker.tsx:4-45 | every category has a `#rrggbb` colour, a non-empty icon and a non-empty name |
| MapMarker.ConfigDistinct | components/map/MapMarker.tsx:4-45 | two different categories never share a colour or a name |
| MapMarker.CategorizeIsFirstMatch | components/map/MapMarker.tsx:53-62 | the if-chain returns the category of the first keyword group, in the fixed order, that has a keyword in the text |
| MapMarker.Rank | components/map/MapMarker.tsx:54-60 | each non-general category has a position in the precedence order |
| MapMarker.FirstMatchSpec | components/map/MapMarker.tsx:53-62 | the winning group has a matching keyword and no earlier group does; `general` only when no group matches |
| MapMarker.CategorizePrecedence | components/map/MapMarker.tsx:50-62 | a store gets category c exactly when c's group matches and no earlier group does; `general` exactly when no keyword occurs |
| MapMarker.CategorizeIgnoresCase | components/map/MapMarker.tsx:51 | lower-casing name and description first does not change the category |
| MapMarker.VintageBeatsConsignment | components/map/MapMarker.tsx:54-55 | "Vintage Consignment" is classified vintage |
| MapMarker.AntiqueBeatsFurniture | components/map/MapMarker.tsx:56-57 | "Antique Furniture" is classified antique |
| MapMarker.SubstringNotWord | components/map/MapMarker.tsx:57 | "Stable Finds" is classified furniture, because "table" is a substring |
| MapMarker.KeywordSpansJoin | components/map/MapMarker.tsx:51-60 | name "Salvation" with description "Army" is classified thrift, though neither part holds "salvation army" |
| MapMarker.OnlyThriftLetters | components/map/MapMarker.tsx:54-60 | a text starting with "salvation army" and lacking the letters of every earlier keyword is classified thrift |
| MapMarker.SizesIncrease | components/map/MapMarker.tsx:79-83 | container, pin, icon and offset grow strictly from sm to md to lg, and every pin fits its container |
| MapMarker.CurrentSize | components/map/MapMarker.tsx:73-85 | a hovered marker is always lg; otherwise the size prop, md when absent |
| MapMarker.HoverNeverShrinks | components/map/MapMarker.tsx:85 | hovering never makes a marker smaller |
| MapPage.Search | app/cities/new-york/map/page.tsx:72-79 | keeps exactly the stores whose name, description (absent: no match) or neighbourhood name contains the lower-cased query; never longer than the input |
| MapPage.SearchAppend | app/cities/new-york/map/page.tsx:74-78 | filtering keeps input order: filtering a concatenation concatenates the filtered parts |
| MapPage.SearchEmptyQuery | app/cities/new-york/map/page.tsx:72-79 | the empty query keeps every store |
| MapPage.SearchIdempotent | app/cities/new-york/map/page.tsx:74-78 | searching twice with one query is searching once |
| MapPage.AddUnique | app/cities/new-york/map/page.tsx:120-130 | appends a value only when non-empty and absent; the old list stays a prefix |
| MapPage.AddUniqueProperties | app/cities/new-york/map/page.tsx:120-130 | adding keeps a list duplicate-free and is idempotent |
| MapPage.RemoveAll | app/cities/new-york/map/page.tsx:132-138 | keeps exactly the other values |
| MapPage.RemoveAllAppend | app/cities/new-york/map/page.tsx:132-138 | removal keeps the order of the rest (works piecewise on concatenation) |
| MapPage.RemoveUndoesAdd | app/cities/new-york/map/page.tsx:120-138 | removing a value just added gives the old list back |
| MapPage.RemoveAllAbsent | app/cities/new-york/map/page.tsx:132-138 | removing a missing value changes nothing |
| MapPage.RemoveAllNoDuplicates | app/cities/new-york/map/page.tsx:132-138 | removal keeps a list duplicate-free |
| MapPage.Get | app/cities/new-york/map/page.tsx:41-43 | `URLSearchParams.get` is absent exactly when no entry has the key |
| MapPage.UrlParamsWritten | app/cities/new-york/map/page.tsx:106-118 | the URL has `category` / `neighborhood` exactly when that list is non-empty, with the comma-joined value, and never the query |
| MapPage.UrlRoundTrip | app/cities/new-york/map/page.tsx:41-118 | a selection written to the URL reads back unchanged when no slug holds a comma and the joined text is non-empty |
| MapPage.JoinOfNonEmpty | app/cities/new-york/map/page.tsx:120-130 | a selection built by the handlers joins to non-empty text |
| MapPage.FilterOutcomeSpec | app/cities/new-york/map/page.tsx:67-100 | the result is the matching stores of the fetched list when a selection exists, else of all stores; with no filter active, all stores |
| MapPage.DiscoveryMapPage.constructor | app/cities/new-york/map/page.tsx:15-22 | the initial state: empty lists, empty query, loading |
| MapPage.DiscoveryMapPage.LoadData | app/cities/new-york/map/page.tsx:25-64 | a failed load changes only the loading flag; otherwise stores and selections come from the data and the URL, the store-id filter replaces the list when asked |
| MapPage.DiscoveryMapPage.ApplyFilters | app/cities/new-york/map/page.tsx:67-103 | sets the shown stores to the filter outcome and changes nothing else |
| MapPage.DiscoveryMapPage.SyncUrl | app/cities/new-york/map/page.tsx:106-118 | writes the URL parameters of the current selections and changes nothing else |
| MapPage.DiscoveryMapPage.SetSearchQuery | app/cities/new-york/map/page.tsx:162 | sets the query and nothing else |
| MapPage.DiscoveryMapPage.HandleCategoryChange | app/cities/new-york/map/page.tsx:120-124 | adds the slug uniquely, keeps the list duplicate-free, changes nothing else |
| MapPage.DiscoveryMapPage.HandleNeighborhoodChange | app/cities/new-york/map/page.tsx:126-130 | adds the slug uniquely, keeps the list duplicate-free, changes nothing else |
| MapPage.DiscoveryMapPage.RemoveCategory | app/cities/new-york/map/page.tsx:132-134 | drops every occurrence of the slug, changes nothing else |
| MapPage.DiscoveryMapPage.RemoveNeighborhood | app/cities/new-york/map/page.tsx:136-138 | drops every occurrence of the slug, changes nothing else |
| MapPage.DiscoveryMapPage.ClearFilters | app/cities/new-york/map/page.tsx:140-146 | empties both lists and the query, so no filter is active |
| MapPage.ClearedPageShowsAll | app/cities/new-york/map/page.tsx:67-144 | after clearing, every loaded store is shown and the URL gets no parameter |
| Autocomplete.Matching | components/ui/AutocompleteInput.tsx:34-36 | keeps exactly the options whose label or value contains the input, ignoring case, each as often as the input holds it |
| Autocomplete.MatchingAppend | components/ui/AutocompleteInput.tsx:34-36 | filtering keeps the input order: the matches of a joined list are the first part's matches followed by the second's |
| Autocomplete.MatchingSingle | components/ui/AutocompleteInput.tsx:34-36 | a one-option list keeps its option exactly when it matches |
| Autocomplete.MatchingEmptyInput | components/ui/AutocompleteInput.tsx:34-36 | an empty input matches every option |
| Autocomplete.FilteredOptions | components/ui/AutocompleteInput.tsx:34-37 | at most eight matching options, a prefix of all matches in the original order, all of them when fewer than eight |
| Autocomplete.EmptyInputShowsFirstEight | components/ui/AutocompleteInput.tsx:34-37 | with nothing typed the suggestions are the first eight options |
| Autocomplete.NextDown | components/ui/AutocompleteInput.tsx:65-70 | ArrowDown moves to the next suggestion, wraps from the last to 0, and stays in range |
| Autocomplete.NextUp | components/ui/AutocompleteInput.tsx:71-76 | ArrowUp moves to the previous suggestion, wraps from 0 or -1 to the last, and stays in range from any index up to n |
| Autocomplete.DownCycles | components/ui/AutocompleteInput.tsx:65-70 | repeated ArrowDown from no highlight visits every suggestion in order and wraps to the first |
| Autocomplete.StaleHighlightAfterArrowUp | components/ui/AutocompleteInput.tsx:71-76 | a highlight of 5 with two suggestions moves to 4, outside the list |
| Autocomplete.AutocompleteInput.constructor | components/ui/AutocompleteInput.tsx:28-29 | starts closed with no highlight |
| Autocomplete.AutocompleteInput.Suggestions | components/ui/AutocompleteInput.tsx:34-37 | never more than eight suggestions |
| Autocomplete.AutocompleteInput.SetProps | components/ui/AutocompleteInput.tsx:20-27 | a re-render changes the props and keeps the open flag and highlight |
| Autocomplete.AutocompleteInput.HandleInputChange | components/ui/AutocompleteInput.tsx:40-44 | reports the text once, opens exactly when it is non-empty, clears the highlight |
| Autocomplete.AutocompleteInput.ClearButton | components/ui/AutocompleteInput.tsx:143-145 | reports the empty text, closes the list and clears the highlight |
| Autocomplete.AutocompleteInput.HandleOptionSelect | components/ui/AutocompleteInput.tsx:47-53 | reports the option's value, closes, clears the highlight, calls `onSelect` once when given |
| Autocomplete.AutocompleteInput.HandleKeyDown | components/ui/AutocompleteInput.tsx:56-89 | closed or empty: only ArrowDown opens; open: arrows move and wrap within range, Enter selects only a highlighted existing option, Escape closes and clears |
| Autocomplete.AutocompleteInput.MouseDown | components/ui/AutocompleteInput.tsx:92-102 | a press outside closes the list and clears the highlight; one inside changes nothing |
| Autocomplete.AutocompleteInput.Focus | components/ui/AutocompleteInput.tsx:127 | focusing opens the list when there is text |
| MapComponent.Registry | components/map/MapComponent.tsx:108-163 | the registry maps each id to a store with that id |
| MapComponent.RegistryKeys | components/map/MapComponent.tsx:112-163 | the registry ids are exactly the ids of stores whose marker builds |
| MapComponent.RegistryOfLocated | components/map/MapComponent.tsx:112-158 | with no library failure the registry ids are exactly the ids of stores with a location and non-zero coordinates |
| MapComponent.RegistryLastWins | components/map/MapComponent.tsx:158 | when ids repeat, the entry is the last store with that id whose marker builds |
| MapComponent.RegistrySkipsFailure | components/map/MapComponent.tsx:134-162 | a store that gets no marker, because it is skipped or its marker throws, adds nothing and the loop goes on with the rest |
| MapComponent.RegistryConcat | components/map/MapComponent.tsx:112-163 | building over a concatenation is building over the parts in turn |
| MapComponent.BoundsPoints | components/map/MapComponent.tsx:169-173 | the bounds are extended with exactly the coordinates of the located stores |
| MapComponent.MapComponent.constructor | components/map/MapComponent.tsx:17-22 | no map, no error, an empty registry |
| MapComponent.MapComponent.Init | components/map/MapComponent.tsx:30-89 | nothing without a container or with a map present; a missing token or a throwing constructor sets the error and creates nothing; otherwise exactly one map is created |
| MapComponent.MapComponent.Teardown | components/map/MapComponent.tsx:91-96 | removes the map with its markers and sets the map ref to null |
| MapComponent.MapComponent.AddMarkers | components/map/MapComponent.tsx:100-188 | without a map nothing changes; otherwise every old registered marker is removed while markers outside the registry stay, every fresh marker stays on the map, the registry is exactly `Registry` with each marker on the map, and a fit is recorded only for a non-empty list whose fit does not throw |
| MapComponent.MapComponent.Rebuild | components/map/MapComponent.tsx:107-163 | on a live map every old registered marker leaves the map and every other marker stays; every fresh marker is on this map, including one a later store with the same id displaced; the new registry is exactly `Registry`, each entry a fresh marker showing its store |
| MapComponent.MapComponent.SelectStore | components/map/MapComponent.tsx:191-215 | no selection, no map or no location: nothing; otherwise a flight to the store at zoom 15 over 1000 ms and a popup toggle only when the id has a marker |
| MapComponent.Detach | components/map/MapComponent.tsx:108 | removed markers leave the map and the others stay on theirs |
| MapComponent.BuildMarkers | components/map/MapComponent.tsx:112-163 | the loop registers exactly the ids of `Registry`, each with a fresh marker showing that store; every marker already on a map stays, and every fresh marker is attached to the map |
| MapComponent.CollectBounds | components/map/MapComponent.tsx:168-173 | the loop collects exactly `BoundsPoints` |
| StoreService.CategoryConds | lib/data/sanity-store-service.ts:380-382 | one category condition per listed slug, in order |
| StoreService.NeighborhoodConds | lib/data/sanity-store-service.ts:387-389 | one neighbourhood condition per listed slug, in order |
| StoreService.IdConds | lib/data/sanity-store-service.ts:394-396 | one id condition per listed id, in order |
| StoreService.Groups | lib/data/sanity-store-service.ts:375-398 | at most four groups: city, categories, neighbourhoods, store ids |
| StoreService.RenderConds | lib/data/sanity-store-service.ts:380-397 | one rendered condition per condition |
| StoreService.RenderGroups | lib/data/sanity-store-service.ts:375-398 | one rendered text per pushed group |
| StoreService.WhereClauseEmpty | lib/data/sanity-store-service.ts:400-401 | the where-clause is empty exactly when no city and no non-empty list is given, and otherwise starts with ` && (` |
| StoreService.EmptyListIsAbsent | lib/data/sanity-store-service.ts:379-393 | an empty category, neighbourhood or id list yields the same groups as an absent one |
| StoreService.SecondarySlugs | lib/data/sanity-store-service.ts:381 | the slugs of the secondary categories, in order; none when absent |
| StoreService.CategorySlugs | lib/data/sanity-store-service.ts:381 | the slug of each category, in order |
| StoreService.AllHoldSingle | lib/data/sanity-store-service.ts:400-401 | a one-group conjunction holds exactly when its group holds |
| StoreService.AllHoldAppend | lib/data/sanity-store-service.ts:400-401 | a conjunction over concatenated groups holds exactly when both parts hold |
| StoreService.CategoryGroupMeaning | lib/data/sanity-store-service.ts:380-383 | a category group holds exactly when some listed slug is the primary category or one of the secondary ones |
| StoreService.NeighborhoodGroupMeaning | lib/data/sanity-store-service.ts:387-390 | a neighbourhood group holds exactly when some listed slug is the store's neighbourhood |
| StoreService.IdGroupMeaning | lib/data/sanity-store-service.ts:394-397 | an id group holds exactly when some listed id is the store's id |
| StoreService.SelectedMeaning | lib/data/sanity-store-service.ts:372-401 | the clause's meaning: a store is selected exactly when it matches the city and, for each non-empty list, some value in it |
| StoreService.NoFilterSelectsAll | lib/data/sanity-store-service.ts:400-401 | with no filter the clause is empty and every store is selected |
| StoreService.QuoteInjectionText | lib/data/sanity-store-service.ts:388-389 | a slug holding `"` renders to the same text as two separate slugs |
| StoreService.QuoteInjectionMeaning | lib/data/sanity-store-service.ts:386-390 | the same store is selected by the two slugs and not by the one slug that reads the same |
| StoreService.FilterStores | lib/data/sanity-store-service.ts:365-455 | the pushed groups give exactly `WhereClause`, and the result is the fetched list, or `[]` on `null` or a throw |
| StoreService.PushIf | lib/data/sanity-store-service.ts:375-398 | one `if ... push` step appends the rendered group exactly when its test passes |
| StoreService.WhereClauseOf | lib/data/sanity-store-service.ts:400-401 | the clause is ` && (` + the conditions joined by ` && ` + `)`, or empty with no conditions |
| StoreService.RenderGroupsAppend | lib/data/sanity-store-service.ts:375-398 | rendering distributes over concatenation of groups |
| StoreService.GetAllStores | lib/data/sanity-store-service.ts:116-125 | the fetched stores, or `[]` on `null` or a throw |
| StoreService.GetStoreBySlug | lib/data/sanity-store-service.ts:231-284 | the fetched store, or `null` when there is none or the fetch throws |
| StoreService.GetCityData | lib/data/sanity-store-service.ts:340-362 | the fetched city, or the fixed New York record (id `new-york`, zoom 12) on `null` or a throw |
| StoreService.GetAllBlogPosts | lib/data/sanity-store-service.ts:458-526 | a non-empty list sorted newest first; both mock posts for `null` or an empty list; only the first one on a throw |
| StoreService.FindBySlug | lib/data/sanity-store-service.ts:567 | the first post with the slug, or `null` exactly when no post has it |
| StoreService.GetBlogPostBySlug | lib/data/sanity-store-service.ts:529-574 | the fetched post when there is one, else the first post with that slug in what `getAllBlogPosts` gives |
| StoreService.MockPostFound | lib/data/sanity-store-service.ts:486-567 | with an empty repository the second mock guide is found by its slug |
| StoreService.ThrowHidesSecondMock | lib/data/sanity-store-service.ts:503-572 | when the fetches throw, the second mock guide's slug gives `null` |
| SanityImport.SkipRun | scripts/import-to-sanity.js:26 | drops exactly the leading characters outside `[a-z0-9]` |
| SanityImport.DashRuns | scripts/import-to-sanity.js:26 | the result is in the slug alphabet with no double dash, empty exactly for the empty input, and starts with a dash exactly when the input starts outside `[a-z0-9]` |
| SanityImport.TrimDashes | scripts/import-to-sanity.js:27 | removing one edge dash on each side of a dash-run result gives slug shape, and leaves a slug unchanged |
| SanityImport.CreateSlug | scripts/import-to-sanity.js:23-28 | the slug has only `[a-z0-9-]`, no `--`, and no leading or trailing dash |
| SanityImport.DashRunsFixed | scripts/import-to-sanity.js:26 | text in the slug alphabet with no double dash passes the run replacement unchanged |
| SanityImport.LowerSlugAlphabet | scripts/import-to-sanity.js:25 | lower-casing leaves slug-alphabet text unchanged |
| SanityImport.SlugFixed | scripts/import-to-sanity.js:23-28 | a slug is its own slug |
| SanityImport.CreateSlugIdempotent | scripts/import-to-sanity.js:23-28 | `createSlug(createSlug(x)) == createSlug(x)` |
| SanityImport.RegionId | scripts/import-to-sanity.js:93 | `region-` plus the slug of the region name, `Manhattan` by default |
| SanityImport.NeighborhoodId | scripts/import-to-sanity.js:114 | `neighborhood-` plus the slug of the neighbourhood name, `Unknown` by default |
| SanityImport.CategoryId | scripts/import-to-sanity.js:134-137 | none exactly without data or name; else `category-` plus the supplied slug when non-empty, else the slug of the name |
| SanityImport.RegionIdsBySlug | scripts/import-to-sanity.js:93 | two region names share a document exactly when their slugs agree |
| SanityImport.SpaceRun | scripts/import-to-sanity.js:50 | the length of the leading white-space run |
| SanityImport.LastIndexOf | scripts/import-to-sanity.js:50 | the last position holding the character |
| SanityImport.ConvertHtml | scripts/import-to-sanity.js:34-66 | none exactly for a falsy input; else one `normal` block with one span holding the cleaned text, trimmed at both ends |
| SanityImport.RemoveH4OpenPlain | scripts/import-to-sanity.js:43 | text without `<` has no `<h4` tag to remove |
| SanityImport.CollapsePlain | scripts/import-to-sanity.js:49 | text without a line break has no blank line to collapse |
| SanityImport.ReplaceAllPlain | scripts/import-to-sanity.js:40-48 | a tag pattern never occurs in text without `<` |
| SanityImport.PlainTextIsTrimmed | scripts/import-to-sanity.js:39-50 | text without markup and line breaks comes through only trimmed |
| SanityImport.CategoryIds | scripts/import-to-sanity.js:177-188 | at most one id per secondary category |
| SanityImport.CategoryIdsMembers | scripts/import-to-sanity.js:177-188 | an id is kept exactly when some secondary category resolves to it (null ones are dropped) |
| SanityImport.CategoryIdsAppend | scripts/import-to-sanity.js:178-186 | each resolving category appends its id at the end, so input order is kept |
| SanityImport.KeyedRefs | scripts/import-to-sanity.js:181-185 | one keyed reference per id, in order, each with the next generated key |
| SanityImport.KeyedRefsSnoc | scripts/import-to-sanity.js:181-185 | one more id adds its reference at the end |
| SanityImport.PushRef | scripts/import-to-sanity.js:179-186 | one turn: a resolving category adds its reference with the next key, and uses one key |
| SanityImport.SecondaryRefs | scripts/import-to-sanity.js:175-188 | the loop yields exactly the keyed references of the resolving categories, using one key each |
| SanityImport.StripEmpty | scripts/import-to-sanity.js:216-220 | a field is deleted exactly when it is `null`, `undefined` or `''`; the others keep their values |
| SanityImport.Compute | scripts/import-to-sanity.js:170-195 | the name, its slug, the primary category and neighbourhood ids, the secondary references and the description |
| SanityImport.DocumentValue | scripts/import-to-sanity.js:191-213 | every field of the object literal is in the document with its value |
| SanityImport.FieldsListed | scripts/import-to-sanity.js:216 | `Object.keys` lists every field |
| SanityImport.ImportStore | scripts/import-to-sanity.js:156-224 | an existing store is left alone; a failure exactly when the store is new and its name is missing (`createSlug` of an undefined name throws) or a write throws; a created document keeps each field exactly when it is not empty |
| SanityImport.BuildDocument | scripts/import-to-sanity.js:191-220 | the stripped document keeps each field exactly when not empty |
| SanityImport.StrippedDocument | scripts/import-to-sanity.js:216-220 | what the stripping loop leaves is the object literal minus its empty fields |
| SanityImport.ImportedDocument | scripts/import-to-sanity.js:191-220 | no written field is empty; type, slug, neighbourhood reference, secondary references and metrics are always there; the primary category and description exactly when they resolve |
| SanityImport.KeptNonEmpty | scripts/import-to-sanity.js:215-220 | a stripped document holds no empty value, for any computed values |
| SanityImport.KeptFields | scripts/import-to-sanity.js:191-220 | the fields `ImportedDocument` names, for any computed values |
| SanityImport.CountFails | scripts/import-to-sanity.js:234-248 | at most one failure per store |
| SanityImport.ImportCounted | scripts/import-to-sanity.js:236-247 | one turn of the loop reports a failure exactly when `importStore` throws |
| SanityImport.ImportData | scripts/import-to-sanity.js:227-257 | `successCount + errorCount` is the number of stores, and `errorCount` is the number that fail |
| FixKeys.FixSpans | scripts/fix-missing-keys.js:53-64 | every child has a key afterwards, and a child that had one is kept as it was |
| FixKeys.FixBlock | scripts/fix-missing-keys.js:47-65 | the rebuilt block has a key (its own when it had one), keyed children, and `[]` for missing children |
| FixKeys.FixedBlocks | scripts/fix-missing-keys.js:47 | one rebuilt block per block |
| FixKeys.FixedBlocksFixed | scripts/fix-missing-keys.js:47-66 | every rebuilt block is the fix of the block at its position |
| FixKeys.FixedBlocksAppend | scripts/fix-missing-keys.js:47-66 | one more block extends the rebuilt description by that block, rebuilt from the keys left over, and raises the flag exactly when it has no key |
| FixKeys.PushBlock | scripts/fix-missing-keys.js:47-66 | one callback call: the block rebuilt and appended, the flag and the key counter advanced as the specification functions say |
| FixKeys.FixDescription | scripts/fix-missing-keys.js:46-66 | the blocks rebuilt in order, with `needsUpdate` raised exactly when some block lacks a key |
| FixKeys.FixRefs | scripts/fix-missing-keys.js:81-84 | every reference keyed, existing keys kept, one per input reference |
| FixKeys.QueuePatches | scripts/fix-missing-keys.js:42-90 | the description patch exactly when a block lacked a key, then the categories patch exactly when a reference lacked one; `needsUpdate` exactly when something was queued |
| FixKeys.DescriptionPass | scripts/fix-missing-keys.js:46-73 | the description patch is queued exactly when some block lacked a key, and the keys it drew are counted |
| FixKeys.CategoriesPass | scripts/fix-missing-keys.js:76-90 | the categories patch is queued exactly when some reference lacks a key, with keys drawn after the description's |
| FixKeys.QueuedPatchesFix | scripts/fix-missing-keys.js:68-89 | every queued patch sets a fully keyed rebuild of its field with existing keys kept |
| FixKeys.ChildKeysAloneQueueNothing | scripts/fix-missing-keys.js:48-72 | children without keys never queue a description patch on their own |
| FixKeys.LastSetWins | scripts/fix-missing-keys.js:95-98 | the spread-merged patch sets exactly what the last queued patch sets |
| FixKeys.DescriptionFixLost | scripts/fix-missing-keys.js:95-103 | when both patches are queued only the secondary categories are written |
| FixKeys.StoreCommit | scripts/fix-missing-keys.js:93-106 | a store yields at most one commit, under its own id, exactly when it needs an update and the commit does not throw |
| FixKeys.Commits | scripts/fix-missing-keys.js:93-110 | at most one commit per store |
| FixKeys.FixMissingKeys | scripts/fix-missing-keys.js:39-113 | the commits are exactly those that go through, in order, and `fixedCount` counts them |
| FixKeys.FixStore | scripts/fix-missing-keys.js:41-110 | a store is committed with its merged patch exactly when it needs an update and the commit does not throw |
| FixKeys.CommitsNeedUpdate | scripts/fix-missing-keys.js:93-106 | every commit belongs to a store that lacked a key and whose commit did not throw |
| CityPage.InRegion | app/cities/new-york/page.tsx:21-28 | the group's stores are input stores whose group key is the given name, no more than the input |
| CityPage.InRegionComplete | app/cities/new-york/page.tsx:21-28 | every store of a group is kept in that group |
| CityPage.GroupKeysMeaning | app/cities/new-york/page.tsx:22-25 | a name is a group exactly when some store falls into it |
| CityPage.SumSizesUpdate | app/cities/new-york/page.tsx:26 | replacing one group changes the total size by the change in its size |
| CityPage.SumSizesOther | app/cities/new-york/page.tsx:26 | a group that is not listed does not count towards the total |
| CityPage.SumSizesAppend | app/cities/new-york/page.tsx:23-25 | listing one more group adds its size |
| CityPage.GroupByRegion | app/cities/new-york/page.tsx:21-28 | groups in order of creation, keyed by the region name or `Unknown`; each holds exactly its stores in input order; sizes sum to the number of stores |
| CityPage.AddToGroup | app/cities/new-york/page.tsx:22-27 | one `reduce` step keeps the groups exact for the longer prefix |
| CityPage.GroupStep | app/cities/new-york/page.tsx:22-27 | creating the group if missing and appending the store keeps the groups exact |
| CityPage.StepOrder | app/cities/new-york/page.tsx:23-25 | a new group is named once, at the end |
| CityPage.StepKeys | app/cities/new-york/page.tsx:22-25 | the step adds the store's group to the names |
| CityPage.StepContents | app/cities/new-york/page.tsx:26 | the store goes to the end of its own group and no other changes |
| CityPage.StepSizes | app/cities/new-york/page.tsx:26 | the total size grows by one |
| CityPage.NewGroupSize | app/cities/new-york/page.tsx:23-26 | a new group with one store adds one to the total |
| CityPage.PrefixSnoc | app/cities/new-york/page.tsx:21 | the next prefix is the prefix plus the next store |
| CityPage.DistinctCount | app/cities/new-york/page.tsx:81 | a list without repeats has as many names as elements |
| CityPage.InRegionSnoc | app/cities/new-york/page.tsx:26 | one more store extends only its own group |
| CityPage.InRegionNone | app/cities/new-york/page.tsx:23-26 | a group no store belongs to is empty |
| CityPage.Entries | app/cities/new-york/page.tsx:31 | `Object.entries` in creation order, one per group |
| CityPage.TotalStoresOfEntries | app/cities/new-york/page.tsx:31 | the entries' sizes sum to the groups' total |
| CityPage.RegionSection | app/cities/new-york/page.tsx:91-109 | at most six cards, the first ones; a "View all" link exactly when there are more, to `?region=` plus the lower-cased name |
| CityPage.NewYorkCityPage | app/cities/new-york/page.tsx:21-81 | every region listed once with exactly its stores, largest first, counts summing to the number of stores; the borough count is the number of distinct regions |
| CityPage.GroupCount | app/cities/new-york/page.tsx:81 | there are as many groups as distinct group names |
| CityPage.SortedEntriesCover | app/cities/new-york/page.tsx:31-32 | reordering the entries keeps each group's stores and every store's group |
| Ranking.TotalAppend | app/cities/new-york/page.tsx:31-32 | the total of a list with one more entry grows by that entry's size |
| Ranking.Insert | app/cities/new-york/page.tsx:31-32 | inserting adds exactly the entry and its size |
| Ranking.ConsSorted | app/cities/new-york/page.tsx:31-32 | an entry at least as large as all others can lead an ordered list |
| Ranking.InsertBounded | app/cities/new-york/page.tsx:31-32 | inserting keeps a common bound on sizes |
| Ranking.InsertSorted | app/cities/new-york/page.tsx:31-32 | inserting into an ordered list keeps it ordered |
| Ranking.SortDesc | app/cities/new-york/page.tsx:31-32 | `sort((a, b) => b - a)`: a permutation, non-increasing in size, with the same total |
| PrepareData.CategoryLabels | scripts/prepare-data.js:15 | each store's primary category name, or `Uncategorized` |
| PrepareData.NeighborhoodLabels | scripts/prepare-data.js:29 | each store's neighbourhood name, or `Unknown` |
| PrepareData.CountMapMeaning | scripts/prepare-data.js:13-17 | a label is counted exactly when it occurs, with its number of occurrences |
| PrepareData.FirstSeenMeaning | scripts/prepare-data.js:20 | the entries list every label once |
| PrepareData.Listing | scripts/prepare-data.js:20 | `Object.entries` of the counts in creation order |
| PrepareData.ListingUpdate | scripts/prepare-data.js:16 | changing one listed count changes the total by the difference |
| PrepareData.ListingOther | scripts/prepare-data.js:16 | changing an unlisted count changes nothing |
| PrepareData.ListingAppend | scripts/prepare-data.js:16 | listing one more label adds its count |
| PrepareData.ListingTotal | scripts/prepare-data.js:13-17 | the counts sum to the number of stores |
| PrepareData.Tally | scripts/prepare-data.js:13-17 | the counting loop yields the labels in first-seen order and their occurrence counts |
| PrepareData.RankedCounts | scripts/prepare-data.js:20-21 | every label once with its count, largest first, summing to the total |
| PrepareData.Names | scripts/prepare-data.js:22 | the labels of a listing, in order |
| PrepareData.RankedListing | scripts/prepare-data.js:20-21 | reordering keeps every label, its count and distinct names |
| PrepareData.MultisetDistinct | scripts/prepare-data.js:20 | in a list without repeats each entry occurs once |
| PrepareData.SameEntryTwice | scripts/prepare-data.js:20 | an entry at two positions occurs at least twice |
| PrepareData.Top | scripts/prepare-data.js:36 | the first ten entries; of an ordered listing no entry left out is larger than one shown |
| PrepareData.CountMissing | scripts/prepare-data.js:42-50 | at most the total; 0 exactly when no store lacks the field, the total exactly when all do |
| PrepareData.CountMissingAppend | scripts/prepare-data.js:42-50 | one more store adds one to a count exactly when that check finds it lacking |
| PrepareData.CountStore | scripts/prepare-data.js:42-50 | one turn of the quality loop moves each counter from the counts of the stores before to the counts including this store |
| PrepareData.CheckQuality | scripts/prepare-data.js:42-50 | each counter counts the stores its check finds lacking (a 0 coordinate counts as missing) |
| PrepareData.TopOfListing | scripts/prepare-data.js:34-37 | the first ten entries of a listing are real labels with their counts, named once each, and fewer than ten only when every label is shown |
| PrepareData.ShownAreLargest | scripts/prepare-data.js:34-37 | the ten shown are listing entries and no label left out occurs more often than one shown |
| PrepareData.CategorySummary | scripts/prepare-data.js:13-24 | every category with its count, largest first, summing to the total |
| PrepareData.NeighborhoodSummary | scripts/prepare-data.js:27-39 | the ten largest neighbourhoods, or every neighbourhood when there are fewer: real labels named once each with their counts, largest first, none left out larger |
| PrepareData.Summarize | scripts/prepare-data.js:8-55 | the total; every category once with its number of stores, largest first, summing to the total; the ten largest neighbourhoods (every one when there are fewer), each a real label named once with its count, none left out larger; each quality counter the number of stores its check finds lacking |
| StoreCard.CharSumConcat | components/store/StoreCard.tsx:21 | the character-code sum of a concatenation is the sum of the parts' sums |
| StoreCard.CharSumPermutation | components/store/StoreCard.tsx:21 | the sum does not depend on character order |
| StoreCard.StoreImage | components/store/StoreCard.tsx:9-23 | always one of the eight stock images; the empty id gives the first |
| StoreCard.AnagramsShareImage | components/store/StoreCard.tsx:21-22 | ids with the same characters in any order get the same image |
| StoreCard.ShiftByEightSharesImage | components/store/StoreCard.tsx:21-22 | changing one character code by eight keeps the image |
| StoreCard.CardImage | components/store/StoreCard.tsx:35-37 | the featured image at 400 by 300 exactly when there is one, else the stock image of the id |
| StoreCard.PriceIndicator | components/store/StoreCard.tsx:39-41 | present exactly when the price level is present and not 0, and then that many `$`; the detail panel repeats the same indicator (StoreDetailPanel.tsx lines 37-39) |
| StoreCard.HighlightOf | components/store/StoreCard.tsx:45-49 | selected wins over hovered; the plain look exactly when neither |
| StoreCard.CardClasses | components/store/StoreCard.tsx:44-50 | the fixed transition classes followed by the look's own classes (none for the plain look) |
| StoreCard.CardClassesDistinguishLooks | components/store/StoreCard.tsx:44-50 | different looks give different class strings |
| StoreCard.NumberSlot | components/store/StoreCard.tsx:87-96 | nothing for a missing value, the text `0` for zero, the value otherwise |
| StoreCard.RatingSlot | components/store/StoreCard.tsx:87-95 | the rating's slot, nothing without metrics |
| StoreCard.StorePath | components/store/StoreCard.tsx:124 | `/stores/` followed by the slug |
| StoreCard.ListTarget | components/store/StoreCard.tsx:119-127 | the click handler exactly when one is given, else a link to the store page |
| StoreCard.NeighborhoodLine | components/store/StoreCard.tsx:69 | the neighbourhood name, then ` • ` and the region exactly when the region name is non-empty; the detail panel repeats the same line (StoreDetailPanel.tsx line 79) |
| StoreCard.GridNeighborhood | components/store/StoreCard.tsx:148 | the neighbourhood name, or `NYC` when it is missing or empty |
| StoreCard.VariantsDisagreeWithoutNeighborhood | components/store/StoreCard.tsx:69-148 | without a neighbourhood the grid card says `NYC` and the list card's line is empty |
| StoreCard.ListVariant | components/store/StoreCard.tsx:43-130 | image, price, classes, the neighbourhood line, rating and distance slots, the store's rating count exactly with a shown rating, the selected note exactly when selected, and the target |
| StoreCard.GridVariant | components/store/StoreCard.tsx:132-174 | image, price, neighbourhood text, rating slot, and always a link to the store page |
| StoreDetailPanel.PanelImage | components/store/StoreDetailPanel.tsx:33-35 | the featured image at 600 by 400 exactly when there is one, else the stock image of the id |
| StoreDetailPanel.PanelAndCardShareImage | components/store/StoreDetailPanel.tsx:11-25 | the panel's `getStoreImage` is the card's: the same stock image for an id, the same featured image at another size |
| StoreDetailPanel.SecondaryBadges | components/store/StoreDetailPanel.tsx:94 | the first two secondary categories at most, none when absent |
| StoreDetailPanel.Row | components/store/StoreDetailPanel.tsx:139-142 | the day and its value, or `Closed` for a falsy value |
| StoreDetailPanel.HoursView | components/store/StoreDetailPanel.tsx:134-149 | shown exactly when the hours have a key; the first three entries as rows; "more days" exactly when there are more than three, rows plus the rest adding up to the number of keys |
| StoreDetailPanel.TypedEntries | components/store/StoreDetailPanel.tsx:134-138 | the typed hours record has one key exactly when `weekdayText` is there |
| StoreDetailPanel.TypedHoursShowOneRow | components/store/StoreDetailPanel.tsx:134-146 | typed hours show one row labelled `weekdayText` with the whole list and no "more days" |
| StoreDetailPanel.WebsiteHref | components/store/StoreDetailPanel.tsx:157 | `https://` is prefixed exactly when the address does not start with `http` |
| StoreDetailPanel.WebsiteHrefIdempotent | components/store/StoreDetailPanel.tsx:157 | normalising twice is normalising once |
| StoreDetailPanel.HttpPrefixIsNotAScheme | components/store/StoreDetailPanel.tsx:157 | a bare host such as `httpbin.org` is left without a scheme |
| StoreDetailPanel.WebsiteLink | components/store/StoreDetailPanel.tsx:155-167 | the website link exactly when the website is non-empty, with the normalised address |
| StoreDetailPanel.DirectionsLink | components/store/StoreDetailPanel.tsx:169-182 | the directions link exactly when the Google Maps address is non-empty, unchanged |
| StoreDetailPanel.WebsiteDomain | components/store/StoreDetailPanel.tsx:42-49 | `null` exactly for a missing or empty address; the raw address when parsing throws; else the host with its first `www.` removed |
| StoreDetailPanel.DomainKeepsPlainHost | components/store/StoreDetailPanel.tsx:45 | a host without `www.` is shown as it is |
| StoreDetailPanel.DomainDropsLeadingWww | components/store/StoreDetailPanel.tsx:45 | a leading `www.` is dropped |
| StoreDetailPanel.DomainDropsInnerWww | components/store/StoreDetailPanel.tsx:45 | a `www.` after the first character is dropped too |
| JsonLd.EnvText | components/layout/JsonLd.tsx:15-85 | the variable's value, or the text `undefined` when it is unset |
| JsonLd.StreetAddress | components/layout/JsonLd.tsx:19 | the address up to its first comma, or the whole address when it has none |
| JsonLd.FindFiveDigits | components/layout/JsonLd.tsx:22 | the leftmost position from which five digits follow, none exactly when no such position exists |
| JsonLd.PostalCode | components/layout/JsonLd.tsx:22 | the first run of five digits, `''` exactly when there is none |
| JsonLd.PostalCodeIsFiveDigits | components/layout/JsonLd.tsx:22 | a postal code is empty or five digits |
| JsonLd.HouseNumberTakenForPostalCode | components/layout/JsonLd.tsx:22 | an address starting with a five-digit house number yields that number as postal code |
| JsonLd.Description | components/layout/JsonLd.tsx:14 | `cardDescription`, else `editorialSummary`, else `''` |
| JsonLd.OpeningHours | components/layout/JsonLd.tsx:30 | the `weekdayText` list when present (even empty), else `[]` |
| JsonLd.Rating | components/layout/JsonLd.tsx:32-38 | present exactly when the rating is present and not 0, copying rating and review count |
| JsonLd.StoreLd | components/layout/JsonLd.tsx:9-39 | no document exactly when the location is missing; otherwise every field from its derivation, the price range being the card's indicator |
| JsonLd.BlogLd | components/layout/JsonLd.tsx:60-88 | the image prefixed with the site address exactly when it is non-empty; the logo at `/logo.png` of the site |
| BlockPreview.Counted | sanity/schemas/blocks/callToAction.ts:168-171 | the count, the noun, and an `s` exactly when the count is not one |
| BlockPreview.Joined | sanity/schemas/blocks/callToAction.ts:121 | the two parts with ` • ` between them |
| BlockPreview.JoinedSplitsAtBullet | sanity/schemas/blocks/callToAction.ts:121 | splitting a joined preview at the bullet gives back the left part |
| BlockPreview.JoinedAsWritten | sanity/schemas/blocks/pullQuote.ts:94 | the two parts with the misdecoded five-character separator between them |
| BlockPreview.MisdecodedJoinLacksBullet | sanity/schemas/blocks/pullQuote.ts:94 | a preview joined with the misdecoded separator holds no bullet and differs from the joined one |
| CallToAction.ExactlyOneLinkFieldShown | sanity/schemas/blocks/callToAction.ts:55-94 | each of the four link types shows its own field and hides the other three |
| CallToAction.UnknownLinkTypeShowsNothing | sanity/schemas/blocks/callToAction.ts:55-94 | a missing or other link type hides every link field |
| CallToAction.ButtonPreview | sanity/schemas/blocks/callToAction.ts:118-123 | the text or `Untitled Button`; the link type or `no-link` and the style or `primary`, joined by the bullet |
| CallToAction.ButtonSubtitleLeadsWithLinkType | sanity/schemas/blocks/callToAction.ts:121 | the subtitle splits at the bullet back into the link type |
| CallToAction.BlockSummary | sanity/schemas/blocks/callToAction.ts:167-173 | the heading or `Call to Action`; the button count (0 without buttons) and the text or `No description` |
| EmbeddedMap.AtMostOneMapFieldShown | sanity/schemas/blocks/embeddedMap.ts:43-59 | whatever the map type, at most one of the three fields is shown |
| EmbeddedMap.FieldShownPerMapType | sanity/schemas/blocks/embeddedMap.ts:34-59 | `stores` (the initial type) and `custom` show the store list, `neighborhood` and `category` their reference |
| EmbeddedMap.Prepare | sanity/schemas/blocks/embeddedMap.ts:139-155 | the title or `Embedded Map`; `<type> map` followed by at most one bullet part: the store count for a `stores` map with a list, the neighbourhood, or the category, and none otherwise |
| PullQuote.QuoteTitle | sanity/schemas/blocks/pullQuote.ts:89-93 | quoted; a quote over 60 characters cut to 60 plus `...`; `No quote text` when falsy; never over 65 characters |
| PullQuote.Attribution | sanity/schemas/blocks/pullQuote.ts:90 | name and title joined by `, ` when both are set, else whichever is set, else `Anonymous`; never empty |
| PullQuote.SubtitleAsWritten | sanity/schemas/blocks/pullQuote.ts:94 | the attribution and the style or `large-center`, around the misdecoded separator |
| PullQuote.SubtitleAsWrittenLacksBullet | sanity/schemas/blocks/pullQuote.ts:94 | the subtitle as written shows no bullet and differs from the corrected one |
| PullQuote.Subtitle | sanity/schemas/blocks/pullQuote.ts:94 | the attribution and the style or `large-center`, around ` • ` |
| PullQuote.SubtitleSplitsAtBullet | sanity/schemas/blocks/pullQuote.ts:94 | the corrected subtitle splits at the bullet back into the attribution |
| PullQuote.QuotePreview | sanity/schemas/blocks/pullQuote.ts:88-96 | the quote title and the corrected subtitle |
| PullQuote.QuotePreviewAsWritten | sanity/schemas/blocks/pullQuote.ts:88-96 | the preview the block returns: the same title, the misdecoded subtitle, and so a preview different from the corrected one |
| ImageGallery.ItemPreview | sanity/schemas/blocks/imageGallery.ts:51-57 | the caption or `Untitled Image`, the alt text or `No alt text`, and the image |
| ImageGallery.ImageCount | sanity/schemas/blocks/imageGallery.ts:103 | the number of images, 0 without a list |
| ImageGallery.FirstImage | sanity/schemas/blocks/imageGallery.ts:107 | the first item's image exactly when there is a first item |
| ImageGallery.SubtitleAsWritten | sanity/schemas/blocks/imageGallery.ts:106 | the counted images and the layout or `grid-2`, around the misdecoded separator |
| ImageGallery.SubtitleAsWrittenLacksBullet | sanity/schemas/blocks/imageGallery.ts:106 | the subtitle as written shows no bullet and differs from the corrected one |
| ImageGallery.Subtitle | sanity/schemas/blocks/imageGallery.ts:106 | the counted images and the layout or `grid-2`, around ` • ` |
| ImageGallery.GalleryPreview | sanity/schemas/blocks/imageGallery.ts:102-109 | the title or `Image Gallery`, the corrected subtitle, and the first image |
| ImageGallery.GalleryPreviewAsWritten | sanity/schemas/blocks/imageGallery.ts:102-109 | the preview the block returns: the same title and image, the misdecoded subtitle, and so a preview different from the corrected one |
| StoreSpotlight.Preview | sanity/schemas/blocks/storeSpotlight.ts:67-73 | `Store Spotlight: ` and the store name or `Untitled`; the text or `No description`; the highlight image, else the store's |
| StoreSpotlight.CustomTitleNotPreviewed | sanity/schemas/blocks/storeSpotlight.ts:15-73 | setting a custom title leaves the preview unchanged |

## Left out

- Rendering: JSX markup, class strings other than the list card's `cardClasses`, badge variants, icons and layout are not modelled.
- The map library: maps, markers, popups and bounds are opaque handles. Their drawing, animation and the camera fit's geometry are not modelled. Only the calls the component makes, and whether each throws, are recorded.
- Asynchrony: the page's effects and fetches are modelled as method calls that complete in order. A second URL change arriving while an earlier load is pending, and the React effect dependencies that recreate the map, are not modelled.
- Fetches and repository writes are parameters (a fetched result, `null`, or a throw), so GROQ itself is not evaluated. `StoreService.Selected` is the meaning the where-clause is written to have.
- `getStoresByCity`, `getAllCategories`, `getAllNeighborhoods` and `getNeighborhoodsByCity` (lib/data/sanity-store-service.ts:128-337) are left out. They are fetch-and-log wrappers like the ones modelled, and their `localeCompare` ordering cannot be stated without a collation.
- Console output and the progress log of the scripts are left out, and so are reading `stores-export.json` and the environment check.
- Text.Lower: models `toLowerCase` for ASCII letters only. Other letters are left unchanged, which differs from JavaScript for non-ASCII text.
- Strings are sequences of characters. UTF-16 surrogate pairs, which JavaScript counts as two units in `length`, `substring` and `charCodeAt`, are not modelled.
- Numbers: coordinates and ratings are reals. Floating-point rounding and NaN, `toFixed(1)` for distances, and date parsing are not modelled.
- StoreService.GetAllBlogPosts: the newest-first order is a parameter (`sortByDate`), because `new Date(...)` parsing is not modelled.
- StoreDetailPanel.WebsiteDomain: host-name extraction by `new URL(...)` is a parameter. Only what the panel does with its result or its throw is modelled.
- Image URLs built by `urlFor(...).width(w).height(h).url()` are kept as the image with its requested size (`StoreCard.ImageSource`).
- `generateKey` (`Math.random`) is a key source passed in. The theorems hold for every key source, so they do not depend on the keys being random or distinct.
- The order of `Object.entries` is the order in which keys were first created. JavaScript lists integer-like keys first, and this is not modelled. Region names and labels are not integer-like in practice.
- Ranking.SortDesc: built by stable insertion, as the engine's stable `sort` is. Stability itself is not stated as a lemma, only the permutation, the order and the total.
- FixKeys.FixMissingKeys: description blocks are never `null`. In the script a `null` block (or a `null` child) makes the property read throw inside the `map` callback, outside the per-store `try`, so the outer `catch` ends the whole run; this is not modelled.
- The store spotlight's call-to-action text and its default `View on Map` (sanity/schemas/blocks/storeSpotlight.ts:38-43) are a schema default for the editor; the preview never selects the field, so it is not modelled.
- Autocomplete.AutocompleteInput.HandleOptionSelect: the final `inputRef.current?.focus()` (components/ui/AutocompleteInput.tsx:52) is left out, because focus is not modelled. It changes nothing observable here: Enter reaches the handler only while the input has focus, and a mouse press on an option is outside the input, so the document `mousedown` listener (lines 91-101) closes the list before the click can select.
- `createOrGetCity`, `createOrGetRegion` and `createOrGetNeighborhood` read or create documents in the repository. Only the ids they compute are modelled (`SanityImport.RegionId`, `SanityImport.NeighborhoodId`, `SanityImport.CategoryId`).

## Findings

| source | as written | input that shows it | evidently intended | confidence | as-written member | corrected member |
|---|---|---|---|---|---|---|
| sanity/schemas/blocks/pullQuote.ts:94 | the subtitle separator is the three characters U+00E2 U+20AC U+00A2 (the UTF-8 bytes of a bullet read as Windows-1252) | any pull quote, e.g. no name, no title, no style: the subtitle reads `Anonymous â€¢ large-center` | `Anonymous • large-center`, with the bullet the other blocks use | high, not executed | PullQuote.SubtitleAsWritten, PullQuote.SubtitleAsWrittenLacksBullet, PullQuote.QuotePreviewAsWritten | PullQuote.Subtitle, PullQuote.SubtitleSplitsAtBullet |
| sanity/schemas/blocks/imageGallery.ts:106 | the same misdecoded separator in the gallery subtitle | a gallery with no images and no layout: the subtitle reads `0 images â€¢ grid-2` | `0 images • grid-2` | high, not executed | ImageGallery.SubtitleAsWritten, ImageGallery.SubtitleAsWrittenLacksBullet, ImageGallery.GalleryPreviewAsWritten | ImageGallery.Subtitle |
