# euskoplan-client, modelled in Dafny

euskoplan is a tourism planner for the Basque Country. Its web client lets a
visitor search cultural and natural resources, filter them by category,
read their details, keep favourites and build plans, which are ordered
lists of steps shown on a map with a route between them. The repository
holds two front-ends over the same REST API: an Angular one (`src/app`)
and a Vue one with Pinia stores (`src/stores`, `src/utils`).

This project models the logic of both front-ends. Each source file becomes
one Dafny module in one file:

- **The resource map** (`ResourceMap`, over the engine state in `MapSurface`).
  - It builds the clustered layers only once the style has loaded and results are present.
  - It always tears down what it added before building again.
  - It keeps the one-shot keep-popup and fit-bounds flags.
  - It drives the selection and the popup card through hover, leave and click.
  - It switches the map style.
- **The plan map** (`PlanMap`).
  - It draws numbered markers and fits the bounds.
  - It requests the route for the current travel profile, and a newer request supersedes the older one.
  - It switches the style and reorders its list by drag and drop (`moveItemInArray` on an array).
- **The Pinia stores**: filters (`FilterStore`), favourites (`FavoritesStore`), plans and their steps (`PlanStore`), and the collections search with its cache (`CollectionsStore`).
- **The Angular services**: `PlansService` and `CollectionsService`, with whitelisted query parameters (`HttpParams`).
- **The URL matchers**: `ResourceRouting`, `PlanRouting` and `UserRouting`.
- **The pages and components**:
  - the filter form, `FormFilter`;
  - the resource list page, `ResourceListPage`;
  - the search results page, `SearchResultsPage`;
  - the landing header, `LandingPageHeader`;
  - the carousel, `Carousel`;
  - the favourites and add-to-plan buttons, `FavouritesButton` and `AddToPlanButton`;
  - the detail page, `ResourceDetailPage`.
- **The pure helpers**:
  - the image tables, `MarkerImages` and `DefaultImages`;
  - subtype derivation, `Subtype`;
  - the in-place `orderBy` sort, `OrderBy`;
  - string operations of the JavaScript runtime, `Common`.

The models take three forms:
- Components and stores that update fields are classes whose methods change those fields.
- Lookups and encoders are functions.
- Loops in the source are methods with loop invariants.

Some inputs are parameters of the model:
- Network answers are given as `Outcome` values, or as a server function where the source issues several requests.
- Timers appear as counters of pending polls.
- The great-circle formula and `toLocaleDateString` are parameters.

## Model

| member | source | states |
|---|---|---|
| Subtype.SubtypeOf | src/utils/subtype.ts:2-14 | a natural resource gets its first truthy natural-space or beach/reservoir/river subtype, else ""; a locality gets `Ciudad` exactly when its trimmed name is Bilbao, Vitoria-Gasteiz or San Sebastián, else `Pueblo`; anything else gets its truthy `nombre_subtipo_recurso`, else "" |
| Subtype.CaseInsensitive | src/utils/subtype.ts:3-9 | lower-casing the collection first changes nothing |
| Subtype.LabelComesFromRecord | src/utils/subtype.ts:2-14 | the label is "", `Ciudad`, `Pueblo` or one of the record's own subtype fields |
| Subtype.LocalityIgnoresPadding | src/utils/subtype.ts:11 | two locality names with the same trimmed text get the same label |
| UserRouting.PlanEditMatcher | src/app/modules/user/user-routing.module.ts:9-19 | matches exactly a three-segment URL whose third segment is all digits (the empty segment included) and binds that segment as `id` |
| UserRouting.FirstTwoIgnored | src/app/modules/user/user-routing.module.ts:10-19 | the first two segments never affect the match; a numeric third segment routes to the plan editor |
| UserRouting.UnmatchedRedirects | src/app/modules/user/user-routing.module.ts:21-48 | a URL that is none of the four fixed paths and fails the matcher redirects home |
| UserRouting.Resolve | src/app/modules/user/user-routing.module.ts:21-48 | the plan editor opens exactly for a three-segment URL with an all-digit third segment, bound as `id`; home is the answer exactly for URLs that are neither one of the four fixed paths nor such a URL |
| PlanRouting.DetailMatcher | src/app/modules/plan/plan-routing.module.ts:11-21 | matches exactly a one-segment URL whose segment is all digits (the empty one included) and binds it as `id` |
| PlanRouting.MatchersDisjoint | src/app/modules/plan/plan-routing.module.ts:6-21 | no URL satisfies both the list matcher and the detail matcher |
| PlanRouting.EmptyIdMatches | src/app/modules/plan/plan-routing.module.ts:11-13 | a single empty segment opens the plan page with the empty id |
| PlanRouting.OtherLengthsRedirect | src/app/modules/plan/plan-routing.module.ts:23-37 | every URL with other than one segment redirects home |
| PlanRouting.SingleSegment | src/app/modules/plan/plan-routing.module.ts:23-37 | a single segment opens the list for `list`, the plan for a digit string, and goes home otherwise |
| PlanRouting.ListMatcher | src/app/modules/plan/plan-routing.module.ts:6-8 | matches exactly the one-segment URL `list` |
| PlanRouting.Resolve | src/app/modules/plan/plan-routing.module.ts:23-37 | the list opens exactly for `list`, a plan exactly for a single all-digit segment, bound as `id`, and every other URL redirects home |
| MarkerImages.MarkerImageUrl | src/utils/map.ts:4-25 | a lower-cased collection name in the sixteen-key table gives its entry, any other gives the default marker; every result is `/images/map/<plural>-marker.png` |
| MarkerImages.CaseInsensitive | src/utils/map.ts:24 | a name and its lower-cased form give the same marker |
| MarkerImages.PairsShareAsset | src/utils/map.ts:6-21 | each Spanish category name and its English key, in any letter case, give the same non-default asset |
| DefaultImages.DefaultImageUrl | src/utils/image.ts:4-18 | a lower-cased name in the table gives its entry (the key `default` included), any other gives `/images/default/default-image.jpg` |
| DefaultImages.CollectionDefault | src/utils/image.ts:5-14 | each of the eight collections, in any letter case, gets `/images/default/default-<collection>.jpg` |
| DefaultImages.CaseInsensitive | src/utils/image.ts:17 | a name and its lower-cased form give the same image |
| DefaultImages.InitialImageUrl | src/utils/image.ts:27-33 | the first image's truthy `fuente` when there is one, else the collection default |
| DefaultImages.LoadedStaysLoaded | src/utils/image.ts:35-42 | once loaded, no sequence of callbacks makes the image unloaded again |
| DefaultImages.UrlIsKnown | src/utils/image.ts:24-42 | from a known URL, every sequence of callbacks leaves the URL empty, the initial choice or the collection default |
| DefaultImages.ErrorShowsDefault | src/utils/image.ts:35-42 | an error shows the default and counts as loaded; a load leaves the URL unchanged |
| DefaultImages.ImageHandler.constructor | src/utils/image.ts:23-25 | the URL starts empty and the image not loaded |
| DefaultImages.ImageHandler.SetInitial | src/utils/image.ts:27-33 | the URL becomes the initial choice; the loaded flag is kept |
| DefaultImages.ImageHandler.OnImageLoad | src/utils/image.ts:35-37 | only the loaded flag changes, to true |
| DefaultImages.ImageHandler.OnImageError | src/utils/image.ts:39-42 | the URL becomes the collection default and the image counts as loaded |
| OrderBy.Compare | src/app/shared/pipes/order-by.pipe.ts:8-28 | the comparator answers -1, 0 or 1; -1 exactly when the first key is `<` the second (objects compared as `[object Object]`, `undefined` and mixed kinds never `<`); equal keys give 0; a key `undefined` against a defined one gives 1 |
| OrderBy.LessOrder | src/app/shared/pipes/order-by.pipe.ts:10-14 | on two numbers or two strings, `<` is irreflexive, asymmetric and total |
| OrderBy.NotLessTransitive | src/app/shared/pipes/order-by.pipe.ts:10-14 | on numbers or on strings, "not smaller" is transitive, so a sorted order exists |
| OrderBy.CompareAgrees | src/app/shared/pipes/order-by.pipe.ts:10-16 | on two numbers or two strings the comparator is negative, zero or positive exactly when the first key is smaller, equal or larger |
| OrderBy.DistinctObjectsUnordered | src/app/shared/pipes/order-by.pipe.ts:19-26 | two different objects compare as 1 in both orders, so the comparator is not consistent on objects |
| OrderBy.Reversed | src/app/shared/pipes/order-by.pipe.ts:29 | reversal keeps the length |
| OrderBy.ReversedAt | src/app/shared/pipes/order-by.pipe.ts:29 | the k-th element of the reversal is the k-th from the end |
| OrderBy.ReversedDescending | src/app/shared/pipes/order-by.pipe.ts:29 | reversing an ascending list keeps its elements and their kind of key and makes it descending |
| OrderBy.ReversedMultiset | src/app/shared/pipes/order-by.pipe.ts:29 | reversal is a permutation |
| OrderBy.Swap | src/app/shared/pipes/order-by.pipe.ts:8 | exchanges two neighbours and nothing else |
| OrderBy.Insert | src/app/shared/pipes/order-by.pipe.ts:8-28 | one insertion pass keeps the elements and, when every key is a number or every key is a string, extends the sorted prefix by one |
| OrderBy.SortInPlace | src/app/shared/pipes/order-by.pipe.ts:8-28 | `array.sort` with the pipe's comparator leaves a permutation of the array; when every key is a number, or every key is a string, the keys stay of that kind and the array is ascending by `<` |
| OrderBy.ReverseInPlace | src/app/shared/pipes/order-by.pipe.ts:29 | `reverse()` leaves exactly the reversal of the array |
| OrderBy.Transform | src/app/shared/pipes/order-by.pipe.ts:7-30 | the same array comes back, a permutation of its elements; when every key is a number or every key is a string it is ascending for `asc` and descending for any other direction |
| OrderBy.AscendingMeans | src/app/shared/pipes/order-by.pipe.ts:8-28 | an ascending list of numbers is ordered by `<=`; an ascending list of strings has each key equal to or before every later key in code-unit order |
| ResourceRouting.ListMatcher | src/app/modules/resource/resource-routing.module.ts:6-18 | as written: a match exactly for the one-segment `accommodations` URL or any URL starting with another plural name; the empty URL throws |
| ResourceRouting.DetailMatcher | src/app/modules/resource/resource-routing.module.ts:20-40 | as written: a match consumes the URL and binds its second segment; the empty URL and a bare singular name throw |
| ResourceRouting.AccommodationsListOnlyAlone | src/app/modules/resource/resource-routing.module.ts:7-8 | `accommodations` opens the list only as the whole URL |
| ResourceRouting.PluralsIgnoreLength | src/app/modules/resource/resource-routing.module.ts:9-16 | the other plural names open the list whatever follows them |
| ResourceRouting.DetailMatchTakesSecondSegment | src/app/modules/resource/resource-routing.module.ts:33-38 | a detail match binds the second segment as `id` |
| ResourceRouting.RestaurantNeedsDigits | src/app/modules/resource/resource-routing.module.ts:31-32 | a restaurant URL of two or more segments matches exactly when its code is all digits, and never throws |
| ResourceRouting.AccommodationDetailLength | src/app/modules/resource/resource-routing.module.ts:22-23 | the accommodation detail URL needs exactly two segments and no digit test |
| ResourceRouting.ListMatcherIntended | src/app/modules/resource/resource-routing.module.ts:6-18 | corrected: a match exactly for a one-segment URL naming a plural; never throws |
| ResourceRouting.DetailMatcherIntended | src/app/modules/resource/resource-routing.module.ts:20-40 | corrected: a match exactly for two segments, a singular name and an all-digit code; never throws |
| ResourceRouting.ResolveIntended | src/app/modules/resource/resource-routing.module.ts:42-56 | corrected table: no navigation error; a detail page only for two segments with a numeric id, the list only for one segment |
| ResourceRouting.PrecedenceCounterexamples | src/app/modules/resource/resource-routing.module.ts:7-32 | as written, `caves/x/y` opens the list, `cave/abc` opens a detail page, and `cave` and the empty URL throw; corrected, the first two go home |
| ResourceRouting.IntendedAgreesOnWellFormed | src/app/modules/resource/resource-routing.module.ts:42-56 | both readings route every well-formed URL the same way |
| ResourceRouting.Resolve | src/app/modules/resource/resource-routing.module.ts:42-56 | as written: an empty URL is a navigation error; the list opens exactly for the URL `accommodations` alone or a URL starting with another plural name; a detail page takes the second segment of a URL of two or more segments |
| PlansService.FilteringAsWritten | src/app/shared/services/plans.service.ts:20-29 | as written: the request goes to `<api>/plan` with the truthy `idioma`, `titulo`, `descripcion`, `id_usuario` in that order and then a truthy `limite` under the name `idioma`; no `limite` key is ever sent |
| PlansService.LimitSentAsLanguage | src/app/shared/services/plans.service.ts:26 | for `{idioma: es, limite: 5}` the request as written sends `idioma=es&idioma=5`, the corrected one `idioma=es&limite=5` |
| PlansService.Filtering | src/app/shared/services/plans.service.ts:20-29 | corrected: the same chain with the limit sent as `limite`; a truthy `limite` is sent, and only with its own value |
| PlansService.ForwardedLimit | src/app/shared/services/plans.service.ts:26 | under the corrected rules a `limite` parameter goes out exactly from a truthy `query.limite` |
| PlansService.Searching | src/app/shared/services/plans.service.ts:31-36 | the request goes to `<api>/plan/results/search` with only the truthy `idioma` and `busqueda` |
| PlansService.RouteUrl | src/app/shared/services/plans.service.ts:80-82 | the route URL is `<api>/plan/<id>/route/<profile>` |
| PlansService.StepUrl | src/app/shared/services/plans.service.ts:67-73 | the step URL is `<api>/step/<planId>`, for creating and for updating a step; `StepUrlIdentifies` reads the plan back from it |
| PlansService.StepUrlIdentifies | src/app/shared/services/plans.service.ts:67-73 | two plans share a step URL only when they are the same plan |
| PlansService.RouteUrlDistinguishes | src/app/shared/services/plans.service.ts:80-82 | different plans or profiles never share a route URL |
| HttpParams.Same | src/app/shared/services/collections.service.ts:32-41 | the rules that read and send the same names, one per key, in order |
| HttpParams.BuildParams | src/app/shared/services/collections.service.ts:32-41 | the chain of conditional `params.append` calls yields exactly the forwarded parameters in rule order |
| HttpParams.ForwardedExactly | src/app/shared/services/collections.service.ts:32-41 | a parameter is sent exactly when some rule reads a truthy value and sends it under that name |
| HttpParams.ForwardedLength | src/app/shared/services/collections.service.ts:32-41 | at most one parameter per rule; with every key truthy, one per rule and in rule order |
| HttpParams.Forwarded | src/app/shared/services/collections.service.ts:32-41 | a chain of rules appends at most one parameter per rule |
| HttpParams.UnlistedNotSent | src/app/shared/services/plans.service.ts:20-29 | a name that no rule sends never appears among the parameters |
| CollectionsService.PathNameInjective | src/app/shared/services/collections.service.ts:42-310 | no two collections share an API path segment |
| CollectionsService.Filtering | src/app/shared/services/collections.service.ts:32-46 | `get<C>sFiltering` requests `<api>/<c>/results/filter` and sends exactly the truthy keys of that collection's whitelist, each under its own name and in whitelist order |
| CollectionsService.Searching | src/app/shared/services/collections.service.ts:48-53 | `get<C>sSearching` requests `<api>/<c>/results/search` with exactly the truthy `idioma` and `busqueda` |
| CollectionsService.SameForwarded | src/app/shared/services/collections.service.ts:32-41 | with identical read and sent names, a parameter goes out exactly for a listed key with a truthy value |
| CollectionsService.DetailUrl | src/app/shared/services/collections.service.ts:55-57 | the detail URL is `<api>/<c>/result/<code>/<lang>`, and `<api>/locality/<code>/<lang>` for localities (lines 212-214); `DetailUrlIdentifies` reads collection, code and language back from it |
| CollectionsService.DetailUrlIdentifies | src/app/shared/services/collections.service.ts:55-57 | two detail URLs are equal only for the same collection, code and language (localities included, lines 212-214) |
| CollectionsService.CategoriesUrl | src/app/shared/services/collections.service.ts:59-61 | a categories URL `<api>/<c>/categories/<lang>` exists exactly for the collections other than fairs and localities; `CategoriesUrlIdentifies` reads collection and language back from it |
| CollectionsService.CategoriesUrlIdentifies | src/app/shared/services/collections.service.ts:59-61 | two categories URLs are equal only for the same collection and language |
| CollectionsService.LocalityNames | src/app/shared/services/collections.service.ts:216-220 | `getLocalityNames` requests `<api>/locality/names` with only a truthy `idioma` |
| CollectionsService.DatesOnlyForEvents | src/app/shared/services/collections.service.ts:137-138 | only events forward `fecha_inicio` and `fecha_fin` |
| CollectionsService.SubtypeKeys | src/app/shared/services/collections.service.ts:164-172 | fairs, localities and naturals do not forward `nombre_subtipo_recurso`; only naturals forward their two subtype keys (lines 261-262) |
| CollectionsService.MunicipalityKey | src/app/shared/services/collections.service.ts:191-198 | only localities leave out `nombre_municipio` |
| CollectionsService.FilterKeysShape | src/app/shared/services/collections.service.ts:32-41 | every whitelist starts with `idioma` and ends with `aleatorio`, `limite` |
| CollectionsService.FilterKeys | src/app/shared/services/collections.service.ts:32-41 | no `*Filtering` method appends the same key twice |
| FilterStore.InitialKeysShape | src/stores/filter.ts:28-39 | the persisted category slots start with six distinct keys, none of them `natural` |
| FilterStore.Cleared | src/stores/filter.ts:160-171 | the cleared slots keep every key, in order, each set to null |
| FilterStore.CountSet | src/stores/filter.ts:56-58 | the number of truthy slots never exceeds the number of slots |
| FilterStore.CountCleared | src/stores/filter.ts:155-171 | cleared slots contribute nothing to the filter count |
| FilterStore.CountBound | src/stores/filter.ts:42-61 | the filter count is at most five plus the number of slots, so at most eleven for the store's six collections |
| FilterStore.Store.constructor | src/stores/filter.ts:7-40 | the initial store has no localities, all slots cleared, unique slot keys and a filter count of zero |
| FilterStore.ClearedInitial | src/stores/filter.ts:7-173 | the six initial keys, cleared, have unique keys, no `natural` slot among them and a filter count of zero |
| FilterStore.Store.FilterCount | src/stores/filter.ts:42-61 | the counting loop yields one per truthy province, locality, start and end date, one per truthy collection slot and one when either natural subtype is set |
| FilterStore.Store.FetchLocalities | src/stores/filter.ts:64-72 | a response becomes both the full and the filtered locality list; an error leaves the whole store as it was |
| FilterStore.Store.FetchCategories | src/stores/filter.ts:93-140 | each category list takes its response only when it and every earlier request in the chain succeeded, otherwise keeps its previous value |
| FilterStore.Store.FilterLocalitiesByProvince | src/stores/filter.ts:73-83 | the province is stored; a truthy one keeps exactly the localities of that province and clears the locality, a falsy one restores the full list and keeps the locality |
| FilterStore.Store.SetSelectedLocality | src/stores/filter.ts:84-86 | the locality becomes the argument |
| FilterStore.Store.SetStartDate | src/stores/filter.ts:87-89 | the start date becomes the argument |
| FilterStore.Store.SetEndDate | src/stores/filter.ts:90-92 | the end date becomes the argument |
| FilterStore.Store.SetSelectedCategory | src/stores/filter.ts:141-154 | the slots change as `NaturalChoice` says and keep unique keys never named `natural` |
| FilterStore.Store.ClearFilters | src/stores/filter.ts:155-173 | every selection is null again and the filter count is zero; localities and categories are kept |
| FilterStore.OfProvince | src/stores/filter.ts:76-78 | a locality is kept exactly when it is in the list and belongs to the province |
| FilterStore.OfProvinceAppend | src/stores/filter.ts:76-78 | filtering by province distributes over concatenation, so the original order is kept |
| FilterStore.NaturalExclusive | src/stores/filter.ts:142-152 | from a state where the two natural subtype slots are not both set, they are never both set after a choice; a natural choice leaves the other slots alone, and any other collection leaves the natural slots alone |
| FilterStore.NaturalChoice | src/stores/filter.ts:141-154 | a natural choice keeps the other slots and any other choice keeps both natural slots; a natural slot that changes to a value takes the chosen category, which belongs to that slot's catalogue |
| FavoritesStore.IsFavorite | src/stores/favorites.ts:97-105 | true exactly when some item of some category has the resource's id and collection |
| FavoritesStore.FirstItem | src/stores/favorites.ts:121-125 | `items.find`: absent exactly when no item matches, otherwise the first matching position |
| FavoritesStore.FirstCategory | src/stores/favorites.ts:111-118 | `Object.entries(...).find`: the first category holding a match, absent exactly when none does |
| FavoritesStore.GetFavoriteIdNullIff | src/stores/favorites.ts:97-129 | `getFavoriteId` returns null exactly when `isFavorite` is false |
| FavoritesStore.GetFavoriteIdIsFirst | src/stores/favorites.ts:107-129 | a returned id belongs to a matching item with no match in an earlier category and no earlier match in its own category |
| FavoritesStore.GetFavoriteId | src/stores/favorites.ts:107-129 | a returned id is the id of some favourite item with the resource's id and collection |
| FavoritesStore.EmptyHasNone | src/stores/favorites.ts:27-30 | the initial empty favourites hold no favourite and no favourite id |
| FavoritesStore.Store.constructor | src/stores/favorites.ts:27-30 | the store starts with no favourites and not loading |
| FavoritesStore.Store.FetchFavorites | src/stores/favorites.ts:32-46 | the favourites become `favoritos`, or empty when it is absent; an error keeps the old ones; loading always ends false |
| FavoritesStore.Store.RequestSettled | src/stores/favorites.ts:48-95 | after an add or a remove, only a 202 status refetches the favourites; any other status or an error leaves the state unchanged |
| FavoritesStore.Store.ClearFavorites | src/stores/favorites.ts:131-133 | afterwards no resource is a favourite |
| PlanStore.PlanObj.constructor | src/stores/plan.ts:12-13 | a plan object carries its id and its vote count |
| PlanStore.FirstIndex | src/stores/plan.ts:73 | `findIndex`: absent exactly when no element has the id, otherwise the first element that has it |
| PlanStore.Without | src/stores/plan.ts:89 | `filter(x => x.id !== id)`: keeps exactly the elements with another id |
| PlanStore.WithoutAppend | src/stores/plan.ts:89 | filtering distributes over concatenation, so the remaining plans keep their order |
| PlanStore.WithoutIdempotent | src/stores/plan.ts:85-95 | deleting the same id twice removes nothing more |
| PlanStore.WithoutAbsent | src/stores/plan.ts:85-95 | deleting an id no plan has leaves the list unchanged |
| PlanStore.Store.constructor | src/stores/plan.ts:11-16 | the store starts with no plans, no user plans, no current plan and not loading |
| PlanStore.Store.FetchPlans | src/stores/plan.ts:19-29 | the plans become the response; an error keeps them; loading ends false |
| PlanStore.Store.FetchUserPlans | src/stores/plan.ts:31-41 | the user's plans become the response; an error keeps them; loading ends false |
| PlanStore.Store.FetchPlanById | src/stores/plan.ts:43-53 | the current plan becomes the response; an error keeps it; loading ends false |
| PlanStore.Store.CreatePlan | src/stores/plan.ts:55-67 | the created plan is appended to both the plans and the user plans and returned; an error changes neither and returns nothing |
| PlanStore.Store.UpdatePlan | src/stores/plan.ts:69-83 | only the first plan with the id is replaced by the response; the number of plans never changes |
| PlanStore.Store.DeletePlan | src/stores/plan.ts:85-95 | after a successful delete no plan has the id and the rest keep their order |
| PlanStore.Store.Vote | src/stores/plan.ts:97-119 | an up- or downvote changes the votes of the first plan with the id by one and no other plan's votes; nothing else changes |
| PlanStore.Store.CreateStep | src/stores/plan.ts:121-133 | the new step is appended only when the current plan has that id and has steps |
| PlanStore.Store.UpdateStep | src/stores/plan.ts:135-150 | the first step with the id is replaced, whatever the current plan's id; otherwise nothing changes |
| PlanStore.Store.DeleteStep | src/stores/plan.ts:152-164 | every step with the id goes, only when the current plan has the plan id |
| PlanStore.CreateThenUpvote | src/stores/plan.ts:55-107 | a plan created and then upvoted shows the extra vote through the user plans too, since both lists hold the same object |
| CollectionsStore.CollectionOf | src/stores/collections.ts:74-111 | a category name selects a collection exactly when its lower-cased form is one of the eight Spanish names, and then the collection that name maps to |
| CollectionsStore.NamedCategory | src/stores/collections.ts:74-106 | each of the eight names, in any letter case, selects its own collection |
| CollectionsStore.CaseInsensitive | src/stores/collections.ts:74 | lower-casing a category name first does not change the collection it selects |
| CollectionsStore.CollectionOfInjective | src/stores/collections.ts:74-106 | two names that select the same collection are the same name up to letter case |
| CollectionsStore.TableInjective | src/stores/collections.ts:75-105 | no two names of the table map to the same collection |
| CollectionsStore.FilterParams | src/stores/collections.ts:71-77 | the filter request sends every filter unchanged, plus `idioma` defaulting to `es` when the filters do not set it |
| CollectionsStore.PerformSearch | src/stores/collections.ts:125-138 | a search gives the server's rows, or `[]` when the request fails |
| CollectionsStore.ConcatSearchAppend | src/stores/collections.ts:233-242 | the spread of several collections' searches distributes over concatenation of the collection lists |
| CollectionsStore.ConcatSearchAt | src/stores/collections.ts:233-242 | each collection's rows sit between those of the collections before and after it |
| CollectionsStore.AllResultsBlocks | src/stores/collections.ts:200-242 | the all-collections results are the eight searches in the order accommodation, cave, cultural, event, fair, museum, natural, restaurant |
| CollectionsStore.AllResultsHas | src/stores/collections.ts:200-242 | a row is among the all-collections results exactly when one of the eight collection searches returned it |
| CollectionsStore.CategoryResults | src/stores/collections.ts:281-334 | a search in a category outside the table gives `[]`, otherwise exactly that collection's search |
| CollectionsStore.Store.constructor | src/stores/collections.ts:11-29 | the store starts empty, with empty caches that are sound for every server |
| CollectionsStore.Store.FilterResultsByCategory | src/stores/collections.ts:52-123 | a falsy category empties the results; a cached key answers from the cache; an unknown name gives `[]`; otherwise the server's answer becomes the results and is cached, an error keeping the old results; cached entries always equal the server's answer |
| CollectionsStore.Store.SearchInCategory | src/stores/collections.ts:252-344 | a falsy category empties the results; otherwise the results are the intended search for that category, from the cache or fresh, and for a search that no newer search overtakes, every cache entry stays equal to a fresh search |
| CollectionsStore.Store.SearchAllCollections | src/stores/collections.ts:173-250 | as written: a key without the category found in the cache gives the all-collections results even when a category is selected |
| CollectionsStore.Store.SearchAllCollectionsIntended | src/stores/collections.ts:173-250 | with the all-collections cache consulted only without a selected category, every search gives the intended results |
| CollectionsStore.Store.SearchEveryCollection | src/stores/collections.ts:200-245 | the results are the eight collections' searches concatenated in request order, stored under the key of query and language alone; for a search that no newer search overtakes, every cache entry stays equal to a fresh search |
| CollectionsStore.Store.SearchOneCollection | src/stores/collections.ts:276-337 | the results are the search of the category's collection, or empty for a category outside the table, stored under the key of category, query and language; for a search that no newer search overtakes, every cache entry stays equal to a fresh search |
| CollectionsStore.Store.SetSelectedCategory | src/stores/collections.ts:355-357 | a falsy category is stored as the empty string, any other as given |
| CollectionsStore.StaleDiffers | src/stores/collections.ts:197-242 | with `Eventos` selected, the all-collections results differ from the events results |
| CollectionsStore.StaleSearchScenario | src/stores/collections.ts:173-357 | a search without a category, then `Eventos` selected and the same search again, leaves results other than the events search |
| CollectionsStore.SearchTwice | src/stores/collections.ts:173-357 | an uncategorised search, then any category selected and the same search again, ends with that category selected and the all-collections results |
| FormFilter.Tagged | src/app/modules/resource/components/form-filter/form-filter.component.ts:84-99 | each category name becomes a `{name, subtype}` item with the given subtype key, in order |
| FormFilter.CategoryItems | src/app/modules/resource/components/form-filter/form-filter.component.ts:82-100 | for naturals, the first-subtype rows then the second-subtype rows, each tagged with its own key; for any other collection the plain rows tagged `nombre_subtipo_recurso` |
| FormFilter.SelectionCount | src/app/modules/resource/components/form-filter/form-filter.component.ts:178-186 | at most five selections are counted |
| FormFilter.Submitted | src/app/modules/resource/components/form-filter/form-filter.component.ts:163-172 | the emitted object carries the category, locality and province unchanged, null when absent, and a date exactly when the control holds one |
| FormFilter.EmptyFormSubmitsNulls | src/app/modules/resource/components/form-filter/form-filter.component.ts:157-172 | a reset form emits all five fields as null |
| FormFilter.Panel.constructor | src/app/modules/resource/components/form-filter/form-filter.component.ts:25-46 | the panel starts closed, with nothing selected and both lists loading |
| FormFilter.Panel.InitCategories | src/app/modules/resource/components/form-filter/form-filter.component.ts:50-136 | the form starts empty; a collection without a categories request stops loading at once, the seven others start from an empty list |
| FormFilter.Panel.CategoriesArrived | src/app/modules/resource/components/form-filter/form-filter.component.ts:79-103 | the response's items are appended to the categories, an error adds nothing, and loading stops either way |
| FormFilter.Panel.LocalitiesArrived | src/app/modules/resource/components/form-filter/form-filter.component.ts:58-71 | the locality names are appended, an error adds nothing, and loading stops either way |
| FormFilter.Panel.ShowHideModal | src/app/modules/resource/components/form-filter/form-filter.component.ts:138-140 | the panel's visibility flips |
| FormFilter.Panel.Clear | src/app/modules/resource/components/form-filter/form-filter.component.ts:142-155 | `all` nulls all five selections, a field name nulls that one only, any other value changes nothing |
| FormFilter.Panel.Submit | src/app/modules/resource/components/form-filter/form-filter.component.ts:163-176 | the panel closes and exactly one object, the form's data, is emitted |
| FormFilter.Panel.ResetForm | src/app/modules/resource/components/form-filter/form-filter.component.ts:157-161 | all selections and the form are cleared, the panel closes and all-null data is emitted; the lists and both loading flags are kept, and nothing else changes |
| FormFilter.Panel.GetFilterCount | src/app/modules/resource/components/form-filter/form-filter.component.ts:178-186 | the badge is one digit from 0 to 5 whose value is the number of set selections |
| ResourceListPage.RouteCollection | src/app/modules/resource/pages/resource-list-page/resource-list-page.component.ts:49-80 | a route name selects a collection only when it is that collection's plural route name |
| ResourceListPage.RouteNamesCover | src/app/modules/resource/pages/resource-list-page/resource-list-page.component.ts:51-78 | each of the nine collections' route names selects that collection |
| ResourceListPage.BuildQuery | src/app/modules/resource/pages/resource-list-page/resource-list-page.component.ts:89-95 | the query holds `idioma` and exactly one key per present input: the category's own subtype key with its name, `nombre_municipio`, `nombre_provincia` and the truthy dates, each with its value |
| ResourceListPage.CategoryReachesApi | src/app/modules/resource/pages/resource-list-page/resource-list-page.component.ts:91 | a chosen category reaches the API exactly when its subtype key is on the collection's whitelist (with `src/app/shared/services/collections.service.ts` lines 32-41) |
| ResourceListPage.Page.constructor | src/app/modules/resource/pages/resource-list-page/resource-list-page.component.ts:14-43 | on init a known collection subscribes to its filtering request with `idioma=es`, and the spinner is on |
| ResourceListPage.Page.SetCollectionObservable | src/app/modules/resource/pages/resource-list-page/resource-list-page.component.ts:49-80 | a known collection takes the new query; an unknown one keeps the old request |
| ResourceListPage.Page.Submit | src/app/modules/resource/pages/resource-list-page/resource-list-page.component.ts:82-109 | as written: dropping a pending subscription runs its `finalize` after the spinner was switched on, so the spinner ends off after a submission during a pending request |
| ResourceListPage.Page.SubmitIntended | src/app/modules/resource/pages/resource-list-page/resource-list-page.component.ts:82-109 | with the spinner switched on after the old subscription is dropped, it is on exactly while the new request is pending |
| ResourceListPage.Page.Settled | src/app/modules/resource/pages/resource-list-page/resource-list-page.component.ts:34-108 | a response's rows are shown, an error keeps the old ones, and the spinner stops on either |
| ResourceListPage.Page.Destroy | src/app/modules/resource/pages/resource-list-page/resource-list-page.component.ts:45-47 | nothing is pending afterwards, and the spinner is switched off if a request was pending |
| ResourceListPage.ResubmitScenario | src/app/modules/resource/pages/resource-list-page/resource-list-page.component.ts:97-108 | a submission while the previous request is pending leaves a request pending with the spinner off |
| SearchResultsPage.Decode | src/app/modules/landing/pages/search-results-page/search-results-page.component.ts:91 | splitting `q` on `+` and joining with spaces replaces every `+` by a space |
| SearchResultsPage.Encode | src/app/modules/landing/pages/search-results-page/search-results-page.component.ts:112-120 | the search box sends the empty string for blank input, otherwise the trimmed input with every space replaced by `+` |
| SearchResultsPage.RoundTrip | src/app/modules/landing/pages/search-results-page/search-results-page.component.ts:91-120 | decoding what the search box sends gives back the trimmed input, for any input without `+` |
| SearchResultsPage.TrimKeepsOut | src/app/modules/landing/pages/search-results-page/search-results-page.component.ts:114 | trimming introduces no character that the input lacks |
| SearchResultsPage.SearchQuery | src/app/modules/landing/pages/search-results-page/search-results-page.component.ts:92-96 | the query record holds the language under `idioma` and the search text under `titulo`, `indicaciones_pasos` and `busqueda`, and nothing else |
| SearchResultsPage.SearchSendsTextAndLanguage | src/app/modules/landing/pages/search-results-page/search-results-page.component.ts:92-109 | of that record, the plans search and every collection search send exactly a non-empty language as `idioma` and then a non-empty text as `busqueda`; `titulo` and `indicaciones_pasos` are never sent (with `src/app/shared/services/plans.service.ts` lines 31-36) |
| SearchResultsPage.Merged | src/app/modules/landing/pages/search-results-page/search-results-page.component.ts:54-63 | merging answers into the record keeps its keys unique |
| SearchResultsPage.MergedKeys | src/app/modules/landing/pages/search-results-page/search-results-page.component.ts:54-63 | after merging, the labels are the old ones plus exactly those of the non-empty answers |
| SearchResultsPage.MergedValue | src/app/modules/landing/pages/search-results-page/search-results-page.component.ts:54-63 | with distinct labels, a non-empty answer is what its label holds |
| SearchResultsPage.MergedKeepsOld | src/app/modules/landing/pages/search-results-page/search-results-page.component.ts:54-63 | a label whose answers are all empty keeps what it held before |
| SearchResultsPage.LabelsDistinct | src/app/modules/landing/pages/search-results-page/search-results-page.component.ts:54-63 | the ten tab labels are pairwise different |
| SearchResultsPage.LabelSig | src/app/modules/landing/pages/search-results-page/search-results-page.component.ts:54-63 | each label has the length and first letter that tell it apart |
| SearchResultsPage.InsertLabel | src/app/modules/landing/pages/search-results-page/search-results-page.component.ts:67 | inserting a label adds exactly that label |
| SearchResultsPage.InsertLabelAscending | src/app/modules/landing/pages/search-results-page/search-results-page.component.ts:67 | inserting into an ascending list of labels keeps it ascending |
| SearchResultsPage.SortLabels | src/app/modules/landing/pages/search-results-page/search-results-page.component.ts:67 | sorting keeps the number of tabs |
| SearchResultsPage.SortLabelsSorted | src/app/modules/landing/pages/search-results-page/search-results-page.component.ts:67 | the sorted tabs are a permutation of the labels, ascending under the string `<` |
| SearchResultsPage.Page.constructor | src/app/modules/landing/pages/search-results-page/search-results-page.component.ts:18-24 | the page starts loading with no results, no tabs and no active tab |
| SearchResultsPage.Page.QueryParamsChanged | src/app/modules/landing/pages/search-results-page/search-results-page.component.ts:43-97 | a missing or empty `q` starts nothing; otherwise loading starts and the decoded text is searched, always in Spanish (`es`, line 48) |
| SearchResultsPage.Page.ResultsArrived | src/app/modules/landing/pages/search-results-page/search-results-page.component.ts:48-75 | each non-empty answer fills its label; once any label exists the tabs are the sorted labels, the first is active and shows its list; an error changes nothing; loading stops either way |
| SearchResultsPage.Page.MergeAnswers | src/app/modules/landing/pages/search-results-page/search-results-page.component.ts:54-63 | the record becomes the old one with each non-empty answer, in request order, stored under its label; keys stay unique |
| SearchResultsPage.Page.ShowFirstTab | src/app/modules/landing/pages/search-results-page/search-results-page.component.ts:65-71 | the tabs are the sorted labels of the record and the first of them is active, showing its list |
| SearchResultsPage.Page.TabClick | src/app/modules/landing/pages/search-results-page/search-results-page.component.ts:84-88 | a label among the tabs becomes active and shows its list; any other name clears the active tab and fails |
| SearchResultsPage.FirstTabIsLeast | src/app/modules/landing/pages/search-results-page/search-results-page.component.ts:65-71 | the active tab is the least label under the string `<` |
| SearchResultsPage.KeyOrderHas | src/app/modules/landing/pages/search-results-page/search-results-page.component.ts:66 | every key of the record is among `Object.keys` |
| SearchResultsPage.StaleLabelPersists | src/app/modules/landing/pages/search-results-page/search-results-page.component.ts:18-63 | within one page instance, a label filled by an earlier query keeps its old rows when the new answer for it is empty, since nothing clears the record; the app never reaches this, because `shouldReuseRoute` returns false (line 34) and every navigation builds a new page |
| SearchResultsPage.AnswerUnderLabel | src/app/modules/landing/pages/search-results-page/search-results-page.component.ts:54-63 | each non-empty answer is shown under its own label |
| LandingPageHeader.GuardNeverHolds | src/app/modules/landing/components/landing-page-header/landing-page-header.component.ts:23 | `!stored == null` is false for every stored value, so its branch is dead |
| LandingPageHeader.Placeholder | src/app/modules/landing/components/landing-page-header/landing-page-header.component.ts:31-35 | the placeholder is Spanish exactly when the language is `es`, and Basque otherwise, null included |
| LandingPageHeader.Header.constructor | src/app/modules/landing/components/landing-page-header/landing-page-header.component.ts:15-19 | the header starts with an empty placeholder and no language |
| LandingPageHeader.Header.Init | src/app/modules/landing/components/landing-page-header/landing-page-header.component.ts:21-37 | as written: the language is the stored one even when nothing is stored, the placeholder follows it and it is handed to the translation service |
| LandingPageHeader.Header.InitIntended | src/app/modules/landing/components/landing-page-header/landing-page-header.component.ts:21-37 | with the guard the branch was written for, a missing language becomes Spanish and is stored, so a language is always handed on |
| LandingPageHeader.NoStoredLangScenario | src/app/modules/landing/components/landing-page-header/landing-page-header.component.ts:21-37 | with nothing stored the header shows the Basque placeholder and hands on no language |
| LandingPageHeader.SubmitQuery | src/app/modules/landing/components/landing-page-header/landing-page-header.component.ts:49-58 | a never-filled box fails; blank input navigates with `q` empty; otherwise `q` is the trimmed input with spaces replaced by `+` |
| LandingPageHeader.HeaderRoundTrip | src/app/modules/landing/components/landing-page-header/landing-page-header.component.ts:49-58 | the search page decodes the header's `q` back to the trimmed input, for any input without `+` (with `src/app/modules/landing/pages/search-results-page/search-results-page.component.ts` line 91) |
| Carousel.ItemList.constructor | src/app/modules/landing/components/carousel/carousel.component.ts:22 | the bound array holds the given items |
| Carousel.TypeTable | src/app/modules/landing/components/carousel/carousel.component.ts:80-121 | a carousel type has a row exactly when it is one of the eight case names, and then the row of that case |
| Carousel.RowShapes | src/app/modules/landing/components/carousel/carousel.component.ts:80-121 | each plural is its collection name plus `s`, and every generic image but the caves' is named after its collection |
| Carousel.CaveImage | src/app/modules/landing/components/carousel/carousel.component.ts:116-120 | the caves' carousel asks for the misspelt `gereic-cave.jpg` |
| Carousel.Carousel.constructor | src/app/modules/landing/components/carousel/carousel.component.ts:21-39 | before any hook the inputs are bound, the finished list is empty, and no language, image or collection name is set |
| Carousel.Carousel.Init | src/app/modules/landing/components/carousel/carousel.component.ts:63-124 | the language is the stored one (the guard's branch is dead); a known type sets its image and both collection names; an unknown type sets none |
| Carousel.Carousel.Changed | src/app/modules/landing/components/carousel/carousel.component.ts:50-61 | once loading is over exactly one "see more" item, named in the current language, is pushed onto the bound array, which becomes the finished list; during loading nothing changes |
| Carousel.Carousel.GetImagen | src/app/modules/landing/components/carousel/carousel.component.ts:131-142 | the "see more" picture for a null id, the generic image for an empty list, the first image's source otherwise, and a failure for null images with an id |
| Carousel.Carousel.GetImagenTitulo | src/app/modules/landing/components/carousel/carousel.component.ts:144-155 | the same choice for the title: empty, "Imagen generica", or the first image's title |
| Carousel.Carousel.Destination | src/app/modules/landing/components/carousel/carousel.component.ts:157-178 | a "see more" item navigates to the collection's list, any other item to its detail page by code |
| Carousel.SeeMore | src/app/modules/landing/components/carousel/carousel.component.ts:53-57 | the "see more" name is Spanish exactly for `es` and Basque otherwise |
| Carousel.DestinationsOfKnownType | src/app/modules/landing/components/carousel/carousel.component.ts:80-178 | for a known type, "see more" leads to `/resource/<collection>s` and an item to `/resource/<collection>/<code>` |
| Carousel.ChangedTwiceScenario | src/app/modules/landing/components/carousel/carousel.component.ts:50-61 | every change after loading adds one more "see more" item to the shared array, so two changes leave two |
| FavouritesButton.ListOf | src/app/modules/resource/components/button-add-to-favourites/button-add-to-favourites.component.ts:95-104 | a list missing from the response, or a response without `favoritos`, contributes nothing; otherwise the list as sent |
| FavouritesButton.ConcatenatedHas | src/app/modules/resource/components/button-add-to-favourites/button-add-to-favourites.component.ts:91-108 | an entry is among all favourites exactly when it is in one of the ten named lists |
| FavouritesButton.ConcatenatedLength | src/app/modules/resource/components/button-add-to-favourites/button-add-to-favourites.component.ts:91-108 | all favourites together are exactly as many as the ten lists hold |
| FavouritesButton.AllEntries | src/app/modules/resource/components/button-add-to-favourites/button-add-to-favourites.component.ts:91-108 | an entry is among all favourites exactly when it is in one of the named favourite lists |
| FavouritesButton.NoFavouritesNoEntries | src/app/modules/resource/components/button-add-to-favourites/button-add-to-favourites.component.ts:95-104 | without `favoritos` there is nothing to look through |
| FavouritesButton.IsAlreadyIn | src/app/modules/resource/components/button-add-to-favourites/button-add-to-favourites.component.ts:110-116 | false without favourites or resource; otherwise true exactly when some entry has the resource's code |
| FavouritesButton.HasCode | src/app/modules/resource/components/button-add-to-favourites/button-add-to-favourites.component.ts:113-115 | `some` holds exactly when some entry has the resource's code |
| FavouritesButton.FirstWithCode | src/app/modules/resource/components/button-add-to-favourites/button-add-to-favourites.component.ts:121-123 | `find` yields the first entry with the resource's code, or nothing when none has it |
| FavouritesButton.FavouriteId | src/app/modules/resource/components/button-add-to-favourites/button-add-to-favourites.component.ts:118-124 | null without favourites or resource, the first matching entry's id, and a failure when no entry matches |
| FavouritesButton.IdWhenPresent | src/app/modules/resource/components/button-add-to-favourites/button-add-to-favourites.component.ts:110-124 | whenever the resource is among the favourites, its entry id is found without error |
| FavouritesButton.Button.constructor | src/app/modules/resource/components/button-add-to-favourites/button-add-to-favourites.component.ts:23-31 | the button starts without favourites, not busy and with no request |
| FavouritesButton.Button.FavouritesArrived | src/app/modules/resource/components/button-add-to-favourites/button-add-to-favourites.component.ts:33-41 | a successful load replaces the favourites, an error keeps them |
| FavouritesButton.Button.Toggle | src/app/modules/resource/components/button-add-to-favourites/button-add-to-favourites.component.ts:48-89 | the button turns busy; a resource not among the favourites is saved by id and collection, one already there is deleted by its entry id, and saving without a resource fails before any request |
| FavouritesButton.Button.Settled | src/app/modules/resource/components/button-add-to-favourites/button-add-to-favourites.component.ts:58-87 | a success replaces the favourites, an error keeps them, and the button is free again either way |
| FavouritesButton.DeleteTargetsMatch | src/app/modules/resource/components/button-add-to-favourites/button-add-to-favourites.component.ts:72-124 | a delete is only ever sent with the id of an entry whose resource has the shown code |
| AddToPlanButton.Indice | src/app/modules/resource/components/button-add-to-plan/button-add-to-plan.component.ts:83 | the step index is 0 for a plan without steps and the step count plus one otherwise |
| AddToPlanButton.HandedOut | src/app/modules/resource/components/button-add-to-plan/button-add-to-plan.component.ts:83 | the indices sent for plans read with 0, 1, …, n - 1 steps: one per plan |
| AddToPlanButton.HandedOutShape | src/app/modules/resource/components/button-add-to-plan/button-add-to-plan.component.ts:83 | for plans read with 0, 1, …, n - 1 steps the sent indices run 0, 2, 3, …: strictly rising, never 1 |
| AddToPlanButton.Menu | src/app/modules/resource/components/button-add-to-plan/button-add-to-plan.component.ts:53-70 | the loaded menu is "create" followed by one entry per plan, in order |
| AddToPlanButton.AddItems | src/app/modules/resource/components/button-add-to-plan/button-add-to-plan.component.ts:65-67 | each plan becomes one add-to-plan entry, in order |
| AddToPlanButton.Button.constructor | src/app/modules/resource/components/button-add-to-plan/button-add-to-plan.component.ts:26-39 | the button starts with no plans, an empty menu, the dialog closed and the form empty |
| AddToPlanButton.Button.PlansArrived | src/app/modules/resource/components/button-add-to-plan/button-add-to-plan.component.ts:53-70 | the plans become the menu entries, and "create" is put at the head whether the request succeeded or failed |
| AddToPlanButton.Button.AddToPlan | src/app/modules/resource/components/button-add-to-plan/button-add-to-plan.component.ts:79-97 | without a resource nothing is sent; otherwise the step request for that plan carries its index, the resource's id and its collection |
| AddToPlanButton.AddTwiceSameIndex | src/app/modules/resource/components/button-add-to-plan/button-add-to-plan.component.ts:65-91 | choosing the same plan entry twice sends two requests with the same index, the one computed from the plan as loaded, since the menu keeps the loaded plan |
| AddToPlanButton.Button.Select | src/app/modules/resource/components/button-add-to-plan/button-add-to-plan.component.ts:55-67 | the "create" entry opens the dialog; any other entry adds the resource to its plan |
| AddToPlanButton.Button.SubmitCreate | src/app/modules/resource/components/button-add-to-plan/button-add-to-plan.component.ts:103-120 | the form turns busy; a missing title or description fails; otherwise the payload has the trimmed title and description, the stored language or `es`, the public flag and no steps |
| AddToPlanButton.Button.CreateSettled | src/app/modules/resource/components/button-add-to-plan/button-add-to-plan.component.ts:121-137 | a created plan is appended to the plans and to the menu and the form is reset; an error changes neither; the dialog closes and the form is free on either outcome |
| AddToPlanButton.MenuAppend | src/app/modules/resource/components/button-add-to-plan/button-add-to-plan.component.ts:65-129 | appending a created plan's entry keeps the menu equal to the menu of the plans |
| AddToPlanButton.LoadThenCreateScenario | src/app/modules/resource/components/button-add-to-plan/button-add-to-plan.component.ts:53-137 | after a successful load and a successful create, the menu matches the plans |
| ResourceDetailPage.CodeOf | src/app/modules/resource/pages/resource-detail-page/resource-detail-page.component.ts:30 | unary `+` on the code segment: digit-only text gives its decimal value, anything else is kept as non-numeric |
| ResourceDetailPage.CodeRoundTrip | src/app/modules/resource/pages/resource-detail-page/resource-detail-page.component.ts:30 | reading the code of a link built from a number gives that number back |
| ResourceDetailPage.CollectionNamed | src/app/modules/resource/pages/resource-detail-page/resource-detail-page.component.ts:32-114 | the first segment selects the collection whose path name it is, and none when no collection has that name |
| ResourceDetailPage.NamedByPath | src/app/modules/resource/pages/resource-detail-page/resource-detail-page.component.ts:32-114 | each of the nine collections is reached by its own path name |
| ResourceDetailPage.GenericImage | src/app/modules/resource/pages/resource-detail-page/resource-detail-page.component.ts:38-110 | every collection but caves falls back on `generic-<name>.jpg`; caves on the misspelt `gereic-cave.jpg` |
| ResourceDetailPage.Lang | src/app/modules/resource/pages/resource-detail-page/resource-detail-page.component.ts:121-123 | the stored language, or `es` when none is stored |
| ResourceDetailPage.RequestUrl | src/app/modules/resource/pages/resource-detail-page/resource-detail-page.component.ts:35-107 | a numeric code gives the service's detail URL for the collection, code and language (with `src/app/shared/services/collections.service.ts` lines 55-57) |
| ResourceDetailPage.Page.constructor | src/app/modules/resource/pages/resource-detail-page/resource-detail-page.component.ts:25-26 | the page starts with no resource, no image and no request |
| ResourceDetailPage.Page.Init | src/app/modules/resource/pages/resource-detail-page/resource-detail-page.component.ts:28-115 | fewer than two URL segments fail; otherwise the first names the collection, the second gives the code, and only a known collection issues its one request |
| ResourceDetailPage.Page.Arrived | src/app/modules/resource/pages/resource-detail-page/resource-detail-page.component.ts:36-39 | the arriving resource is shown with its collection's generic image; an error changes nothing |
| ResourceDetailPage.LinkRequestsItsResource | src/app/modules/resource/pages/resource-detail-page/resource-detail-page.component.ts:28-115 | a link `/resource/<c>/<n>` asks for resource `n` of collection `c` at the URL the service builds |
| Common.OrElse | src/utils/subtype.ts:5-7 | `a \|\| b` on strings yields `a` when it is truthy and `b` otherwise |
| Common.Lower | src/stores/collections.ts:74 | `toLowerCase` keeps the length and lower-cases each letter in place |
| Common.LowerCharIdempotent | src/stores/collections.ts:74 | lower-casing a lower-cased letter changes nothing |
| Common.LowerIdempotent | src/stores/collections.ts:74 | lower-casing twice is lower-casing once (with `src/utils/subtype.ts` line 3) |
| Common.TrimStart | src/app/modules/landing/pages/search-results-page/search-results-page.component.ts:114 | leading white space is removed, and only white space |
| Common.TrimEnd | src/app/modules/landing/pages/search-results-page/search-results-page.component.ts:114 | trailing white space is removed, and only white space |
| Common.Trim | src/app/modules/landing/pages/search-results-page/search-results-page.component.ts:114 | `trim` gives the middle of the string, neither end being white space, with only white space cut from either side (with `src/utils/subtype.ts` line 11) |
| Common.Split | src/app/modules/landing/pages/search-results-page/search-results-page.component.ts:91 | `split` always yields at least one part |
| Common.Join | src/app/modules/landing/pages/search-results-page/search-results-page.component.ts:91 | `join` begins with the first part |
| Common.Replace | src/app/modules/landing/pages/search-results-page/search-results-page.component.ts:91 | each occurrence of one character becomes the other, every other character stays |
| Common.JoinSplit | src/app/modules/landing/pages/search-results-page/search-results-page.component.ts:91-115 | `s.split(c).join(d)` is the replacement of every `c` by `d` |
| Common.ReplaceBack | src/app/modules/landing/pages/search-results-page/search-results-page.component.ts:91-115 | replacing `c` by `d` and back restores any string that had no `d` |
| Common.NatToString | src/app/modules/resource/components/form-filter/form-filter.component.ts:185 | the decimal text of a number is a non-empty run of digits |
| Common.IntToString | src/app/shared/services/collections.service.ts:55-57 | a number in a template literal renders as non-empty text |
| Common.NatToStringValue | src/app/modules/resource/components/form-filter/form-filter.component.ts:185 | reading back the decimal text of a number gives the number |
| Common.IntToStringInjective | src/app/shared/services/collections.service.ts:55-57 | different numbers render as different text |
| Common.StrLessIrreflexive | src/app/modules/landing/pages/search-results-page/search-results-page.component.ts:67 | no label sorts before itself under the string `<` |
| Common.StrLessTotal | src/app/modules/landing/pages/search-results-page/search-results-page.component.ts:67 | of two different labels, one sorts before the other |
| Common.StrLessTransitive | src/app/modules/landing/pages/search-results-page/search-results-page.component.ts:67 | the string `<` is transitive |
| Common.StrLessAsymmetric | src/app/modules/landing/pages/search-results-page/search-results-page.component.ts:67 | two labels never both sort before each other |
| Common.StrLessReference | src/app/modules/landing/pages/search-results-page/search-results-page.component.ts:67 | the string `<` holds exactly when the first string is a proper prefix of the second or has the smaller character where they first differ |
| Common.KeyOrder | src/app/modules/landing/pages/search-results-page/search-results-page.component.ts:66 | `Object.keys` lists the keys in the record's enumeration order |
| Common.Get | src/app/modules/landing/pages/search-results-page/search-results-page.component.ts:71-87 | reading a property finds a value exactly when the record has that key |
| Common.Put | src/app/modules/landing/pages/search-results-page/search-results-page.component.ts:54-63 | assigning a property sets that key's value, leaves every other key's value alone, keeps keys unique, and adds a new key at the end (with `src/stores/filter.ts` line 151) |
| Common.KeyOrderKeys | src/app/modules/landing/pages/search-results-page/search-results-page.component.ts:65-66 | the listed keys are exactly the record's keys, each once |
| MapSurface.Surface.constructor | src/app/modules/resource/components/map/map.component.ts:78-86 | a new map starts on its style, still loading, at its centre, with nothing added |
| MapSurface.Surface.SetStyle | src/app/modules/resource/components/map/map.component.ts:491-492 | `setStyle` starts the new style loading and drops every layer, source, image and icon-size setting, while handlers, markers and popups stay |
| MapSurface.Surface.StyleDone | src/app/modules/resource/components/map/map.component.ts:109 | once the style has loaded, sources and layers may be added |
| MapSurface.Surface.AddSource | src/app/modules/resource/components/map/map.component.ts:142-149 | adding a source succeeds exactly when the style has loaded and the id is unused, and then adds just that source |
| MapSurface.Surface.AddLayer | src/app/modules/resource/components/map/map.component.ts:152-215 | adding a layer fails while the style loads; a new id is appended with its icon-size match, a duplicate id changes nothing |
| MapSurface.Surface.RemoveLayer | src/app/modules/resource/components/map/map.component.ts:474-478 | removing a layer drops it and its icon-size setting and keeps the other layers in order |
| MapSurface.Surface.RemoveSource | src/app/modules/resource/components/map/map.component.ts:484 | removing a source drops just that source |
| MapSurface.Surface.AddImage | src/app/modules/resource/components/map/map.component.ts:194 | the image id is registered |
| MapSurface.Surface.RemoveImage | src/app/modules/resource/components/map/map.component.ts:481 | the image id is no longer registered |
| MapSurface.Surface.On | src/app/modules/resource/components/map/map.component.ts:218-237 | `map.on` registers one more listener |
| MapSurface.Surface.Off | src/app/modules/resource/components/map/map.component.ts:465-471 | `map.off` removes one registration of that exact listener, if any |
| MapSurface.Surface.SetIconSize | src/app/modules/resource/components/map/map.component.ts:241-258 | the icon-size match of an existing layer takes the new id; a missing layer changes nothing |
| MapSurface.Surface.FlyTo | src/app/modules/resource/components/map/map.component.ts:340-350 | the camera is centred on the point |
| MapSurface.Surface.FitBounds | src/app/modules/resource/components/map/map.component.ts:453 | the camera is fitted to exactly the given points |
| MapSurface.Surface.AddMarker | src/app/modules/plan/components/plan-map/plan-map.component.ts:135-158 | an HTML marker is appended after the existing ones |
| MapSurface.Surface.AttachPopup | src/app/modules/resource/components/map/map.component.ts:302-329 | the popup is attached to the map |
| MapSurface.Surface.DetachPopup | src/app/modules/resource/components/map/map.component.ts:298-461 | the popup is detached, the others stay |
| MapSurface.Surface.CloseOnClick | src/app/modules/resource/components/map/map.component.ts:418-420 | a click on the map closes every popup opened with `closeOnClick` |
| MapSurface.Without | src/app/modules/resource/components/map/map.component.ts:474-478 | removing an id keeps every other layer and drops that id |
| ResourceMap.LayersDistinct | src/app/modules/resource/components/map/map.component.ts:474 | the three layer ids are distinct |
| ResourceMap.CalcDistance | src/app/modules/resource/components/map/map.component.ts:431-447 | identical coordinates give `0`, any others the great-circle distance |
| ResourceMap.PopupCard | src/app/modules/resource/components/map/map.component.ts:352-414 | no card without a selection; otherwise the card links to the resource's detail page, shows its first image or the generic one with its alt text, its name, subtype, province and municipality (empty when missing), and a distance in km exactly when the user's location is known |
| ResourceMap.StandingOnIt | src/app/modules/resource/components/map/map.component.ts:370-434 | a user standing on the resource reads `0 km` |
| ResourceMap.Shared.constructor | src/app/modules/resource/components/map/map.component.ts:19-22 | the shared state starts with no location, no popup and no selection |
| ResourceMap.HandlersFrom | src/app/modules/resource/components/map/map.component.ts:218-237 | one build registers seven listeners, fresh callbacks for all but the unbound marker mouse-leave one |
| ResourceMap.MapView.constructor | src/app/modules/resource/components/map/map.component.ts:75-86 | the map starts on the light style centred on the Basque Country, with nothing added and nothing registered |
| ResourceMap.MapView.ClearPopup | src/app/modules/resource/components/map/map.component.ts:460-462 | the popup goes unless it is to be kept, and it is never kept twice |
| ResourceMap.MapView.RemoveHandlers | src/app/modules/resource/components/map/map.component.ts:464-471 | every listener of the last build is removed, so none is left |
| ResourceMap.MapView.RemoveLayers | src/app/modules/resource/components/map/map.component.ts:473-478 | each of the three layers is removed when present, so none is left |
| ResourceMap.MapView.ClearMap | src/app/modules/resource/components/map/map.component.ts:458-485 | the popup goes unless kept, and the seven listeners, the three layers, the marker image and the source are all gone |
| ResourceMap.MapView.FitBounds | src/app/modules/resource/components/map/map.component.ts:449-456 | with results and a fit request, the bounds grow over every feature and the camera fits them; the request is re-armed either way; without results nothing changes |
| ResourceMap.MapView.AddLayers | src/app/modules/resource/components/map/map.component.ts:141-215 | with the style loaded, exactly the source and the three layers are added and one marker image is requested; while the style loads nothing is added |
| ResourceMap.MapView.Register | src/app/modules/resource/components/map/map.component.ts:218-237 | each listener is registered in turn |
| ResourceMap.MapView.AddHandlers | src/app/modules/resource/components/map/map.component.ts:217-237 | exactly the seven listeners of this build are registered |
| ResourceMap.MapView.Wire | src/app/modules/resource/components/map/map.component.ts:217-245 | on fresh layers: the seven listeners are registered, the selected resource keeps its enlarged icon (the others none) and the camera is fitted |
| ResourceMap.MapView.SetupLayers | src/app/modules/resource/components/map/map.component.ts:137-246 | the map is always cleared first; with the style loaded it ends with exactly the source, the three layers and the seven new listeners, the selected resource still enlarged |
| ResourceMap.MapView.Build | src/app/modules/resource/components/map/map.component.ts:141-245 | on a cleared map, the layers, the listeners, the selection's icon size and the fitted bounds are set up once the style has loaded |
| ResourceMap.MapView.Poll | src/app/modules/resource/components/map/map.component.ts:125-133 | layers are built once the style has loaded and results exist; otherwise one more timer is pending and nothing else changes |
| ResourceMap.MapView.ResourcesArrived | src/app/modules/resource/components/map/map.component.ts:53-63 | as written: null changes nothing; an empty result flies home and clears the map but keeps the old results; other results replace them and, once ready, rebuild the layers |
| ResourceMap.MapView.ResourcesArrivedIntended | src/app/modules/resource/components/map/map.component.ts:53-63 | with an empty result also dropping the old results, the cleared map has no results left to rebuild from |
| ResourceMap.MapView.OpenPopup | src/app/modules/resource/components/map/map.component.ts:298-429 | the old popup goes and exactly one new one, carrying the selection's card, is attached |
| ResourceMap.MapView.Click | src/app/modules/resource/components/map/map.component.ts:250-304 | on empty ground the selection is cleared, the icon size falls back and every popup closes, with the popup record and the camera left as they were; on a marker the selection is committed to it, it is enlarged, the camera flies to it, and a popup with its card is the only one open; the user location is never touched |
| ResourceMap.MapView.MouseEnter | src/app/modules/resource/components/map/map.component.ts:318-330 | hovering a marker previews it with its popup, unless a selection is committed; the user location and the committed flag are never touched |
| ResourceMap.MapView.MouseLeave | src/app/modules/resource/components/map/map.component.ts:332-336 | leaving a marker ends a preview and removes its popup; a committed selection stays |
| ResourceMap.MapView.Geolocated | src/app/modules/resource/components/map/map.component.ts:94-103 | the user's location (or its loss) is stored and an open popup's card is redrawn with it |
| ResourceMap.MapView.MarkerImageLoaded | src/app/modules/resource/components/map/map.component.ts:193-195 | a requested marker image is registered once it loads |
| ResourceMap.MapView.ToggleStyle | src/app/modules/resource/components/map/map.component.ts:487-493 | the style, the fit request and the keep-popup request flip, and the other style starts loading with no layers or source |
| ResourceMap.StaleMarkersScenario | src/app/modules/resource/components/map/map.component.ts:53-493 | results, then an empty result, then a style toggle: the new style comes back with the earlier results' source and layers |
| ResourceMap.EmptyStaysEmptyScenario | src/app/modules/resource/components/map/map.component.ts:53-493 | the same events with the corrected handler leave the new style without results, source or layers |
| ResourceMap.FirstResults | src/app/modules/resource/components/map/map.component.ts:53-133 | a new map whose style has loaded, given non-empty results, holds those results and is ready |
| PlanMap.MarkersFor | src/app/modules/plan/components/plan-map/plan-map.component.ts:135-158 | one marker per step, in step order, numbered from 1, at the step's resource, with its popup open |
| PlanMap.MarkerNumbers | src/app/modules/plan/components/plan-map/plan-map.component.ts:149 | the i-th marker's label reads back as i + 1, so no two markers of a plan share a number |
| PlanMap.MarkerCoordsAppend | src/app/modules/plan/components/plan-map/plan-map.component.ts:167 | extending over one more marker adds exactly its position |
| PlanMap.Clamp | src/app/modules/plan/components/plan-map/plan-map.component.ts:44-46 | an index is forced into `0 .. max` and an index already inside is kept |
| PlanMap.Moved | src/app/modules/plan/components/plan-map/plan-map.component.ts:44-46 | the moved entry lands at its new place and the length is kept |
| PlanMap.MovedPermutation | src/app/modules/plan/components/plan-map/plan-map.component.ts:44-46 | a move only rearranges the list |
| PlanMap.MovedBack | src/app/modules/plan/components/plan-map/plan-map.component.ts:44-46 | moving the entry back restores the list |
| PlanMap.MovedOutside | src/app/modules/plan/components/plan-map/plan-map.component.ts:44-46 | entries outside the span between the two places keep their position |
| PlanMap.MoveItemInArray | src/app/modules/plan/components/plan-map/plan-map.component.ts:44-46 | `moveItemInArray` in place: both indices are clamped and the array ends as the moved list; an empty array is left alone |
| PlanMap.PlanMapView.constructor | src/app/modules/plan/components/plan-map/plan-map.component.ts:25-100 | the map starts on the day style centred on the Basque Country, with no plan, markers, bounds or route, the driving profile and the list in its initial order |
| PlanMap.PlanMapView.PlanArrived | src/app/modules/plan/components/plan-map/plan-map.component.ts:75-81 | a null plan is ignored and any other replaces the current one |
| PlanMap.PlanMapView.AppendMarkers | src/app/modules/plan/components/plan-map/plan-map.component.ts:135-158 | the plan's markers are appended to those already on the map, which stay |
| PlanMap.PlanMapView.FitBounds | src/app/modules/plan/components/plan-map/plan-map.component.ts:165-169 | the bounds, never reset, grow over every marker and the camera fits them |
| PlanMap.PlanMapView.ClearMap | src/app/modules/plan/components/plan-map/plan-map.component.ts:224-235 | the two route layers and the route source are gone |
| PlanMap.PlanMapView.DrawPlanRoute | src/app/modules/plan/components/plan-map/plan-map.component.ts:171-176 | the old request is dropped and the route cleared; a route for the plan and the current profile is requested exactly when there are at least two markers |
| PlanMap.PlanMapView.AddMarkers | src/app/modules/plan/components/plan-map/plan-map.component.ts:133-162 | as written: the plan's markers are appended, the camera fits all markers, and a route is requested exactly when there are at least two markers |
| PlanMap.PlanMapView.Poll | src/app/modules/plan/components/plan-map/plan-map.component.ts:121-129 | with the style loaded and a plan present the map is ready and the markers added; otherwise one more timer is pending and nothing else changes |
| PlanMap.PlanMapView.AddMarkersIntended | src/app/modules/plan/components/plan-map/plan-map.component.ts:133-162 | markers are created only while there are none, so the plan's markers appear once however many times the style loads |
| PlanMap.PlanMapView.PollIntended | src/app/modules/plan/components/plan-map/plan-map.component.ts:121-129 | the readiness check with the corrected marker creation |
| PlanMap.PlanMapView.RouteArrived | src/app/modules/plan/components/plan-map/plan-map.component.ts:176-221 | only the live request's answer counts; it draws the route source and both layers exactly when it carries routes and the style has loaded, and never a source without its layers |
| PlanMap.PlanMapView.ToggleStyle | src/app/modules/plan/components/plan-map/plan-map.component.ts:237-241 | the day/night flag flips, the matching style starts loading, the route goes and the markers stay |
| PlanMap.PlanMapView.ChangeProfile | src/app/modules/plan/components/plan-map/plan-map.component.ts:243-246 | the profile is stored, the route cleared and, with at least two markers, requested anew for that profile under a new request |
| PlanMap.PlanMapView.Drop | src/app/modules/plan/components/plan-map/plan-map.component.ts:44-46 | the dragged entry moves to its new place and the list keeps the same entries |
| PlanMap.DuplicateMarkersScenario | src/app/modules/plan/components/plan-map/plan-map.component.ts:121-241 | a one-step plan, then a style toggle: the step's marker is on the map twice and a route request goes out |
| PlanMap.SingleMarkerScenario | src/app/modules/plan/components/plan-map/plan-map.component.ts:121-241 | the same events with the corrected marker creation: one marker and no route request |

## Left out

- HTTP transport and request timing: the network is not modelled, so its answers are inputs.
- CollectionsStore.Store.CacheSound: the collections store's server is one fixed function of the request, so a cached answer and a fresh one can agree; the cache clauses of the store methods rest on that. A real server whose data changes between requests would make a cached entry differ from a fresh search.
- CollectionsStore.Store.SearchAllCollections: the axios cancel token and overtaken searches are not modelled; each search runs to completion. In the source a newer search cancels the older one's token; the older search's pending and later requests then resolve to `[]` (`src/stores/collections.ts:125-137`), it still stores its partly empty concatenation in the results and the cache, and its `finally` clears `loading` while the newer search runs (`src/stores/collections.ts:200-249`). The cache properties of `SearchInCategory`, `SearchEveryCollection` and `SearchOneCollection` hold only for searches that no newer search overtakes.
- CollectionsService.Filtering: the `withCache()` HTTP-level cache on the nine filtering requests (`src/app/shared/services/collections.service.ts` lines 44, 77, 110, 144, 175, 201, 235, 268, 300) is not modelled; every call reaches the server.
- AddToPlanButton.HandedOut: the button never re-reads a plan after adding a step, so adding to the same menu entry again sends the same index (`AddTwiceSameIndex`). `HandedOut` states the indices for plans read with 0, 1, …, n - 1 steps, not for one plan that grows.
- OrderBy.Compare / OrderBy.SortInPlace / OrderBy.Transform: a number compared with a string is treated as unordered, whereas JavaScript converts the string to a number first. `null` keys and fractional numbers are not modelled. An ascending or descending result is promised only when all keys are numbers or all keys are strings; with mixed, missing or object keys the comparator is not consistent and only the permutation is promised.
- Timers: `setTimeout` polls are counted and each timer firing is a call. Delays are not modelled.
- The `flyTo` promise: the popup that follows the camera move is attached at once.
- Mapbox internals are not modelled:
  - clustering and the cluster-click zoom (`src/app/modules/resource/components/map/map.component.ts:263-281`);
  - cluster hover cursors;
  - fog, `poi-label` removal and camera maths (pitch, zoom, padding).
- Floating point: `_calcDistance` beyond the identical-points case is a parameter, `toFixed(2)` included.
- `Number()` conversion of step coordinates is not modelled: steps carry coordinates directly.
- `JSON.parse` of `imagenes` is not modelled: resources carry their images as a list.
- The JSON key order of cache keys is not modelled: filters in a cache key are a map.
- Text handling is limited:
  - `toLowerCase` covers ASCII and Latin-1 letters only;
  - strings are sequences of characters, not of UTF-16 code units.
- Persistence: `localStorage` values are inputs and writes to it are not modelled.
- The marker popups of the plan map show the step's name; that text is not modelled.
- An empty `LngLatBounds` is modelled as the empty set of points. Object-prototype keys are not modelled.
- Both map components start on the light style (`src/app/modules/resource/components/map/map.component.ts:82`, `src/app/modules/plan/components/plan-map/plan-map.component.ts:96`); no stored style preference is read.
- The resource map ignores a null result (`src/app/modules/resource/components/map/map.component.ts:55`). Only an empty result flies home and clears the map, and it keeps the old results (see Findings).
- The plan map puts one marker per step and does not deduplicate stops. `drop` reorders only a fixed demonstration list (`src/app/modules/plan/components/plan-map/plan-map.component.ts:34-46`) and sends no route request. The route is removed before every request, not when the answer arrives.
- The resource map starts an empty bounding box for every non-empty result (`src/app/modules/resource/components/map/map.component.ts:60`). The plan map creates its box once (`src/app/modules/plan/components/plan-map/plan-map.component.ts:25`) and only extends it (`src/app/modules/plan/components/plan-map/plan-map.component.ts:167`).
- A new route request unsubscribes the old one (`src/app/modules/plan/components/plan-map/plan-map.component.ts:172`). The model gives each request a ticket instead, and draws only the live ticket's answer.
- OrderBy.SortInPlace: JavaScript's `sort` algorithm is implementation-defined. The model sorts by insertion and promises only a permutation with the order the comparator asks for, not the engine's tie order.
- Unary `+` on text that is not all digits is kept as a non-number.
- The `_loading$` subscriptions, which only copy a flag for the template, are not modelled.
- The collections store keeps no sort order, tab state or map state, and has no `fetchRelatedResources` or `fetchResourceById`: these only forward requests and are not modelled.
- `_getFromDateString` and `_getToDateString` are not modelled: they format dates and depend on `toLocaleDateString`.
- `_toggleMenu`, toasts, SweetAlert dialogs and console logging are not modelled.
- Angular route reuse (`shouldReuseRoute` returns false): each navigation builds a new page, so properties about one page are stated within one page instance.
- The carousel's `ngOnChanges` running before `ngOnInit` is not modelled: each hook is its own method.
- Form-filter selections are objects. Their truthiness is modelled as presence.

## Findings

| source | as written | input that shows it | evidently intended | confidence | as-written member | corrected member |
|---|---|---|---|---|---|---|
| src/app/modules/resource/resource-routing.module.ts:7-32 | `&&` binds tighter than `\|\|`, so the length check and the digit check each guard one alternative only | `caves/x/y` opens the list; `cave/abc` opens a detail page | the list needs one segment and a detail page a numeric code | not executed | ResourceRouting.PrecedenceCounterexamples | ResourceRouting.ResolveIntended |
| src/app/shared/services/plans.service.ts:20-29 | `limite` is appended under the key `idioma` | a filter with `limite = 5` | send it as `limite` | not executed | PlansService.LimitSentAsLanguage | PlansService.Filtering |
| src/stores/collections.ts:173-250 | the all-collections cache is consulted before the selected category | an uncategorised search, then the same query with a category selected | search the selected category | not executed | CollectionsStore.StaleSearchScenario | CollectionsStore.Store.SearchAllCollectionsIntended |
| src/app/modules/resource/pages/resource-list-page/resource-list-page.component.ts:82-109 | dropping the pending subscription runs its `finalize` after the spinner was turned on | two submits in a row, the first still pending | the spinner stays on while the second request is pending | not executed | ResourceListPage.ResubmitScenario | ResourceListPage.Page.SubmitIntended |
| src/app/modules/landing/components/landing-page-header/landing-page-header.component.ts:21-37 | `!x == null` is never true, so the default language is never set (the carousel has the same guard) | nothing stored under the language key | fall back to the default language | not executed | LandingPageHeader.NoStoredLangScenario | LandingPageHeader.Header.InitIntended |
| src/app/modules/resource/components/map/map.component.ts:53-63 | an empty result keeps the old results, so a later style toggle rebuilds the old markers | results, then an empty result, then a style toggle | the map stays empty | not executed | ResourceMap.StaleMarkersScenario | ResourceMap.MapView.ResourcesArrivedIntended |
| src/app/modules/plan/components/plan-map/plan-map.component.ts:133-162 | every style load runs `_addMarkers` again without removing the markers | a one-step plan, then a style toggle | each step has one marker, and one step needs no route | not executed | PlanMap.DuplicateMarkersScenario | PlanMap.PlanMapView.AddMarkersIntended |
