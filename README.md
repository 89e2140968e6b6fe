# BAKAOLC.github.io gallery core, modelled in Dafny

This project models the client-side core of a personal portfolio and gallery
site. It covers these parts:

- **Gallery query store** (`AppStore`): multilingual search over a read-only
  image catalogue, then filters by character and image type. It also has the
  type and character match counts and the id/index lookups. Its search state
  machine saves the character and type selection when a search starts and
  restores it when the search is cleared.
- **Image cache service** (`ImageCache`): a url-to-entry map with a
  least-recently-used access order and eviction at 50 entries. Each entry goes
  through loading, loaded and failed flags while its request is in flight. The
  request's completion, failure and abort callbacks are explicit methods.
- **Layer manager** (`Layers`): registered overlay layers with visibility and
  z-indices, and the stack of shown layers with the top layer last. Key and
  touch events are dispatched from the top of the stack down. Keys that no
  layer handles fall through to the full-page section scroller, which has an
  800 ms scroll lock.
- **Image carousel** (`Carousel`) and **fullscreen viewer** (`Viewer`): both
  step through a character's images with wrap-around, and every step takes a
  transition lock. Buttons and keys arm a 100 ms debounce timer whose expiry
  performs the step. The carousel's swipes and side-slot clicks also go
  through the debounce. The viewer's swipes and thumbnail clicks step at once.
- **Character selector** (`Selector`) and **image selector** (`Picker`): the
  active character, keyboard navigation, and the expandable modal with its
  lowercased name search. The image selector's cards remember each image's
  original index.
- **Personal information block** (`PersonalInfo`): how each description line
  renders, and the social-link icon.

Shared pieces:

- `Seqs`: sequence helpers.
- `JsText`: JavaScript string semantics, namely `trim` over the ECMAScript
  white-space set, ASCII `toLowerCase`, `includes`, `startsWith`/`endsWith`,
  `replace(/==/g, '')` and the truncating `%`.
- `Navigation`: wrap-around index arithmetic and the swipe decision.
- `SiteData`: the site's data types.

Timers are explicit. Each armed timeout is a field (`transitionPending`,
`pendingMove`, `pendingTimers`), and its expiry is a method (`FinishTransition`,
`FireDebounce`, `FinishScroll`) that a caller invokes. Layer callbacks are
modelled as two facts per layer: whether it has an `onKeydown` / `onTouchmove`
handler, and whether the handler accepts the event (the `accepting` set).

## Model

| member | source | states |
|---|---|---|
| AppStore.SearchableText | src/stores/app.ts:111-124 | The searchable text is lower case. A string is lower-cased with its length kept. A multilingual record becomes its three languages lower-cased and joined by single spaces. Anything else becomes the empty string. |
| AppStore.SearchableTextCoversEachLanguage | src/stores/app.ts:111-124 | A query found in any one language of a multilingual text is found in its searchable text. |
| AppStore.DescriptionText | src/stores/app.ts:89 | Guarding on a falsy description gives the same text as flattening it directly (empty for "" and for a missing value). |
| AppStore.TagMatches | src/stores/app.ts:92-98 | A tag id unknown to the catalogue never matches. The id matches if and only if the first catalogue tag with that id has a name whose searchable text includes the query. |
| AppStore.FilterImagesBySearch | src/stores/app.ts:82-108 | Keeps exactly the images whose name, description, artist or some tag name includes the lower-cased query: each kept image matches, and every matching image is kept. |
| AppStore.UnknownTagsNeverMatch | src/stores/app.ts:92-106 | An image whose tag ids are all unknown matches the search if and only if its name, description or artist includes the query. |
| AppStore.IsSearching | src/stores/app.ts:17 | A search is active if and only if the query has a character that is not white space. |
| AppStore.SearchedForCharacter | src/stores/app.ts:130-143 | The search and character stages never add images, and every image they keep matches the active search and the selected character. |
| AppStore.CharacterImages | src/stores/app.ts:60-79 | Every shown image matches the active search, the selected character and the selected type, and there are never more shown images than catalogue images. |
| AppStore.SearchStage | src/stores/app.ts:64-66 | The search stage, switched on or off, is one filter of the catalogue by the search predicate. |
| AppStore.CharacterStage | src/stores/app.ts:69-71 | The character stage, "all" or not, is one filter by the character predicate. |
| AppStore.TypeStage | src/stores/app.ts:74-78 | The type stage, "all" or not, is one filter by the type predicate. |
| AppStore.SearchedForCharacterIsOneFilter | src/stores/app.ts:130-143 | The search and character stages together are one filter by the conjunction of their predicates. |
| AppStore.CharacterImagesIsOneFilter | src/stores/app.ts:60-79 | The shown list is the catalogue filtered by the conjunction of the three stages, so it is an order-preserving subsequence of the catalogue holding exactly the images that pass every stage. |
| AppStore.SearchingAllShowsSearchResult | src/stores/app.ts:60-79 | While searching with character and type "all", the shown list is exactly the search result over the whole catalogue. |
| AppStore.CountTypes | src/stores/app.ts:146-155 | The keys are exactly the listed types plus "all". Each listed type other than "all" maps to the number of images carrying it. "all" maps to the number of images, and no count exceeds it. |
| AppStore.ImageTypeCounts | src/stores/app.ts:127-158 | The keys are exactly the catalogue's types plus "all". "all" counts the images left after the search and character stages. Every other type counts those of these images that carry it, and no count exceeds the "all" count. |
| AppStore.TypeCountIsShownCount | src/stores/app.ts:127-158 | Each type's count equals the length of the list shown when that type is selected, and the "all" count equals the length of the list shown for "all". |
| AppStore.CharacterMatchCount | src/stores/app.ts:161-173 | Without a search, the whole catalogue size. With a search, the number of search matches for the character (all matches for "all"), never more than the total number of matches. |
| AppStore.ImageById | src/stores/app.ts:176-178 | Nothing if and only if no catalogue image has the id. Otherwise it is the first catalogue image with that id. |
| AppStore.ImageIndexById | src/stores/app.ts:181-183 | -1 if and only if no shown image has the id; otherwise the first shown position holding it. |
| AppStore.ImageByIndex | src/stores/app.ts:186-189 | Nothing if and only if the index is outside the shown list; otherwise the shown image at that index. |
| AppStore.IndexLookupsCompose | src/stores/app.ts:181-189 | An index found for an id gives back an image with that id. An image at an index whose id first occurs there gives back that index. |
| AppStore.SetQuery | src/stores/app.ts:196-223 | The query is stored. A search starting with nothing saved saves the selection and switches both filters to "all". A search with a saved selection changes nothing else. A blank query restores each saved selection and forgets it, and keeps each selection that has nothing saved. |
| AppStore.Cleared | src/stores/app.ts:226-229 | Clearing leaves no query, no active search and nothing saved. |
| AppStore.SearchingKeepsSnapshot | src/stores/app.ts:201-210 | Once a selection is saved, further non-blank queries keep both the saved selection and the "all" selection. |
| AppStore.SearchThenClearRestores | src/stores/app.ts:196-229 | Typing any non-empty run of non-blank queries and then clearing restores the character and type selected before the search. |
| AppStore.EmptySelectionIsNotRestored | src/stores/app.ts:196-223 | With an empty character selection (no characters), the second keystroke saves "all" over it, and clearing then selects "all". |
| AppStore.ClearedIdempotent | src/stores/app.ts:226-229 | Clearing twice is the same as clearing once. |
| AppStore.InitialState | src/stores/app.ts:49-52 | No search, type "all", nothing saved, and the first character's id (or "") selected. |
| AppStore.GalleryStore.SetSearchQuery | src/stores/app.ts:196-223 | The store's new fields are SetQuery of the old ones. |
| AppStore.GalleryStore.ClearSearch | src/stores/app.ts:226-229 | The store's new fields are Cleared of the old ones. |
| ImageCache.Raised | src/services/imageCache.ts:51-57 | A repeated request keeps the higher of the cached and the requested priority. |
| ImageCache.WithRaisedPriority | src/services/imageCache.ts:51-57 | Only the requested entry changes, and only its priority, which becomes the higher one. |
| ImageCache.Evicted | src/services/imageCache.ts:204-211 | Cleanup keeps the 50 most recently used urls, or all of them when there are at most 50. |
| ImageCache.RequestedUrlSurvives | src/services/imageCache.ts:204-211 | The url a load has just made most recently used is never evicted by the cleanup that follows. |
| ImageCache.CleanupAsWritten | src/services/imageCache.ts:204-211 | The cleanup loop as written only removes keys, and every removed url came from the access order and is not the empty url. What is left of the order comes from the old order. The loop ends with the cache within the limit or the order exhausted. |
| ImageCache.CleanupAsWrittenLosesEmptyUrl | src/services/imageCache.ts:204-211 | As written, the cleanup leaves an empty url least recently used in an over-full cache in the map without a place in the access order. |
| ImageCache.OrphanStaysCached | src/services/imageCache.ts:204-211 | As written, the cleanup never removes a url that is in the map but missing from the access order. |
| ImageCache.ImageCacheService.constructor | src/services/imageCache.ts:21-23 | An empty, valid cache. |
| ImageCache.ImageCacheService.UpdateAccessOrder | src/services/imageCache.ts:195-201 | The url moves to (or is appended at) the back of the access order, and the map is unchanged. |
| ImageCache.ImageCacheService.GetCachedImage | src/services/imageCache.ts:26-34 | A cached url returns its entry and becomes the most recently used. An unknown url returns nothing and changes nothing. Validity is kept. |
| ImageCache.ImageCacheService.ClearCachedImage | src/services/imageCache.ts:177-192 | The url leaves the map and its first place in the access order, and validity is kept. |
| ImageCache.ImageCacheService.CleanupCache | src/services/imageCache.ts:204-211 | Every shifted url is evicted. Afterwards the cache holds at most 50 entries, keys and access order agree, and the access order is its 50 most recent urls. Entries that stay are unchanged. |
| ImageCache.ImageCacheService.EvictOldest | src/services/imageCache.ts:205-208 | One round evicts exactly the front of the access order. |
| ImageCache.ImageCacheService.LoadImage | src/services/imageCache.ts:47-165 | A loaded entry resolves to its object url, and a loading entry joins its request; both keep the higher priority and move to most recently used. Any other url starts a new request under a new number, with a loading entry at the requested priority. Then the cache is cleaned up, and the url stays most recently used. Validity is kept. |
| ImageCache.ImageCacheService.Start | src/services/imageCache.ts:91-165 | A url not cached gets a new entry. The entry starts loading under the next request number at the requested priority. Then the cache is cleaned up, with the url at the back of the access order before eviction, and no other entry changes. Validity is kept. |
| ImageCache.ImageCacheService.Revisit | src/services/imageCache.ts:48-89 | The decisions on a cached entry: resolve, join, or fall through. A failed entry is cleared. An uncached url changes nothing. |
| ImageCache.ImageCacheService.Reuse | src/services/imageCache.ts:52-88 | A loaded entry resolves, a loading entry joins, and a failed entry is removed. Otherwise only the priority is raised. |
| ImageCache.ImageCacheService.InsertEntry | src/services/imageCache.ts:92-104 | A new entry for an uncached url, appended to the access order. |
| ImageCache.ImageCacheService.AdjustLoadingPriority | src/services/imageCache.ts:37-44 | The cached entry takes the given priority, and nothing else changes. |
| ImageCache.ImageCacheService.StartRequest | src/services/imageCache.ts:106-110 | The entry becomes loading with progress 0, no error and the requested priority, under a request numbered once. |
| ImageCache.ImageCacheService.CancelLoad | src/services/imageCache.ts:168-174 | A loading entry stops loading, and nothing else changes. |
| ImageCache.ImageCacheService.OnLoad | src/services/imageCache.ts:129-143 | For the request in flight: status 200 stores the object url and marks the entry loaded with progress 100; any other status marks it failed. A stale request changes nothing. |
| ImageCache.ImageCacheService.OnError | src/services/imageCache.ts:145-149 | For the request in flight, the entry is marked failed and stops loading. |
| ImageCache.ImageCacheService.OnAbort | src/services/imageCache.ts:151-154 | For the request in flight, the entry only stops loading. |
| ImageCache.ImageCacheService.ClearAllCache | src/services/imageCache.ts:224-228 | The map and the access order become empty. |
| Layers.PageScrolled | src/components/LayerManager.ts:308-323 | A wheel step stays within the sections. It moves at most one section, down for a positive delta and up for a negative one, and only when not locked. The lock is taken exactly when the section moves. |
| Layers.PageKeyed | src/components/LayerManager.ts:325-339 | When not locked and not at the boundary, ArrowDown moves one section down and ArrowUp one section up, taking the lock and arming a timer. A move down happens only for ArrowDown and a move up only for ArrowUp. Any other key, or the lock, changes nothing. |
| Layers.PageGone | src/components/LayerManager.ts:385-391 | Jumps to an in-range section when not locked, without taking the lock. Otherwise nothing changes. |
| Layers.PageStaysInRange | src/components/LayerManager.ts:308-323 | Any run of wheel steps keeps the current section within the sections. |
| Layers.LockedBurstMovesOnce | src/components/LayerManager.ts:308-323 | Without a timer expiring, a burst of wheel steps moves at most one section, and a locked scroller ignores it entirely. |
| Layers.RegisterKeepsZIndices | src/components/LayerManager.ts:63-79 | Registering in the last slot keeps every z-index between 1000 and the next free slot. |
| Layers.ShowKeepsStack | src/components/LayerManager.ts:81-107 | Showing a layer and moving it to the top keeps the stack duplicate-free, registered, and holding every visible layer. |
| Layers.HideKeepsStack | src/components/LayerManager.ts:109-132 | Hiding a layer and dropping it from the stack keeps the stack valid, and the layer is off the stack. |
| Layers.LayerManager.InitPageScroll | src/components/LayerManager.ts:45-61 | With at least one section the scroller starts unlocked at section 0. With none, nothing changes. |
| Layers.LayerManager.RegisterLayer | src/components/LayerManager.ts:63-79 | The layer is stored invisible with z-index 1000 + 10 × (layer count − 1). A new layer lies above every existing one, and the stack is unchanged. |
| Layers.LayerManager.ShowLayer | src/components/LayerManager.ts:81-107 | An unknown id changes nothing. Otherwise the layer becomes visible and is the top of the stack, with no duplicates. |
| Layers.LayerManager.HideLayer | src/components/LayerManager.ts:109-132 | An unknown id changes nothing. Otherwise the layer becomes invisible and leaves the stack. |
| Layers.LayerManager.SwitchLayer | src/components/LayerManager.ts:134-147 | The new stack and layers are exactly those of hiding the layer switched from, unless it is kept, and then showing the target. No other layer changes. The target ends visible on top. A layer switched from and not kept ends hidden and off the stack, and a kept one stays on the stack. |
| Layers.LayerManager.HideAllLayers | src/components/LayerManager.ts:149-159 | Every layer is hidden with its other attributes kept, and the stack is empty. |
| Layers.LayerManager.GetTopLayer | src/components/LayerManager.ts:161-163 | Nothing if and only if the stack is empty; otherwise its last layer. |
| Layers.LayerManager.IsLayerVisible | src/components/LayerManager.ts:165-168 | True if and only if the layer is registered and visible. A visible layer is on the stack. |
| Layers.LayerManager.Dispatch | src/components/LayerManager.ts:277-287 | The result is the topmost stack position whose layer has the handler and accepts the event. None means no layer accepts it. |
| Layers.LayerManager.HandleKeydown | src/components/LayerManager.ts:276-292 | Top-down dispatch of the key. Only when no layer accepts it does the section scroller handle the key. |
| Layers.LayerManager.HandleTouchmove | src/components/LayerManager.ts:294-306 | Top-down dispatch of a touch move over the touch handlers. |
| Layers.LayerManager.HandlePageScroll | src/components/LayerManager.ts:308-323 | The scroller becomes PageScrolled of the old one, and the layers are unchanged. |
| Layers.LayerManager.HandlePageKeydown | src/components/LayerManager.ts:325-339 | The scroller becomes PageKeyed of the old one. |
| Layers.LayerManager.GoToPage | src/components/LayerManager.ts:385-391 | The scroller becomes PageGone of the old one. |
| Layers.LayerManager.FinishScroll | src/components/LayerManager.ts:353-357 | An armed lock-release timer expires and releases the lock. |
| Layers.LayerManager.GetCurrentPage | src/components/LayerManager.ts:393-395 | The current section (0 without a scroller), always one of the sections. |
| Navigation.WrapNext | src/components/ImageCarousel.ts:231 | `(i + 1) % n` is the next index, wrapping from the last to the first. |
| Navigation.WrapPrev | src/components/ImageCarousel.ts:238 | `(i - 1 + n) % n` is the previous index, wrapping from the first to the last. |
| Navigation.StepUndone | src/components/FullscreenViewer.ts:592-620 | A step back undoes a step forward, in either direction. |
| Navigation.AdvanceIsRemainder | src/components/ImageCarousel.ts:231 | k forward steps from i land on (i + k) mod n. |
| Navigation.FullCycle | src/components/ImageCarousel.ts:231 | n forward steps come back to the starting image. |
| Navigation.Swipe | src/components/ImageCarousel.ts:109-120 | A swipe happens if and only if the move is mostly horizontal and longer than the threshold. A leftward swipe goes to the next image. |
| Navigation.SwipeMirrored | src/components/FullscreenViewer.ts:236-245 | Mirroring a swipe horizontally reverses its direction. |
| Carousel.SlotWindow | src/components/ImageCarousel.ts:180-226 | No slots without images. Otherwise three slots, all valid indices, with the current image in the middle. |
| Carousel.SlotFormula | src/components/ImageCarousel.ts:188 | `(i - 1 + k + n) % n` for slot k is the previous, current or next image. |
| Carousel.BuildSlots | src/components/ImageCarousel.ts:186-190 | The slot loop builds exactly the window around the current image. |
| Carousel.TransitionIndexAsWritten | src/components/ImageCarousel.ts:268-284 | The slide-in index as the carousel writes it, computed from the index after the step, is always an image index. TransitionAsWrittenAgrees and TransitionAsWrittenMissesBackward pin down its values. |
| Carousel.TransitionIndex | src/components/ImageCarousel.ts:262-305 | The image slid in is the incoming edge of the new window: the next image going forward, the previous one going back. |
| Carousel.TransitionAsWrittenAgrees | src/components/ImageCarousel.ts:268-283 | The written index agrees with the incoming edge for forward steps and for one or two images. |
| Carousel.TransitionAsWrittenMissesBackward | src/components/ImageCarousel.ts:282 | With three or more images, a backward step as written slides in the image two places back instead of one. |
| Carousel.TransitionAsWrittenExample | src/components/ImageCarousel.ts:282 | Stepping back to image 0 of four: as written, image 2 slides in, while the new window shows image 3 on its left. |
| Carousel.ImageCarousel.UpdateDisplay | src/components/ImageCarousel.ts:168-178 | The slots become the window around the current image, and nothing else changes. |
| Carousel.ImageCarousel.SetCharacter | src/components/ImageCarousel.ts:126-133 | The character's first image is shown in a fresh window, and any transition is dropped. |
| Carousel.ImageCarousel.Move | src/components/ImageCarousel.ts:228-260 | With images and outside a transition, the index steps with wrap-around, the lock is taken and the timer is armed. The image slid in is TransitionIndex, the corrected index under "## Findings": the next image going forward and the previous one going back. The source slides in the image two back when stepping back through three or more images. Otherwise nothing changes. |
| Carousel.ImageCarousel.GoToImage | src/components/ImageCarousel.ts:149-155 | Outside a transition, an in-range index becomes current with its window. Otherwise nothing changes. |
| Carousel.ImageCarousel.FinishTransition | src/components/ImageCarousel.ts:253-259 | The timer's expiry rebuilds the window, drops the transition image and releases the lock. |
| Carousel.ImageCarousel.DebouncedMove | src/components/ImageCarousel.ts:63-81 | Outside a transition, the debounce timer is (re)armed for the direction. |
| Carousel.ImageCarousel.FireDebounce | src/components/ImageCarousel.ts:63-81 | The debounce expiry performs the one step it was last armed for. |
| Carousel.ImageCarousel.HandleKeydown | src/components/ImageCarousel.ts:48-58 | With a character and outside a transition, ArrowLeft arms a backward step and ArrowRight a forward one. |
| Carousel.ImageCarousel.SlotClick | src/components/ImageCarousel.ts:203-221 | Outside a transition, the middle slot opens the current image and the side slots arm a step towards themselves. |
| Carousel.ImageCarousel.TouchStart | src/components/ImageCarousel.ts:88-96 | Outside a transition, the drag starts at the touch point. |
| Carousel.ImageCarousel.TouchEnd | src/components/ImageCarousel.ts:103-123 | A swipe of more than 30 px arms a step in its direction, and the drag ends in every case. |
| Carousel.ImageCarousel.GetCurrentImage | src/components/ImageCarousel.ts:161-166 | None if and only if there is no character or no image; otherwise the current image. |
| Viewer.FullscreenViewer.ResetTransform | src/components/FullscreenViewer.ts:673-678 | Zoom 1 and no pan, with nothing else changed. |
| Viewer.FullscreenViewer.Show | src/components/FullscreenViewer.ts:251-277 | The character and index are stored, pan and zoom are at rest, and the viewer is shown. |
| Viewer.FullscreenViewer.Hide | src/components/FullscreenViewer.ts:279-293 | The viewer is hidden, keeping the image. |
| Viewer.FullscreenViewer.ShowAdjacent | src/components/FullscreenViewer.ts:592-620 | With a character and outside a transition, the index steps with wrap-around, the lock is taken, the pan and zoom reset, and the timer is armed. Otherwise nothing changes. |
| Viewer.FullscreenViewer.ShowImageByIndex | src/components/FullscreenViewer.ts:622-636 | An in-range index outside a transition becomes current, as a step does. Otherwise nothing changes. |
| Viewer.FullscreenViewer.UpdateCurrentImage | src/components/FullscreenViewer.ts:638-664 | With a valid image, the pan and zoom reset. Otherwise nothing changes. |
| Viewer.FullscreenViewer.FinishTransition | src/components/FullscreenViewer.ts:599-604 | The timer's expiry releases the lock. |
| Viewer.FullscreenViewer.DebouncedMove | src/components/FullscreenViewer.ts:574-590 | The debounce timer is (re)armed for the direction. |
| Viewer.FullscreenViewer.FireDebounce | src/components/FullscreenViewer.ts:574-590 | The debounce expiry performs the one step it was armed for. |
| Viewer.FullscreenViewer.HandleKeydown | src/components/FullscreenViewer.ts:80-92 | While the viewer is shown, Escape hides it, ArrowLeft arms a backward step and ArrowRight a forward one. |
| Viewer.FullscreenViewer.TouchStart | src/components/FullscreenViewer.ts:209-218 | A single touch starts a drag at its point. |
| Viewer.FullscreenViewer.TouchEnd | src/components/FullscreenViewer.ts:226-248 | A single-touch swipe of more than 50 px with a character steps at once, and the drag ends in every case. |
| Viewer.LockedStepsAreIgnored | src/components/FullscreenViewer.ts:592-620 | Once a step has taken the lock, a second step changes nothing. |
| Selector.IndexOfId | src/components/CharacterSelector.ts:370 | -1 if and only if no character has the id; otherwise its first position. |
| Selector.KeyTarget | src/components/CharacterSelector.ts:367-393 | Arrows step with wrap-around, Home goes to the first and End to the last character, and other keys stay. |
| Selector.KeysUndo | src/components/CharacterSelector.ts:375-380 | Left then right, or down then up, comes back to the same character. |
| Selector.ModalCharacters | src/components/CharacterSelector.ts:262-282 | Lists exactly the characters whose lowercased name contains the term. |
| Selector.ModalCharactersSpec | src/components/CharacterSelector.ts:262-282 | The modal list keeps site order, and an empty term lists every character. |
| Selector.StaleCardsExample | src/components/CharacterSelector.ts:220-237 | With characters "Ax" and "B", the term "x" lists only "Ax" while the empty term lists both. So a grid rendered from the old term differs from the empty input. |
| Selector.CharacterSelector.constructor | src/components/CharacterSelector.ts:14-27 | The first character becomes active. No callback is registered yet, so nothing is reported, and the modal grid has no cards. |
| Selector.CharacterSelector.SetChangeCallback | src/components/CharacterSelector.ts:421-423 | A change callback is registered. Nothing else changes. |
| Selector.CharacterSelector.SetActiveCharacter | src/components/CharacterSelector.ts:395-415 | The current id does nothing. Another id becomes current, and it is reported exactly once when a change callback is registered and not at all otherwise. |
| Selector.CharacterSelector.GetCurrentCharacter | src/components/CharacterSelector.ts:417-419 | None if and only if no character has the current id; otherwise the first such character. |
| Selector.CharacterSelector.HandleKeydown | src/components/CharacterSelector.ts:367-393 | Ignored while the modal is open or the id is unknown. Otherwise the key's target becomes active, reported as by SetActiveCharacter. |
| Selector.CharacterSelector.StepCharacter | src/components/CharacterSelector.ts:430-444 | The next or previous character with wrap-around becomes active. It is reported once when it differs from the old one and a change callback is registered. An unknown current id changes nothing. |
| Selector.CharacterSelector.ToggleExpanded | src/components/CharacterSelector.ts:212-218 | The modal flips. Opening renders the grid from the old term and then clears the search. Closing keeps both. Nothing else changes. |
| Selector.CharacterSelector.OpenExpanded | src/components/CharacterSelector.ts:220-237 | The modal opens with an empty search, but its cards are those of the term before opening. |
| Selector.CharacterSelector.OpenExpandedCleared | src/components/CharacterSelector.ts:220-237 | The intended opening: the search is cleared before rendering, so the grid lists every character. |
| Selector.CharacterSelector.CloseExpanded | src/components/CharacterSelector.ts:239-244 | The modal closes, keeping the term and the rendered cards. |
| Selector.CharacterSelector.SetSearchInput | src/components/CharacterSelector.ts:160-163 | The term is the lowercased input, and the grid is rendered from it. Nothing else changes. |
| Selector.CharacterSelector.SwitchModalView | src/components/CharacterSelector.ts:246-260 | The view mode changes, and the grid is rendered again from the term. Nothing else changes, and nothing is reported. |
| Selector.CharacterSelector.SetSelectionContext | src/components/CharacterSelector.ts:425-428 | A selection callback is registered, and the page selections come from is recorded. |
| Selector.CharacterSelector.SelectCard | src/components/CharacterSelector.ts:337-362 | The card's character becomes active. It is reported to the selection callback when one is registered. The modal closes on the main page, which is the default, and stays open in the viewer. The term, the rendered cards and the view are kept. |
| Selector.CharacterSelector.ModalCards | src/components/CharacterSelector.ts:262-282 | No cards before the grid is first rendered. Otherwise exactly the characters matching the term the grid was last rendered from. |
| Picker.FilterImages | src/components/ImageSelector.ts:241-245 | Lists exactly the images whose lowercased name or description contains the term (all of them for an empty term). |
| Picker.FilterImagesSpec | src/components/ImageSelector.ts:241-245 | The list keeps the character's order, and an empty term lists every image. |
| Picker.ModalCards | src/components/ImageSelector.ts:247-251 | Each card's original index is the first position of its image in the character's list. |
| Picker.ImageCount | src/components/ImageSelector.ts:253-256 | The count line shows the number of cards out of the number of images. |
| Picker.ImageSelector.Show | src/components/ImageSelector.ts:25-40 | The character is shown with an empty search, so every image has a card. |
| Picker.ImageSelector.SwitchModalView | src/components/ImageSelector.ts:55-80 | The view mode changes, and the search is kept. |
| Picker.ImageSelector.SetSearchInput | src/components/ImageSelector.ts:148 | The term is the lowercased input. |
| Picker.ImageSelector.Cards | src/components/ImageSelector.ts:222-256 | No cards without a character. Otherwise the filtered cards. |
| PersonalInfo.ClassifyLine | src/components/PersonalInfo.ts:40-57 | A line is a break if and only if it is blank. It is a title if and only if it is non-blank and starts and ends with `==`. Otherwise it is shown unchanged. A title is at least two characters shorter than its line. |
| PersonalInfo.TitleIsClean | src/components/PersonalInfo.ts:47 | A title's text contains no `==` and has no white space at either end. |
| PersonalInfo.RenderDescription | src/components/PersonalInfo.ts:40-57 | One rendered item per line, in order. |
| PersonalInfo.RenderConcat | src/components/PersonalInfo.ts:40-57 | Rendering is line by line, so the rendering of joined descriptions is the joined renderings. |
| PersonalInfo.LinkIcon | src/components/PersonalInfo.ts:72 | The icon markup, empty if and only if there is no icon or it is empty. |
| PersonalInfo.SiteTitleLine | src/data/config.ts:33-41 | The site's `== 常用ID ==` line renders as the title `常用ID`. |
| PersonalInfo.SitePlainLines | src/data/config.ts:33-41 | The site's empty line is a break, and an id line is a plain line. |

## Left out

- The DOM, CSS classes and styles, animations and `requestAnimationFrame`, layout measurement, and the window resize handler. These are rendering concerns with no state the core depends on.
- Wheel-event containment (`handleWheelEvent`), body scroll blocking, saving and restoring body styles, and layer backgrounds. These are browser presentation effects.
- Scroll indicator dots and their clicks. A click while unlocked sets the section itself without taking the lock, which is the state change `goToPage` makes (`PageGone`) for a dot within the sections. The dots are DOM elements.
- Carousel autoplay (`startAutoPlay`/`stopAutoPlay`): an interval timer that only calls `nextImage`, which is modelled.
- Fullscreen zoom, pan by mouse, the minimap, UI auto-hide and the thumbnail strip. These are floating-point geometry over DOM sizes. Only the zoom and pan reset is modelled.
- `XMLHttpRequest`, `Promise`, `URL.createObjectURL` / `revokeObjectURL`, and download progress. A request is a number, its callbacks are methods, and the object url is a parameter of `OnLoad`.
- `preloadImage`, `preloadImages` and `getCacheStats`: thin wrappers and a report over the modelled state.
- LoadingScreen, the router, the Monaco editor composable, the webp conversion script, and theme and language persistence in `localStorage`. These lie outside the gallery core.
- Layer callbacks are not run. A layer has two handler flags, and the `accepting` argument says which handlers return true for the event. The layer manager does not run `onOpen`/`onClose` hooks, and the focus restoration they do is not modelled. The character selector's open hook, which renders the grid and clears the term, is part of its `OpenExpanded`.
- The links between components (the viewer and selectors registering layers, the main page wiring callbacks) are modelled per component: the `active`/`isExpanded` flags, the flags recording a registered callback, and the reported id sequences stand in for them.
- Viewer.FullscreenViewer.Show: requires an index within the character's images, which every caller passes. The source accepts any index and shows nothing when no image is found at it: `updateCurrentImage` and `updateMiniMap` return early (FullscreenViewer.ts:641-642 and 838-839). The model therefore has no viewer on a character without images. There, the source's step computes `% 0`: the index becomes NaN, the lock is taken and the 300 ms timer is armed, and the shown image does not change.
- Carousel.ImageCarousel.FinishTransition: the timer can expire after a character with no images was set. The source would then fail in the rebuild `updateImageCarousel`, which takes `% 0` and reads an undefined image. The model shows no slots instead.
- Picker.ModalCards: the source's `indexOf` compares image objects by identity, the model by value. Two equal images therefore share the first one's index.
- Selector.CharacterSelector.OpenExpanded: assumes the overlay layer is registered. Its registration runs in a 0 ms timer, and an earlier `showLayer` refuses the id, so the grid is neither rendered nor the term cleared.
- ImageCache.ImageCacheService.Reuse: the source assigns the raised priority and calls `adjustLoadingPriority` only for a loading entry. The model calls it for every raise; the resulting state is the same.
- Layers.PageScrolled: the 800 ms timer count is bookkeeping only. Timers expire in the order they were armed, one per `FinishScroll`.

## Findings

| source | as written | input that shows it | evidently intended | confidence | as-written member | corrected member |
|---|---|---|---|---|---|---|
| src/services/imageCache.ts:206-208 | `if (oldestUrl)` skips clearing a shifted url that is the empty string | An over-full cache whose least recently used url is `""`: the url leaves the access order but stays in the map, out of eviction's reach until the empty url is requested again, which puts it back in the access order | Every shifted url is cleared, so keys and access order keep agreeing | medium, not executed | ImageCache.CleanupAsWrittenLosesEmptyUrl | ImageCache.ImageCacheService.CleanupCache |
| src/components/CharacterSelector.ts:224-234 | The open hook renders the grid with `updateModalCharacters()` and only then clears the term | Open the modal, type "x", close it and open it again: the input is empty, but the grid lists only names containing "x" (StaleCardsExample) | Clear the term before rendering, so an empty input lists every character | medium, not executed | Selector.CharacterSelector.OpenExpanded | Selector.CharacterSelector.OpenExpandedCleared |
| src/components/ImageCarousel.ts:282 | The backward transition image is `(currentImageIndex - 2 + n) % n` | Four images, stepping back from image 1 to image 0: image 2 slides in, while the new window's left slot shows image 3 | `(currentImageIndex - 1 + n) % n`, the image entering on the left | low, not executed | Carousel.TransitionAsWrittenMissesBackward | Carousel.TransitionIndex |
