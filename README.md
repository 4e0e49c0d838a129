# Foodies: a Dafny model of the menu, ordering dialog and chat assistant

This project models the core of the Foodies restaurant website in Dafny. The site is a React and TanStack Start application.

- **Catalogue** (`Catalog`, `src/lib/data.ts`): the menu's categories, items, size variants and extras. It also covers the lookups over them (all items, items by category, item by id, the landing page's carousel categories) and the price text the menu shows (`formatPrice`, the `$6 - $11` range of an item sold in sizes, the `R | M | L` size labels). The six real categories are constants, and the catalogue's invariants are proved about them.
- **Ordering dialog** (`ProductModal`, `src/components/menu/product-modal.tsx`): the size picked when the dialog opens, the extras toggled on and off, and the total shown.
- **Menu search page** (`MenuSearch`, `MenuSearchGrid`, `MenuData`, `src/components/menu/menu-search*.tsx`): the text and category filters, the keys handed to the reveal animation, the category toggle, clear-all, and the three sort orders.
- **Reveal wrapper** (`FlipReveal`, `src/components/gsap/flip-reveal.tsx`): the registry of item elements and the class each element gets for a set of visible keys.
- **Lazy image** (`OptimizedImage`, `src/components/ui/optimized-image.tsx`): its defaults, its loaded, visible and failed flags, and what it renders.
- **Scrolling divider** (`MarqueeDivider`, `src/components/ui/marquee-divider.tsx`): items separated by coloured stars, the run doubled so that it loops.
- **Contact page** (`Contact`, `src/routes/_pages/contact.tsx`): the five-field form and the `mailto:` link its submission opens. The link's subject and body are proved to read back exactly.
- **Chat assistant**:
  - the server stream relay (`ChatServer`, `src/lib/chat.server.ts`);
  - the POST handler (`ChatActions`, `src/lib/chat.actions.ts`);
  - the prompt box (`ChatInput`);
  - the message list and its typing indicator (`ChatConversation`);
  - the widget's turn (`ChatWidget`, `src/components/chat/*.tsx`);
  - the full round trip between them (`ChatRoundTrip`).

Shared modules:
- `Wrappers`: `Option`.
- `Seqs`: `Array.prototype.flat`, `Array.prototype.filter` and subsequences.
- `Text`:
  - `trim` over the ECMAScript white-space set;
  - ASCII `toLowerCase`;
  - `includes`, `join` and decimal digits.
- `UriComponent`: `encodeURIComponent` (UTF-8 followed by percent-encoding), with a decoder and the round trip between them.

Where the source changes state step by step, the model is a class:
- React state hooks and refs: `ContactPage`, `PromptInputBasic`, `ThinkingIndicator`, `ChatWidget`, `MenuSearchPage`, `ProductModalContent`, `Image`, `FlipRevealGrid`.
- The stream controller: `StreamController`.

Each class's methods are proved against a pure function of the old state. The properties are proved as lemmas about those functions.

Things the code gets from outside are parameters:
- the browser (`window.location`, the intersection observer, timers);
- the hosted language model;
- random ids.

## Model

| member | source | states |
|---|---|---|
| Catalog.AllItems | src/lib/data.ts:754-756 | `flatMap` of the categories' items, as `Seqs.Flatten` of their item lists; characterised by `AllItemsCons`, `AllItemsAppend` and `AllItemsMembership` |
| Catalog.AllItemsCons | src/lib/data.ts:754-756 | all items are the first category's items followed by the rest's |
| Catalog.AllItemsAppend | src/lib/data.ts:754-756 | flattening distributes over concatenation of category lists |
| Catalog.AllItemsMembership | src/lib/data.ts:754-756 | an item is among all items exactly when some category lists it |
| Catalog.ItemsByCategory | src/lib/data.ts:761-764 | an unknown category id yields no items; for the first category with the id, its items in order |
| Catalog.ItemsByCategoryIsFilter | src/lib/data.ts:761-764 | in a category-consistent catalogue with distinct ids, the category lookup equals filtering all items by their `categoryId` |
| Catalog.FilterNone | src/lib/data.ts:761-764 | no item of a consistent catalogue names a category id that is absent |
| Catalog.FindById | src/lib/data.ts:769-771 | the found item is in the list with that id and precedes every other item with it; nothing found exactly when no item has the id |
| Catalog.ItemById | src/lib/data.ts:769-771 | the result has the id and is on the menu; none exactly when no menu item has the id |
| Catalog.CarouselCategories | src/lib/data.ts:777-782 | the carousel is no longer than the menu and holds only carousel ids |
| Catalog.OnCarouselIff | src/lib/data.ts:777-782 | a category is on the carousel exactly when it is on the menu and its id is one of the three carousel ids |
| Catalog.CarouselKeepsOrder | src/lib/data.ts:777-782 | the carousel is a subsequence of the menu, in menu order |
| Catalog.CarouselOfThisCatalogue | src/lib/data.ts:68-699 | for the real menu the carousel is chicken and sides, burgers and wraps, then pizza: menu order, not the order the ids are listed in |
| Catalog.CarouselMembership | src/lib/data.ts:777-782 | the three carousel categories are selected and the other three are not |
| Catalog.Fixed2 | src/lib/data.ts:815-817 | `toFixed(2)` text is all digits apart from a point three places from the end |
| Catalog.Fixed2RoundTrip | src/lib/data.ts:815-817 | reading the two-decimal text back gives the same cents |
| Catalog.Fixed0 | src/lib/data.ts:797 | `toFixed(0)` of a price in cents; characterised by `Fixed0Nearest` |
| Catalog.Fixed0Nearest | src/lib/data.ts:789-800 | `toFixed(0)` yields the whole amount nearest the price, with a half rounding up |
| Catalog.FormatPrice | src/lib/data.ts:815-817 | a price is a dollar sign followed by its two-decimal text |
| Catalog.FormatPriceRoundTrip | src/lib/data.ts:815-817 | a formatted price reads back as the cents it was made from |
| Catalog.Prices | src/lib/data.ts:789-800 | the list of size prices, one per variant and in order |
| Catalog.MinPrice | src/lib/data.ts:789-800 | `Math.min` is a member of the prices and no greater than any of them |
| Catalog.MaxPrice | src/lib/data.ts:789-800 | `Math.max` is a member of the prices and no less than any of them |
| Catalog.DisplayPrice | src/lib/data.ts:789-800 | the displayed price starts with a dollar sign; an item without sizes shows its own price formatted; an item whose sizes all cost the same shows that one price formatted (the range case is `DisplayPriceRange`) |
| Catalog.DisplayPriceRange | src/lib/data.ts:789-800 | equal lowest and highest size prices show one two-decimal price; otherwise a whole-dollar range from lowest to highest |
| Catalog.MinMaxOf | src/lib/data.ts:789-800 | a given lowest and highest member of the prices are what min and max return |
| Catalog.DisplayPriceIgnoresBasePrice | src/lib/data.ts:789-800 | for an item sold in sizes the item's own price plays no part in what is shown |
| Catalog.Labels | src/lib/data.ts:805-810 | the labels of the variants, one per variant and in order |
| Catalog.VariantLabels | src/lib/data.ts:805-810 | null exactly when the item has no sizes; otherwise the variants' labels, in order, joined by ` \| ` |
| Catalog.VariantLabelsLength | src/lib/data.ts:805-810 | the length of the labels text is that of all labels plus three characters per separator |
| Catalog.VariantLabelsOne | src/lib/data.ts:805-810 | a single size is labelled by its own label, with no separator |
| Catalog.VariantLabelsSnoc | src/lib/data.ts:805-810 | one more size appends ` \| ` and its label to the labels text |
| Catalog.ChickenAndSidesIsConsistent | src/lib/data.ts:72-193 | every chicken and sides item names its category and starts at its first size's price |
| Catalog.BurgersAndWrapsIsConsistent | src/lib/data.ts:198-300 | the same for burgers and wraps |
| Catalog.PizzaIsConsistent | src/lib/data.ts:305-500 | the same for pizza |
| Catalog.HotBeveragesIsConsistent | src/lib/data.ts:505-561 | the same for hot beverages |
| Catalog.MocktailsIsConsistent | src/lib/data.ts:566-625 | the same for mocktails |
| Catalog.FrezosIsConsistent | src/lib/data.ts:630-694 | the same for frezos |
| Catalog.CatalogIsConsistent | src/lib/data.ts:34-51 | the whole menu keeps the record's documented invariants: each item's `categoryId` is its category, category ids are distinct, a sized item's price is its first size's |
| Catalog.DisplayPriceOfMeatDeluxe | src/lib/data.ts:412 | the meat deluxe pizza shows the range from its smallest to its largest size |
| Catalog.WholeDollars | src/lib/data.ts:797 | 600 and 1100 cents show as 6 and 11 whole dollars |
| Catalog.DisplayPriceOfLargeChips | src/lib/data.ts:176 | an item without sizes shows `$1.50` |
| Catalog.VariantLabelsOfPizza | src/lib/data.ts:311 | the BBQ steak pizza's labels are `R \| M \| L` and the full chicken has none |
| MenuData.Ids | src/components/menu/menu-search.tsx:48 | one id per item, in the items' order |
| MenuSearch.AllItems | src/components/menu/menu-search.tsx:14-16 | `flatMap` of the categories' items, as `Seqs.Flatten` of their item lists; characterised by `AllItemsOne`, `AllItemsAppend` and `AllItemsMembership` |
| MenuSearch.AllItemsOne | src/components/menu/menu-search.tsx:14-16 | a single category flattens to its own items |
| MenuSearch.AllItemsAppend | src/components/menu/menu-search.tsx:14-16 | the items of two category lists side by side are the first list's items, then the second's |
| MenuSearch.AllItemsMembership | src/components/menu/menu-search.tsx:14-16 | an item is listed exactly when some category holds it |
| MenuSearch.MatchesSearch | src/components/menu/menu-search.tsx:29-30 | the text filter; characterised by `FilteredMembership` and `LongerQueryNarrows` |
| MenuSearch.MatchesCategory | src/components/menu/menu-search.tsx:33-37 | the category filter; characterised by `FilteredMembership` and `MoreCategoriesWiden` |
| MenuSearch.Passes | src/components/menu/menu-search.tsx:29-37 | both filters together; characterised by `FilteredMembership` |
| MenuSearch.Filtered | src/components/menu/menu-search.tsx:26-41 | the filtered list is no longer than the full list |
| MenuSearch.FilteredKeepsOrder | src/components/menu/menu-search.tsx:26-41 | the filtered list is a subsequence of the full list |
| MenuSearch.FilteredMembership | src/components/menu/menu-search.tsx:26-41 | an item is shown exactly when it is listed, its lower-cased name contains the lower-cased query (or the query is empty), and no category is selected or a selected category holds an item with its id |
| MenuSearch.NoFilterKeepsAll | src/components/menu/menu-search.tsx:29-37 | with no query and no selection every item is kept, in order |
| MenuSearch.LongerQueryNarrows | src/components/menu/menu-search.tsx:29-30 | extending the query never adds results |
| MenuSearch.MoreCategoriesWiden | src/components/menu/menu-search.tsx:33-37 | once at least one category is selected, selecting another never removes results (going from none to one narrows them, since an empty selection passes everything) |
| MenuSearch.VisibleKeys | src/components/menu/menu-search.tsx:44-49 | the keys handed to the reveal grid; characterised by `VisibleKeysIsAllIff` and `VisibleKeyIff` |
| MenuSearch.VisibleKeysIsAllIff | src/components/menu/menu-search.tsx:44-49 | the keys are the sentinel `["all"]` exactly when nothing is searched or selected, given no item is called "all" |
| MenuSearch.FilteredIdIsNotAll | src/components/menu/menu-search.tsx:44-49 | no filtered item's id collides with the sentinel |
| MenuSearch.VisibleKeyIff | src/components/menu/menu-search.tsx:44-49 | while filtering, a key is visible exactly when it is the id of a filtered item |
| MenuSearch.NoItemsFoundIff | src/components/menu/menu-search-grid.tsx:78 | "No items found" is shown exactly when a search or selection is active and no item passes |
| MenuSearch.RevealedIff | src/components/gsap/flip-reveal.tsx:157 | an item is revealed exactly when nothing is filtered or it is a filtered item |
| MenuSearch.Toggle | src/components/menu/menu-search.tsx:51-57 | the category toggle; characterised by `ToggleMembership`, `ToggleTwiceUnselected`, `ToggleTwiceSelected` and `ToggleKeepsDistinct` |
| MenuSearch.ToggleMembership | src/components/menu/menu-search.tsx:51-57 | after a toggle the category is selected exactly when it was not; other ids are unchanged |
| MenuSearch.ToggleTwiceUnselected | src/components/menu/menu-search.tsx:51-57 | toggling an unselected category twice restores the selection list exactly |
| MenuSearch.ToggleTwiceSelected | src/components/menu/menu-search.tsx:51-57 | toggling a selected category twice restores which categories are selected |
| MenuSearch.ToggleTwiceMovesToEnd | src/components/menu/menu-search.tsx:51-57 | but not their order: toggling "pizza" twice in `[pizza, burgers]` moves it to the end |
| MenuSearch.ToggleKeepsDistinct | src/components/menu/menu-search.tsx:51-57 | a selection without repeats stays without repeats |
| MenuSearch.MenuSearchPage.constructor | src/components/menu/menu-search.tsx:19-21 | empty query, no selection, default sort |
| MenuSearch.MenuSearchPage.SetSearchQuery | src/components/menu/menu-search.tsx:19 | sets the query only |
| MenuSearch.MenuSearchPage.SetSortOption | src/components/menu/menu-search.tsx:21 | sets the sort only |
| MenuSearch.MenuSearchPage.HandleCategoryToggle | src/components/menu/menu-search.tsx:51-57 | applies the toggle to the selection, changes nothing else and keeps it free of repeats |
| MenuSearch.MenuSearchPage.HandleClearAll | src/components/menu/menu-search.tsx:63-67 | all three filters reset, after which the keys are `["all"]` and every item passes |
| MenuSearchGrid.Insert | src/components/menu/menu-search-grid.tsx:33-55 | insertion adds exactly one element to the multiset |
| MenuSearchGrid.SortBy | src/components/menu/menu-search-grid.tsx:33-55 | the sort is a permutation |
| MenuSearchGrid.InsertSorted | src/components/menu/menu-search-grid.tsx:33-55 | inserting into a sorted list under a total order keeps it sorted |
| MenuSearchGrid.SortBySorts | src/components/menu/menu-search-grid.tsx:33-55 | under a total order the result is sorted and a permutation of the input |
| MenuSearchGrid.LexLeTotal | src/components/menu/menu-search-grid.tsx:38 | any two names compare one way or the other |
| MenuSearchGrid.ComparatorsAreTotal | src/components/menu/menu-search-grid.tsx:37-51 | both comparators are total |
| MenuSearchGrid.SortedItems | src/components/menu/menu-search-grid.tsx:33-55 | every sort option returns a permutation of the items |
| MenuSearchGrid.IsPopularTag | src/components/menu/menu-search-grid.tsx:42-47 | a tag marks an item popular when, lower-cased, it contains "popular" or "seller"; used by `PopularIsStablePartition` |
| MenuSearchGrid.PopularLe | src/components/menu/menu-search-grid.tsx:39-51 | the 'popular' comparator as an order; total by `ComparatorsAreTotal`, and sorting by it is `PopularIsStablePartition` |
| MenuSearchGrid.AToZSortsByName | src/components/menu/menu-search-grid.tsx:37-38 | 'a-z' orders the items by name |
| MenuSearchGrid.PopularIsStablePartition | src/components/menu/menu-search-grid.tsx:39-51 | 'popular' is the popular items followed by the others, each group in its original order |
| MenuSearchGrid.InsertPopular | src/components/menu/menu-search-grid.tsx:48 | a popular item is inserted at the front |
| MenuSearchGrid.InsertAfterPopular | src/components/menu/menu-search-grid.tsx:49-50 | an item that is not popular goes after every popular one and before the other items |
| MenuSearchGrid.PopularComesFirst | src/components/menu/menu-search-grid.tsx:39-51 | under 'popular', a popular item never follows one that is not |
| MenuSearchGrid.DefaultKeepsOrder | src/components/menu/menu-search-grid.tsx:52-53 | 'default' keeps the items as given |
| MenuSearchGrid.ShowsNoItems | src/components/menu/menu-search-grid.tsx:78 | the empty-state test as written; characterised by `ShowsNoItemsIffEmpty` |
| MenuSearchGrid.ShowsNoItemsIffEmpty | src/components/menu/menu-search-grid.tsx:78 | the empty state shows exactly when there are no visible keys (the second disjunct adds nothing) |
| FlipReveal.ApplyVisibility | src/components/gsap/flip-reveal.tsx:63-65 | the element gains the class for its visibility and keeps every other class |
| FlipReveal.ExactlyOneClass | src/components/gsap/flip-reveal.tsx:63-65 | with distinct class names the element carries exactly one of the two, the shown one exactly when it is visible |
| FlipReveal.ApplyVisibilityIdempotent | src/components/gsap/flip-reveal.tsx:86-90 | applying the same visibility again changes nothing |
| FlipReveal.ItemClass | src/components/gsap/flip-reveal.tsx:157-163 | an item is `flex` exactly when inside a wrapper whose keys make it visible |
| FlipReveal.IsVisible | src/components/gsap/flip-reveal.tsx:63 | a key is visible when listed or when the sentinel is; characterised by `VisibilityOfKeys` |
| FlipReveal.VisibilityOfKeys | src/components/gsap/flip-reveal.tsx:63 | with the sentinel every key is visible; without it exactly the listed keys |
| FlipReveal.Element.constructor | src/components/gsap/flip-reveal.tsx:160-164 | a new element has the given classes |
| FlipReveal.FlipRevealGrid.constructor | src/components/gsap/flip-reveal.tsx:32-42 | no items, previous keys are the initial keys, first render pending, default class names `block` and `hidden` |
| FlipReveal.FlipRevealGrid.RegisterItem | src/components/gsap/flip-reveal.tsx:44-50 | an element is recorded under its key, or a null removes the key; other keys are untouched |
| FlipReveal.FlipRevealGrid.ApplyAll | src/components/gsap/flip-reveal.tsx:86-90 | every registered element gets the class for its visibility under the keys |
| FlipReveal.FlipRevealGrid.RunEffect | src/components/gsap/flip-reveal.tsx:57-123 | classes are applied exactly on the first render or when the keys changed and the container is mounted; then the previous keys become the keys; otherwise nothing changes |
| ProductModal.InitialVariant | src/components/menu/product-modal.tsx:181-183 | an item with sizes opens with its first size; an item without sizes opens with none |
| ProductModal.BasePrice | src/components/menu/product-modal.tsx:187 | with no size chosen the base is the item's price |
| ProductModal.AddOnsPrice | src/components/menu/product-modal.tsx:188 | no extras cost nothing |
| ProductModal.TotalPrice | src/components/menu/product-modal.tsx:189 | the total is at least the base price |
| ProductModal.AddOnsPriceAppend | src/components/menu/product-modal.tsx:188 | the extras' sum is additive over concatenation |
| ProductModal.AddOnsPriceSplit | src/components/menu/product-modal.tsx:188 | the extras with an id and those without it share out the whole sum |
| ProductModal.InitialTotalIsListedPrice | src/components/menu/product-modal.tsx:181-189 | in a catalogue whose sized items start at their first size, a freshly opened dialog's total is the item's listed price |
| ProductModal.SelectedSizeSetsBase | src/components/menu/product-modal.tsx:187-189 | choosing a size makes the total that size's price plus the extras, whatever the item's own price |
| ProductModal.ToggleAddOn | src/components/menu/product-modal.tsx:191-197 | the extra toggle; characterised by `ToggleSelection`, `ToggleKeepsDistinctIds`, `ToggleTwiceUnchosen` and `ToggleTwiceChosen` |
| ProductModal.ToggleSelection | src/components/menu/product-modal.tsx:191-197 | after a toggle the extra is chosen exactly when it was not; every other extra keeps its state |
| ProductModal.ToggleKeepsDistinctIds | src/components/menu/product-modal.tsx:191-197 | a toggle never leaves two chosen extras with one id |
| ProductModal.FilterKeepsDistinctIds | src/components/menu/product-modal.tsx:194 | filtering keeps ids distinct |
| ProductModal.ToggleTwiceUnchosen | src/components/menu/product-modal.tsx:191-197 | toggling an unchosen extra twice restores the list exactly |
| ProductModal.FilterUniqueId | src/components/menu/product-modal.tsx:193-194 | with distinct ids, a chosen extra is the only one carrying its id |
| ProductModal.ToggleTwiceChosen | src/components/menu/product-modal.tsx:187-197 | toggling a chosen extra twice restores which extras are chosen and the total |
| ProductModal.CatalogueAddOnsAreDistinct | src/lib/data.ts:708-745 | the extras on offer have distinct ids |
| ProductModal.ProductModalContent.Total | src/components/menu/product-modal.tsx:187-189 | the footer's total is the base price plus the chosen extras |
| ProductModal.ProductModalContent.constructor | src/components/menu/product-modal.tsx:181-184 | the dialog opens on the item's initial size with no extras |
| ProductModal.ProductModalContent.SelectVariant | src/components/menu/product-modal.tsx:246-249 | the chosen size becomes the highlighted one and sets the base of the total |
| ProductModal.ProductModalContent.HandleAddOnToggle | src/components/menu/product-modal.tsx:191-197 | applies the toggle, flips that extra's selected state, keeps the size and keeps ids distinct |
| OptimizedImage.Resolve | src/components/ui/optimized-image.tsx:99-105 | each of the seven properties: a missing one takes its default (lazy, auto, async, placeholder on, `bg-muted`, no observer, `200px`) and a given one is kept as given |
| OptimizedImage.Step | src/components/ui/optimized-image.tsx:122-154 | one event's effect on the flags; characterised by `StepKeepsInvariant`, `RunMonotone` and `FailureIsFinal` |
| OptimizedImage.InitialFlags | src/components/ui/optimized-image.tsx:116-118 | nothing is loaded or failed at mount; visible exactly when the observer is off |
| OptimizedImage.StepKeepsInvariant | src/components/ui/optimized-image.tsx:147-154 | a failed image counts as loaded, and no event resets a flag |
| OptimizedImage.RunMonotone | src/components/ui/optimized-image.tsx:122-154 | over any run of events the flags only rise and a failed image stays loaded |
| OptimizedImage.RunAppend | src/components/ui/optimized-image.tsx:122-154 | running two batches of events is running their concatenation |
| OptimizedImage.FailureIsFinal | src/components/ui/optimized-image.tsx:151-154 | once an error arrives the image is failed and loaded whatever follows |
| OptimizedImage.ShowsPlaceholder | src/components/ui/optimized-image.tsx:173-183 | the placeholder while not loaded; characterised by `RenderedPartsExclude` and `DefaultsRenderAtOnce` |
| OptimizedImage.ShouldRenderImage | src/components/ui/optimized-image.tsx:155-156 | eager images always, others once visible; characterised by `ObserverDefersImage` |
| OptimizedImage.RendersImage | src/components/ui/optimized-image.tsx:192-194 | the `<img>` element; characterised by `RenderedPartsExclude` and `ObserverDefersImage` |
| OptimizedImage.RendersError | src/components/ui/optimized-image.tsx:185-190 | the failure banner; characterised by `RenderedPartsExclude` and `FailureIsFinal` |
| OptimizedImage.RenderedPartsExclude | src/components/ui/optimized-image.tsx:175-194 | the failure banner and the image never render together, and a failed image shows no placeholder |
| OptimizedImage.DefaultsRenderAtOnce | src/components/ui/optimized-image.tsx:99-105 | with the defaults the image renders at once (native lazy loading) under a placeholder |
| OptimizedImage.ObserverDefersImage | src/components/ui/optimized-image.tsx:122-145 | with the observer on, a lazy image is not rendered until a batch with an intersecting entry arrives, and then it is |
| OptimizedImage.Image.constructor | src/components/ui/optimized-image.tsx:116-118 | the configuration is the resolved properties and the flags are the initial ones |
| OptimizedImage.Image.HandleLoad | src/components/ui/optimized-image.tsx:147-149 | a load event |
| OptimizedImage.Image.HandleError | src/components/ui/optimized-image.tsx:151-154 | an error event: failed and loaded |
| OptimizedImage.Image.OnEntries | src/components/ui/optimized-image.tsx:125-133 | while observing, any intersecting entry makes the image visible and disconnects the observer; otherwise nothing changes |
| MarqueeDivider.SpeedClass | src/components/ui/marquee-divider.tsx:39-43 | the three speeds map to 40 s, 20 s and 10 s cycles |
| MarqueeDivider.SpeedsAreDistinct | src/components/ui/marquee-divider.tsx:39-43 | the three speeds give different durations |
| MarqueeDivider.StarColorsAsWritten | src/components/ui/marquee-divider.tsx:45 | any given colour list, even an empty one, replaces the splash colours |
| MarqueeDivider.StarColors | src/components/ui/marquee-divider.tsx:22-45 | the palette is never empty; it is the given colours when there are any, else the four splash colours |
| MarqueeDivider.ColorAt | src/components/ui/marquee-divider.tsx:50-51 | a colour exists exactly when the palette is non-empty, and it is the one at the index modulo the palette's length |
| MarqueeDivider.RenderMarqueeContent | src/components/ui/marquee-divider.tsx:47-72 | two entries per item, in order: its text keyed `text-i`, then its star keyed `star-i` with the i-th cyclic colour |
| MarqueeDivider.FirstStarsFollowPalette | src/components/ui/marquee-divider.tsx:50-51 | the first stars take the palette's colours in order |
| MarqueeDivider.Track | src/components/ui/marquee-divider.tsx:81-84 | the track is the content twice, both halves identical |
| MarqueeDivider.Render | src/components/ui/marquee-divider.tsx:32-86 | the component with the corrected palette `StarColors`, not `colors \|\| SPLASH_COLORS` (see Findings): defaults filled in; item i's text keyed `text-i` followed by its star keyed `star-i` with the palette's colour i modulo its length, always present; the second half of the track is exactly the first |
| MarqueeDivider.EmptyColorsLeaveStarUncoloured | src/components/ui/marquee-divider.tsx:45-51 | as written, an empty colour list leaves the first star without a colour |
| MarqueeDivider.StarsAlwaysColoured | src/components/ui/marquee-divider.tsx:45-51 | with the corrected palette every star has a colour from it |
| MarqueeDivider.PalettesAgreeOtherwise | src/components/ui/marquee-divider.tsx:45 | the corrected and the as-written palettes differ exactly on an empty list |
| Contact.Update | src/routes/_pages/contact.tsx:25 | `{ ...prev, [name]: value }`; characterised by `UpdateSetsOnlyThatField` |
| Contact.UpdateSetsOnlyThatField | src/routes/_pages/contact.tsx:21-26 | an input change sets the named field and leaves the other four as they were |
| Contact.InitialFormIsEmpty | src/routes/_pages/contact.tsx:13-19 | all five fields start empty |
| Contact.Subject | src/routes/_pages/contact.tsx:32 | the subject starts with "Contact from " |
| Contact.Body | src/routes/_pages/contact.tsx:33-38 | the message body; characterised by `BodyIsLines` and `BodyEndsWithMessage` |
| Contact.BodyIsLines | src/routes/_pages/contact.tsx:33-38 | the body is its six lines (name, e-mail, phone, blank, heading, message) joined by line breaks |
| Contact.BodyEndsWithMessage | src/routes/_pages/contact.tsx:37-38 | the message closes the body exactly as typed |
| Contact.IndexOf | src/routes/_pages/contact.tsx:40 | the position found holds the character and none comes earlier; none found exactly when it does not occur |
| Contact.MailtoLink | src/routes/_pages/contact.tsx:40 | the `mailto:` link; characterised by `MailtoRoundTrip` |
| Contact.MailtoRoundTrip | src/routes/_pages/contact.tsx:40 | splitting the link's query at the first `&` and decoding both parts gives back exactly the subject and body, whatever was typed |
| Contact.ParseWellFormed | src/routes/_pages/contact.tsx:40 | a link to the shop whose encoded subject has no `&` reads back as its two decoded parts |
| Contact.IsRequired | src/routes/_pages/contact.tsx:176-262 | the inputs marked `required`: all but the phone number |
| Contact.RequiredFilled | src/routes/_pages/contact.tsx:176-262 | no required input is empty; characterised by `SubmitOutcome` |
| Contact.SubmitOutcome | src/routes/_pages/contact.tsx:161-262 | a mail link results exactly when the first name, last name, e-mail and message are all non-empty, and it reads back as the form's subject and body |
| Contact.InitialFormIsBlocked | src/routes/_pages/contact.tsx:13-19 | the empty form the page starts with cannot be sent |
| Contact.PhoneIsOptional | src/routes/_pages/contact.tsx:227-244 | the phone number never decides whether the form is sent |
| Contact.ContactPage.constructor | src/routes/_pages/contact.tsx:13-19 | the form starts empty and the browser has not been sent anywhere |
| Contact.ContactPage.HandleInputChange | src/routes/_pages/contact.tsx:21-26 | the named field takes the value; every other field and the location are unchanged |
| Contact.ContactPage.HandleSubmit | src/routes/_pages/contact.tsx:28-44 | the browser is sent to the mail link of the current form, which reads back as its subject and body; the form is unchanged |
| Contact.ContactPage.Submit | src/routes/_pages/contact.tsx:161-268 | the form's submit event: `handleSubmit` runs exactly when `SubmitOutcome` allows it, and otherwise nothing changes |
| UriComponent.EncodeUriComponent | src/routes/_pages/contact.tsx:40 | `encodeURIComponent`; characterised by `UriComponentRoundTrip`, `EncodingIsSafe`, `EncodedHasNoDelimiters` and `UnreservedUnchanged` |
| UriComponent.Utf8Char | src/routes/_pages/contact.tsx:40 | one to four octets per code point, a single octet exactly for ASCII |
| UriComponent.DecodeFirst | src/routes/_pages/contact.tsx:40 | a decoded character takes between one octet and what is left |
| UriComponent.OverlongAndSurrogateRefused | src/routes/_pages/contact.tsx:40 | an overlong form and an encoded surrogate are not UTF-8 |
| UriComponent.DecodeFirstOfChar | src/routes/_pages/contact.tsx:40 | decoding the octets of one code point, whatever follows, gives that code point and its length |
| UriComponent.Utf8RoundTrip | src/routes/_pages/contact.tsx:40 | UTF-8 decoding inverts UTF-8 encoding |
| UriComponent.PercentRoundTrip | src/routes/_pages/contact.tsx:40 | percent-decoding inverts percent-encoding |
| UriComponent.EncodingIsSafe | src/routes/_pages/contact.tsx:40 | the encoding holds only unreserved characters, `%` and upper-case hex digits |
| UriComponent.UriComponentRoundTrip | src/routes/_pages/contact.tsx:40 | `decodeURIComponent(encodeURIComponent(s)) == s` for every string |
| UriComponent.EncodedHasNoDelimiters | src/routes/_pages/contact.tsx:40 | the encoding never contains `&`, `=`, `?`, `#`, a space or a line break |
| UriComponent.UnreservedUnchanged | src/routes/_pages/contact.tsx:40 | text of unreserved characters encodes as itself |
| UriComponent.EncodeSpaceAndNewline | src/routes/_pages/contact.tsx:33-40 | a space encodes as `%20` and a line break as `%0A` |
| Text.ConcatAppend | src/components/chat/chat-widget.tsx:95-101 | concatenation distributes over appending lists of chunks |
| Text.ConcatNonEmpty | src/components/chat/chat-widget.tsx:88 | skipping empty chunks does not change their concatenation |
| Text.NonEmpty | src/components/chat/chat-widget.tsx:88 | the kept chunks are non-empty chunks of the input |
| Text.Join | src/lib/data.ts:809 | `join(sep)`; characterised by `JoinOne`, `JoinSnoc` and `JoinLength` |
| Text.JoinOne | src/lib/data.ts:809 | one part joins to itself, with no separator |
| Text.JoinSnoc | src/lib/data.ts:809 | joining one more part appends the separator and that part |
| Text.JoinLength | src/lib/data.ts:809 | the length of a join is that of the parts plus one separator per pair of neighbours |
| Text.TrimStart | src/components/chat/chat-widget.tsx:43 | removes exactly the leading white space: the rest is a suffix not starting with white space |
| Text.TrimEnd | src/components/chat/chat-widget.tsx:43 | removes exactly the trailing white space: the rest is a prefix not ending with white space |
| Text.TrimIsInfix | src/components/chat/chat-widget.tsx:43 | the trimmed text is a contiguous slice of the original |
| Text.TrimRemovesOnlySpace | src/components/chat/chat-widget.tsx:43 | everything cut off on either side is white space |
| Text.TrimEmpty | src/components/chat/chat-widget.tsx:43-44 | a text trims to empty exactly when it is all white space |
| Text.ToLower | src/components/menu/menu-search.tsx:29-30 | lower-casing maps each character and keeps the length |
| Text.ToLowerAppend | src/components/menu/menu-search.tsx:29-30 | lower-casing distributes over concatenation |
| Text.ContainsPrefix | src/components/menu/menu-search.tsx:29-30 | a text containing `a + b` contains `a` |
| Text.NatToString | src/components/ui/marquee-divider.tsx:55-63 | decimal text is all digits with no leading zero |
| Text.ParseNatToString | src/components/ui/marquee-divider.tsx:55-63 | decimal text reads back as the number |
| Seqs.Flatten | src/lib/data.ts:754-756 | `flatMap` over lists; characterised by `FlattenAppend` and `FlattenMembership` |
| Seqs.FlattenAppend | src/lib/data.ts:754-756 | flattening distributes over concatenation of the outer list |
| Seqs.FlattenMembership | src/lib/data.ts:754-756 | an element is in the flattening exactly when some inner list holds it |
| Seqs.Filter | src/lib/data.ts:779-781 | the kept elements all pass, and there are no more than the input |
| Seqs.FilterMembership | src/lib/data.ts:779-781 | an element is kept exactly when it is in the input and passes |
| Seqs.FilterIsSubsequence | src/lib/data.ts:779-781 | the filter keeps the input's order |
| Seqs.FilterAppend | src/lib/data.ts:779-781 | the filter distributes over concatenation |
| Seqs.FilterDistinct | src/components/menu/menu-search.tsx:54 | filtering keeps a list free of repeats |
| ChatConversation.NextDotCount | src/components/chat/chat-conversation.tsx:42 | the dot count steps 0, 1, 2, 3 and back to 0 |
| ChatConversation.DotCountCycles | src/components/chat/chat-conversation.tsx:38-43 | after k ticks from zero the count is k mod 4, repeating every four ticks |
| ChatConversation.ThinkingIndicator.constructor | src/components/chat/chat-conversation.tsx:38 | the count starts at zero |
| ChatConversation.ThinkingIndicator.Tick | src/components/chat/chat-conversation.tsx:41-43 | one interval firing advances the count |
| ChatConversation.Dots | src/components/chat/chat-conversation.tsx:48 | exactly n dots |
| ChatConversation.IndicatorText | src/components/chat/chat-conversation.tsx:48-50 | "typing" followed by exactly as many dots as the count |
| ChatConversation.RenderMessage | src/components/chat/chat-conversation.tsx:104-122 | a bubble keeps the message's id and role; it shows the typing indicator exactly for the streaming assistant message while thinking with no text; otherwise it shows non-empty text, the content when there is some; only the assistant has an avatar |
| ChatConversation.Render | src/components/chat/chat-conversation.tsx:64-122 | the empty state with the suggested prompts exactly when there are no messages, else one bubble per message in order |
| ChatConversation.PromptClicked | src/components/chat/chat-conversation.tsx:86-95 | clicking suggestion i in the empty state hands exactly that prompt to the callback |
| ChatConversation.AtMostOneIndicator | src/components/chat/chat-conversation.tsx:104-108 | with distinct ids at most one bubble shows the typing indicator |
| ChatInput.InputValue | src/components/chat/chat-input.tsx:37 | the controlled value when given, else the internal one |
| ChatInput.LoadingValue | src/components/chat/chat-input.tsx:38 | the controlled loading flag when given, else the internal one |
| ChatInput.Tooltip | src/components/chat/chat-input.tsx:76 | "Stop generation" exactly while loading, "Send message" exactly otherwise |
| ChatInput.SubmitOutcome | src/components/chat/chat-input.tsx:40-51 | a submit is ignored exactly when disabled or loading; otherwise `onSubmit` is called exactly when given |
| ChatInput.PromptInputBasic.constructor | src/components/chat/chat-input.tsx:34-35 | empty and not loading |
| ChatInput.PromptInputBasic.HandleSubmit | src/components/chat/chat-input.tsx:40-46 | the submit outcome, with internal loading started only by an uncontrolled submit |
| ChatInput.PromptInputBasic.FinishLoading | src/components/chat/chat-input.tsx:47-50 | the timer ends loading and clears the value |
| ChatInput.PromptInputBasic.HandleValueChange | src/components/chat/chat-input.tsx:53-58 | a change is forwarded when there is a handler and kept internally otherwise |
| ChatInput.UncontrolledRoundTrip | src/components/chat/chat-input.tsx:37-58 | an uncontrolled box shows what is typed, starts loading on submit, ignores submits while loading and then shows "Stop generation" |
| ChatActions.ThreadArgument | src/lib/chat.actions.ts:13-16 | null and absent thread ids both become "none"; a string is passed on unchanged |
| ChatActions.Header | src/lib/chat.actions.ts:18-24 | a found header is one of the headers with that name; none exactly when no header has it |
| ChatActions.StreamAssistantResponse | src/lib/chat.actions.ts:10-25 | the model gets the message and the given or a new conversation; the response carries that id in `x-thread-id`, the content type, no-cache, and the stream of relayed deltas |
| ChatServer.StreamController.constructor | src/lib/chat.server.ts:116 | a new stream is open, empty and not yet ended |
| ChatServer.StreamController.Enqueue | src/lib/chat.server.ts:139-143 | a chunk is appended only while the stream is open |
| ChatServer.StreamController.Close | src/lib/chat.server.ts:116-130 | an open stream becomes closed; the close is counted |
| ChatServer.StreamController.Error | src/lib/chat.server.ts:116-130 | an open stream becomes errored; the end is counted |
| ChatServer.DeltaText | src/lib/chat.server.ts:139-143 | a notification contributes at most one text, never an empty one |
| ChatServer.Deltas | src/lib/chat.server.ts:139-143 | the relayed texts are non-empty and at most one per notification |
| ChatServer.FirstTerminal | src/lib/chat.server.ts:144-153 | the first end found is a completion, an error or a rejection |
| ChatServer.DeltasAppend | src/lib/chat.server.ts:139-143 | the relayed texts of two runs concatenate |
| ChatServer.TerminalSnoc | src/lib/chat.server.ts:116-153 | one more notification changes the first end and the part before it only while no end has arrived |
| ChatServer.RelaySnoc | src/lib/chat.server.ts:116-153 | one more notification extends the full response by its text, and the stream's text and state as the first end dictates |
| ChatServer.OnNotification | src/lib/chat.server.ts:116-153 | one notification: its text joins the full response, and is enqueued exactly while the stream is open; a terminal notification closes or errors the stream once |
| ChatServer.Relay | src/lib/chat.server.ts:116-153 | after all notifications the stream holds the deltas before the first end, is closed by a completion and errored by an error or rejection, and ended at most once; the full response holds every delta |
| ChatServer.ResolveThread | src/lib/chat.server.ts:109 | the given thread id, else the new conversation's; characterised by `CreateAssistantStream` and `FirstTurnAdoptsNewConversation` |
| ChatServer.CreateAssistantStream | src/lib/chat.server.ts:100-158 | a conversation is created exactly when no thread id is given; the given or new id is returned and used for the request; the stream is the relay of the notifications |
| ChatServer.LaterEventsIgnored | src/lib/chat.server.ts:116-130 | nothing after the first end changes the stream |
| ChatServer.CompletedStreamRelaysAll | src/lib/chat.server.ts:139-153 | deltas followed by a completion are all relayed and the stream is closed |
| ChatServer.FullResponseIsEnqueued | src/lib/chat.server.ts:139-153 | with no delta after the first end, the full response is exactly the streamed text |
| ChatServer.NoDeltas | src/lib/chat.server.ts:139-143 | notifications without deltas relay nothing |
| ChatWidget.Guard | src/components/chat/chat-widget.tsx:43-44 | a submission goes ahead exactly when its trimmed text is non-empty and no turn is streaming, and sends the trimmed text |
| ChatWidget.AppendTo | src/components/chat/chat-widget.tsx:95-101 | the chunk is appended to the message with the id; other messages are unchanged |
| ChatWidget.ReplaceContent | src/components/chat/chat-widget.tsx:104-113 | the message with the id gets the new text; other messages are unchanged |
| ChatWidget.ChatWidget.constructor | src/components/chat/chat-widget.tsx:30-37 | the widget starts with no messages, an empty input, idle and with no thread |
| ChatWidget.ChatWidget.SetInput | src/components/chat/chat-widget.tsx:196 | typing sets the input only |
| ChatWidget.ChatWidget.SubmitMessage | src/components/chat/chat-widget.tsx:42-119 | the state and request are those of a turn with the given reply |
| ChatWidget.ChatWidget.StartTurn | src/components/chat/chat-widget.tsx:46-61 | both messages are appended, the input is cleared, and streaming and thinking begin on the new assistant message |
| ChatWidget.ChatWidget.ShowApology | src/components/chat/chat-widget.tsx:103-113 | the assistant message becomes the apology |
| ChatWidget.ChatWidget.TakeThread | src/components/chat/chat-widget.tsx:75-78 | a non-empty header replaces the held thread id |
| ChatWidget.ChatWidget.ReadLoop | src/components/chat/chat-widget.tsx:84-102 | the chunks are consumed in order |
| ChatWidget.ChatWidget.EndTurn | src/components/chat/chat-widget.tsx:114-118 | streaming and thinking end, and no message is streaming |
| ChatWidget.ChatWidget.HandlePromptSelect | src/components/chat/chat-widget.tsx:121-123 | a suggested prompt is a turn with that text |
| ChatWidget.Begin | src/components/chat/chat-widget.tsx:46-61 | the state change that starts a turn; characterised by `IndicatorOnNewAssistantMessage` and `AcceptedTurn` |
| ChatWidget.CaptureThread | src/components/chat/chat-widget.tsx:75-78 | a non-empty `x-thread-id` header is kept; characterised by `StreamedTurn` and `AcceptedTurn` |
| ChatWidget.OnChunk | src/components/chat/chat-widget.tsx:86-101 | one chunk of the reader; characterised by `ConsumeAppends` and `ThinkingUntilFirstChunk` |
| ChatWidget.Consume | src/components/chat/chat-widget.tsx:84-102 | the read loop's effect; characterised by `ConsumeAppends`, `ThinkingUntilFirstChunk` and `ConsumeKeepsStreaming` |
| ChatWidget.Fail | src/components/chat/chat-widget.tsx:103-113 | the `catch` block; characterised by `FailedStart` and `AcceptedTurn` |
| ChatWidget.Settle | src/components/chat/chat-widget.tsx:114-118 | the `finally` block; characterised by `AcceptedTurn` |
| ChatWidget.Turn | src/components/chat/chat-widget.tsx:42-119 | a whole `submitMessage`; characterised by `RejectedSubmissionIsIgnored`, `AcceptedTurn`, `SubmitWhileStreamingIsIgnored` and `StreamedTurn` |
| ChatWidget.RejectedSubmissionIsIgnored | src/components/chat/chat-widget.tsx:43-44 | an empty or concurrent submission changes nothing and sends nothing |
| ChatWidget.AppendToOthers | src/components/chat/chat-widget.tsx:95-101 | appending to the last message of a list with distinct ids changes only that message |
| ChatWidget.ReplaceOthers | src/components/chat/chat-widget.tsx:104-113 | replacing the last message's text changes only that message |
| ChatWidget.ConsumeAppends | src/components/chat/chat-widget.tsx:84-102 | the assistant message receives the concatenation of the chunks, nothing else changes, and the turn is still thinking exactly when every chunk so far was empty |
| ChatWidget.AcceptedTurn | src/components/chat/chat-widget.tsx:42-119 | an accepted turn appends the trimmed user text and one assistant message saying the concatenated chunks or, after any failure, the apology; earlier messages are untouched; the request carries the thread id held at submission; the widget ends idle with the input cleared and a non-empty header's thread id |
| ChatWidget.FailedStart | src/components/chat/chat-widget.tsx:71-73 | a failed response leaves the apology as the assistant's message |
| ChatWidget.StreamedTurn | src/components/chat/chat-widget.tsx:75-113 | a streamed turn ends with the final content and the next thread id |
| ChatWidget.ThinkingUntilFirstChunk | src/components/chat/chat-widget.tsx:88-93 | the turn is "thinking" until the first non-empty chunk; empty chunks do not end it |
| ChatWidget.SubmitWhileStreamingIsIgnored | src/components/chat/chat-widget.tsx:43-44 | during a streaming turn a second submission appends and sends nothing |
| ChatWidget.ConsumeKeepsStreaming | src/components/chat/chat-widget.tsx:84-102 | the read loop never ends streaming or changes the streaming id |
| ChatWidget.InputBoxSubmitsOnlyWhenIdle | src/components/chat/chat-widget.tsx:191-199 | the box shows the widget's input, and its submit reaches the widget exactly when no turn is streaming |
| ChatWidget.IndicatorOnNewAssistantMessage | src/components/chat/chat-widget.tsx:181-188 | right after a submission the only bubble with the typing indicator is the new assistant message |
| ChatRoundTrip.HeldThreadReachesServer | src/lib/chat.actions.ts:13-16 | the widget's held thread id reaches the server unchanged, and a held id is the conversation the server uses |
| ChatRoundTrip.TurnAgainstServer | src/components/chat/chat-widget.tsx:64-78 | against the real handler, a turn adds two messages; the assistant's is the streamed text after a completion and the apology after an error; the widget keeps the server's thread id |
| ChatRoundTrip.ConversationContinues | src/lib/chat.actions.ts:18-22 | a widget that holds a thread keeps talking in that same thread |
| ChatRoundTrip.FirstTurnAdoptsNewConversation | src/lib/chat.server.ts:109 | a fresh widget's first turn sends a null thread id and adopts the conversation the server created |

## Left out

- Images, descriptions and icon names of menu items and categories are not modelled; neither are styling, layout, animation timings, GSAP Flip's animation or the `motion` transitions. Only which elements are shown, and with which class or text, is modelled.
- The catalogue carries every category and item with the fields the lookups use. The search page's own `menuCategories` (src/components/menu/menu-data.ts) is taken as a parameter, not spelled out as constants.
- `localeCompare` is modelled as code-point order on names. A locale collation is outside the model.
- `toLowerCase` is modelled on ASCII letters only. Unicode case mapping is not modelled.
- `Array.prototype.sort` is modelled as a stable insertion sort. ECMAScript requires the sort to be stable, and with a consistent comparator every stable sort gives the same result.
- Prices are modelled as whole cents, so `toFixed` on a binary floating-point `price / 100` is exact here. The half-dollar case rounds up.
- The map iteration order in `FlipReveal`'s effect does not matter and is not modelled. Elements are taken to be registered once each.
- The `Flip.getState` snapshot and `querySelectorAll` are not modelled; only whether a container is mounted is.
- The intersection observer is reduced to the batches of entries it delivers, each one intersecting or not. `rootMargin` and the thresholds are not modelled.
- `Contact.ContactPage.Submit`: of the browser's constraint validation, only the `required` attribute on the first name, last name, e-mail and message inputs is modelled. The check that the e-mail input holds a valid address (`type="email"`) is not, so the model lets through forms the browser would still block. `Contact.ContactPage.HandleSubmit` itself is the handler and covers every form it is given.
- `window.location.href` is modelled as the page's recorded `location`. Opening a mail program is outside the model.
- `Contact.ContactPage.HandleInputChange` takes one of the five field names. An input with any other `name` would add a new key to the form object, and that is not modelled.
- The mail program's reading of a `mailto:` link (section 2 of RFC 6068) is modelled as a split at the first `&` and two decodes. Other header fields are not modelled.
- Timers (`setInterval`, `setTimeout`) are modelled as method calls for each firing. Clearing them on unmount is not modelled.
- The chat's async flow is not modelled: a turn is one call, with the fetch's outcome given as a `Reply`. React's batching and closures over stale state are also not modelled.
- `TextEncoder` and `TextDecoder` are not modelled: chunks are strings, and each enqueued string arrives as one chunk.
- The two message ids come from `crypto.randomUUID` and are parameters. `FreshIds` states that they are fresh.
- The hosted model and its conversation store are modelled as a script: a new conversation id and a finite list of notifications. Network failures, `Response.ok`, and timeouts other than the notifications are outside the model.
- `ChatServer.StreamController.Enqueue`: the delta listener (src/lib/chat.server.ts:139-143) enqueues without looking at the closed flag, so a delta that arrives after the stream was closed or errored reaches `controller.enqueue`. The platform throws there, inside the listener; the model refuses the chunk instead and leaves the stream as it was. `ChatServer.FullResponseIsEnqueued` therefore holds only for scripts with no delta after the first completion, error or rejection.
- `ChatActions.Header`: header names are matched exactly. The Fetch API's case-insensitive lookup is not modelled; the handler and widget use the same spelling.
- `ChatRoundTrip.TurnAgainstServer` covers streams that end with a completion, an error or a rejection. A stream the model never ends would leave the widget waiting, which is not a finishing turn.
- The chat's environment settings (`src/lib/env.ts`), the prompt instructions sent to the model, and the rest of the site's pages and sections are not part of this model.

## Findings

| source | as written | input that shows it | evidently intended | confidence | as-written member | corrected member |
|---|---|---|---|---|---|---|
| src/components/ui/marquee-divider.tsx:45-51 | `colors \|\| SPLASH_COLORS` keeps an empty array, because an empty array is truthy; then `index % 0` is `NaN` and every star's colour is `undefined` | `colors = []`, `items = ["SNACKS"]` | an empty list falls back to the splash colours, so that every star has a colour | not executed; medium | MarqueeDivider.StarColorsAsWritten, MarqueeDivider.EmptyColorsLeaveStarUncoloured | MarqueeDivider.StarColors, MarqueeDivider.StarsAlwaysColoured, MarqueeDivider.Render |
