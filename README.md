# Desserts: the list view and the rating widget, in Dafny

This is a model of the two components of the desserts demo that hold logic.

- `Desserts` (desserts.dfy) models the dessert list view. It covers:
  - the query gate in front of the search;
  - the filtering stage of the stream of query pairs;
  - `toRated`, which lays the sparse id-to-rating overlay over the fetched list;
  - the updater that `updateRating` applies to the overlay;
  - the two steps of `loadRatings`;
  - the debounce's held query pair, the start and the end of one search, and the initial field values.

  The component is a class with the fields the source keeps in signals. `ratedDesserts` is the function `RatedDesserts()`, which evaluates `toRated` on the current fields.
- `Rating` (rating.dfy) models the star-rating widget. `toStars` is a method that fills an array in a loop. The component is a class with fields `rating` and `maxRating` and the methods `Rate`, `OnChanges` and `EnterCheatMode`. Each of these methods is tied to a value-level transition `Step`. A `Run` over a sequence of events lets lemmas speak about any sequence of calls.

A dessert's rating is replaced only when the overlay entry for its id is truthy in JavaScript, that is, present and not zero. An entry of `0` therefore acts as no entry (`ToRatedZeroIsAbsent`).

A JavaScript star array starts as `new Array(rating)`, which has `rating` holes. Writing positions `0..maxRating-1` then lengthens it to `max(rating, maxRating)`, and positions `maxRating..rating-1` stay holes. Array positions are `StarSlot` values: `Hole`, or `Star(filled)`.

## Model

| member | source | states |
|---|---|---|
| `Desserts.Gate` | src/app/desserts/desserts.component.ts:43 | the definition is the model: a query pair passes iff one of its two strings has length at least 3 |
| `Desserts.Gated` | src/app/desserts/desserts.component.ts:39-43 | the filter stage keeps a query pair iff it passes the gate (one string of length at least 3), and never adds pairs |
| `Desserts.GatedAppend` | src/app/desserts/desserts.component.ts:43 | filtering a stream split in two is filtering each part and concatenating, so order is kept |
| `Desserts.GateExtends` | src/app/desserts/desserts.component.ts:43 | a query that passes the gate still passes once either string is typed further |
| `Desserts.GateExamples` | src/app/desserts/desserts.component.ts:31-43 | the initial query ("Pala", "") passes; ("Pa", "") does not; on the stream ("Pa",""), ("Pala","") only the second gets through |
| `Desserts.Hold` | src/app/desserts/desserts.component.ts:43-44 | the definition is the model: a pair that passes the gate replaces the pair the debounce holds; a failing pair leaves it held |
| `Desserts.HoldAll` | src/app/desserts/desserts.component.ts:39-44 | the definition is the model: the pair the debounce holds after a run of combined pairs |
| `Desserts.HoldAllIsLastGated` | src/app/desserts/desserts.component.ts:43-44 | the held pair is the last pair of the run that passed the gate, or the earlier held pair if none did |
| `Desserts.TypeThenDelete` | src/app/desserts/desserts.component.ts:43-46 | "Pala" followed by "Pa" before the debounce settles still holds ("Pala", "") |
| `Desserts.Overrides` | src/app/desserts/desserts.component.ts:104 | the definition is the model: the entry for `id` is truthy, that is present and not 0 |
| `Desserts.Rated` | src/app/desserts/desserts.component.ts:104 | the definition is the model: a copy with the overlay's rating when its entry is truthy, otherwise the dessert itself |
| `Desserts.ToRated` | src/app/desserts/desserts.component.ts:102-106 | same length and order as the fetched list, same id at every position; a truthy overlay entry replaces the rating and nothing else; otherwise the dessert is returned unchanged |
| `Desserts.ToRatedEmpty` | src/app/desserts/desserts.component.ts:102-106 | with the empty overlay the view starts with, the merged list is the fetched list |
| `Desserts.ToRatedZeroIsAbsent` | src/app/desserts/desserts.component.ts:104 | an overlay entry of 0 gives the same merged list as having no entry |
| `Desserts.ToRatedIdempotent` | src/app/desserts/desserts.component.ts:102-106 | merging an already merged list with the same overlay changes nothing |
| `Desserts.ToRatedKeepsDescriptions` | src/app/desserts/desserts.component.ts:104 | each merged dessert agrees with the fetched one on every field except the rating |
| `Desserts.WithRating` | src/app/desserts/desserts.component.ts:129-132 | the new overlay maps `id` to the new rating, keeps every other key's value, and its domain is the old domain plus `id` |
| `Desserts.WithRatingIdempotent` | src/app/desserts/desserts.component.ts:129-132 | applying the same update twice gives the same overlay as applying it once |
| `Desserts.WithRatingLastWins` | src/app/desserts/desserts.component.ts:129-132 | a second update of the same id overrides the first |
| `Desserts.RatedAfterUpdate` | src/app/desserts/desserts.component.ts:129-132 | after a nonzero rating of `id`, every displayed dessert with that id shows it, and every other displayed dessert is as before |
| `Desserts.DessertsComponent.constructor` | src/app/desserts/desserts.component.ts:31-52 | initial state: names "Pala" and "", not loading, empty overlay, empty list, so nothing displayed; the initial pair passes the gate and is held by the debounce |
| `Desserts.DessertsComponent.Query` | src/app/desserts/desserts.component.ts:39-42 | the definition is the model: the current pair of query strings, as the stream combines them |
| `Desserts.DessertsComponent.RatedDesserts` | src/app/desserts/desserts.component.ts:54 | the definition is the model: the fetched list merged with the current overlay by `ToRated` |
| `Desserts.DessertsComponent.EditOriginalName` | src/app/desserts/desserts.component.ts:31-43 | the original name takes the new value; if it changed, the new pair replaces the held pair iff it passes the gate; setting the same value leaves the held pair as it was; nothing else changes |
| `Desserts.DessertsComponent.EditEnglishName` | src/app/desserts/desserts.component.ts:32-43 | the English name takes the new value; if it changed, the new pair replaces the held pair iff it passes the gate; setting the same value leaves the held pair as it was; nothing else changes |
| `Desserts.DessertsComponent.StartSearch` | src/app/desserts/desserts.component.ts:43-46 | when the debounce settles, the held pair (which passed the gate) is the filter sent to the search and `loading` is raised; with nothing held nothing happens; the held pair is used up |
| `Desserts.DessertsComponent.FinishSearch` | src/app/desserts/desserts.component.ts:46-54 | the delivered list becomes the fetched list; `loading` is cleared; the overlay is kept; the display is the new list merged with that overlay |
| `Desserts.DessertsComponent.StartLoadRatings` | src/app/desserts/desserts.component.ts:108-109 | a ratings load sets `loading` and changes nothing else |
| `Desserts.DessertsComponent.FinishLoadRatings` | src/app/desserts/desserts.component.ts:111-121 | on success the overlay is replaced wholesale; on error it is kept; `loading` is cleared in both cases; nothing else changes |
| `Desserts.DessertsComponent.UpdateRating` | src/app/desserts/desserts.component.ts:124-134 | the overlay becomes `WithRating` of the old overlay; nothing else changes |
| `Rating.StarsOf` | src/app/rating/rating.component.ts:49-55 | the definition is the model: length max(rating, maxRating), star i filled iff i < rating below maxRating, holes from there on |
| `Rating.WrittenRowCount` | src/app/rating/rating.component.ts:51-53 | among the first k written stars, min(rating, k) are filled |
| `Rating.FilledCount` | src/app/rating/rating.component.ts:51-53 | among the positions below `maxRating`, exactly min(rating, maxRating) stars are filled |
| `Rating.StarsWithinThreshold` | src/app/rating/rating.component.ts:49-55 | when rating <= maxRating the array has no holes: length maxRating, star i filled iff i < rating |
| `Rating.Step` | src/app/rating/rating.component.ts:37-66 | the definition is the model: `rate` sets the rating; the change check raises the threshold to 500 when the rating exceeds it; cheat mode sets it to 500 |
| `Rating.Run` | src/app/rating/rating.component.ts:37-66 | the definition is the model: the events applied one after another, in order |
| `Rating.StepKeepsThreshold` | src/app/rating/rating.component.ts:37-66 | no single rate, change or cheat-mode call lowers `maxRating`, and each keeps it in {5, 500} |
| `Rating.RunKeepsThreshold` | src/app/rating/rating.component.ts:26-66 | over any sequence of those calls, `maxRating` stays in {5, 500} and never decreases |
| `Rating.EscalationIsPermanent` | src/app/rating/rating.component.ts:37-41 | once `maxRating` is 500 it stays 500 over any later sequence of calls, lower ratings included |
| `Rating.RateThenObserve` | src/app/rating/rating.component.ts:37-62 | rating sets only `rating`; the escalation to 500 happens when the change is observed and the new rating exceeds the threshold |
| `Rating.CheatModeIdempotent` | src/app/rating/rating.component.ts:64-66 | entering cheat mode twice is the same as entering it once |
| `Rating.EscalationScenario` | src/app/rating/rating.component.ts:37-55 | a widget at rating 4 and threshold 5, rated 6 and observed, has threshold 500 and 500 stars, of which the first six are filled |
| `Rating.RatingComponent.constructor` | src/app/rating/rating.component.ts:23-26 | a widget starts with its bound rating and threshold 5 |
| `Rating.RatingComponent.OnChanges` | src/app/rating/rating.component.ts:37-41 | if rating > maxRating then maxRating becomes 500, otherwise nothing changes; rating is untouched |
| `Rating.RatingComponent.ToStars` | src/app/rating/rating.component.ts:49-55 | a new array on every call; it has length max(rating, maxRating); star i is filled iff i < rating for i < maxRating; positions from maxRating on are holes |
| `Rating.RatingComponent.Stars` | src/app/rating/rating.component.ts:28 | the rendered stars are the star array for the current rating and threshold |
| `Rating.RatingComponent.Rate` | src/app/rating/rating.component.ts:57-62 | sets `rating` to the given value and leaves `maxRating` as it was |
| `Rating.RatingComponent.EnterCheatMode` | src/app/rating/rating.component.ts:64-66 | sets `maxRating` to 500 whatever the rating is; leaves `rating` as it was |

## Left out

- The 300 ms timer of the debounce is not modelled: `StartSearch` is the moment it settles, and the caller decides when that is. The order of gate and debounce is modelled: the gate filters every combined pair, and the debounce holds the last pair that passed. `FinishSearch` is the arrival of the search's result.
- The cancellation of a superseded search by `switchMap` is scheduling and is not modelled. A superseded search that never completes is not represented.
- The search has no error path in the code, and none is modelled.
- The dessert service, the expert-ratings service and the toast service are foreign calls. Their results are inputs: the list passed to `FinishSearch` and the `RatingsResponse` passed to `FinishLoadRatings`. The error object of a failed load is dropped, because only logging uses it.
- Console logging and toast messages (the query log, the "desserts loaded" count, the load-error message, the rating-changed log) are observability only.
- The Angular signals, `computed`, `effect`, `toObservable`, `toSignal`, `model` and `output` become plain fields, functions and method calls. The propagation of a rating from the widget through the card to the list view is left out.
- The dessert card component only forwards an event, so it is not modelled.
- Templates, styles and commented-out code are not modelled.
- `Rating.RatingComponent.ToStars`: the array is allocated at its final length `max(rating, maxRating)`, with every position a hole. JavaScript instead grows the array by writing past its end. The final contents are the same.
- `Rating.RatingComponent.constructor`: the framework calls `ngOnChanges` on the first input binding, before the widget is first shown. The constructed state, for example 7 slots with holes at 5 and 6 for rating 7, is never rendered; a client calls `OnChanges` first.
- `Rating.RatingComponent.Rate`: ratings are unbounded natural numbers. JavaScript's `new Array(rating)` throws a `RangeError` for a negative or fractional rating and for any rating of 2^32 or more. The throw happens when the stars are computed for the new rating, not inside `rate`. Those inputs and that throw are not modelled, and `StarsOf` gives a row for every natural rating.
- `Desserts.DessertsComponent.EditOriginalName`: each setter that changes a value is one emission of the combined stream. A framework that batches several writes made in the same turn into one emission is not modelled.
- `Desserts.Dessert`: ids and ratings are integers. NaN, which JavaScript treats as falsy, and fractional ratings are not modelled.
- `Desserts.Gate`: string length is counted in characters. JavaScript counts UTF-16 code units, so the two differ for characters outside the Basic Multilingual Plane.
