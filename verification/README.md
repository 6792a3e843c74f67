# Swipe deck and drag gesture of a swipe-card matching app

This project models the two small state machines of a client-side swipe-card
dating demo, together with what is proved about them:

- **The drag gesture of one card.** It has three state fields: the start
  coordinate, the live offset and the dragging flag. Three handlers drive
  it: start (touch start or mouse down), move, and end (touch end, mouse up
  or mouse leave). Every handler does nothing unless the card is on top. A
  release classifies the offset against the threshold 120. An offset above
  +120 is a right swipe (like) and one below -120 is a left swipe (pass).
  Anything in between, including exactly ±120, is no decision. The card then
  returns to rest. The two drag labels ("スキ" and "NO", shown beyond ±50)
  and the `mm:ss` call-timer text are modelled as pure functions.
- **The deck controller of the top-level view.** Its state is the profile
  sequence, the cursor of the top card, a single match slot with its
  dialog flag, and the reshuffles that are scheduled but have not fired.
  A swipe works in this order:
  1. A right swipe with a winning roll publishes a match for the profile at
     the cursor and opens the dialog.
  2. Then the cursor advances by one. At the last profile it stays put and
     a reshuffle is scheduled instead.
  3. When a scheduled reshuffle fires, the cursor goes back to 0 and the
     deck becomes the seed list in some order, possibly the same one.

  Dismissing the dialog closes it and keeps the last match. Only the card
  at the cursor (on top) and the one after it (behind) are rendered.

Some parts are not computed by the model and are passed in instead:

- The match roll (`Math.random() > 0.4`) is a `bool` parameter.
- The awaited congratulatory message is a `string` parameter.
- The random-comparator sort is an explicit permutation of positions.
- The 500 ms deferred reshuffle is a separate step, `FireReshuffle`.

Each handler runs atomically against the state of the latest render.

Layout: `types.dfy` (profiles, match results, the three-profile seed),
`wrappers.dfy` (`Option`), `swipe_card.dfy` (gesture class, labels, timer
text), `shuffle.dfy` (rearranging by a permutation of positions),
`gemini_service.dfy` (the message fallbacks) and `app.dfy` (deck step
functions, the `DeckController` class tied to them, the render window, runs
of swipes, a worked scenario).

## Behaviour of the code worth knowing

These three facts come from the swipe handler and its deferred reshuffle
(App.tsx:40-56).

- As long as no swipe overlaps an awaited message, the cursor never
  reaches the deck length. After a swipe on the last profile it stays at
  `length - 1` until the reshuffle fires. So with a non-empty seed the
  "searching" placeholder is never drawn, and the last card stays on screen
  and can be swiped again. Each such swipe schedules one more reshuffle.
  When swipes do overlap, this no longer holds (see "## Left out").
- On a right swipe with a winning roll, the cursor moves only after the
  awaited message arrives, because the `await` comes before the cursor
  update. The match is therefore published before the cursor advances in
  the same call. A left swipe or a losing roll awaits nothing, so its
  cursor moves at once.
- On an empty deck, a right swipe with a winning roll throws when it reads
  the name of a missing profile, and changes nothing. Any other swipe on an
  empty deck schedules a reshuffle.

## Model

| member | source | states |
|---|---|---|
| SwipeCard.SwipeGesture.constructor | components/SwipeCard.tsx:13-15 | a new card is at rest: start 0, offset 0, not dragging, so the at-rest invariant holds |
| SwipeCard.SwipeGesture.Start | components/SwipeCard.tsx:59-71 | on the top card it starts a drag, overwrites the start coordinate (last writer wins) and keeps the offset; on any other card nothing changes; the at-rest invariant is kept |
| SwipeCard.SwipeGesture.Move | components/SwipeCard.tsx:73-77 | while dragging the top card the offset becomes `x - startX` whatever it was, so only the latest move matters; otherwise nothing changes |
| SwipeCard.SwipeGesture.End | components/SwipeCard.tsx:79-89 | a release emits right iff it was dragging on top with offset > 120, and left iff the offset was < -120 (so ±120 emit nothing); after such a release the card is at rest with offset 0; a release when not dragging or not on top emits nothing and changes nothing |
| SwipeCard.ShowLikeLabel | components/SwipeCard.tsx:183 | the like label is shown only while dragging more than 50 to the right, never together with the pass label, and always before a release that would emit right |
| SwipeCard.ShowNopeLabel | components/SwipeCard.tsx:188 | the pass label is shown only while dragging more than 50 to the left, and always before a release that would emit left |
| SwipeCard.Decimal | components/SwipeCard.tsx:47 | for every count the timer can reach, `String(n)` is a non-empty run of decimal digits with no leading zero |
| SwipeCard.DecimalValue | components/SwipeCard.tsx:47 | reading the decimal text of `n` back gives `n` |
| SwipeCard.DecimalLength | components/SwipeCard.tsx:47 | the decimal text has one digit below 10, two from 10 to 99, at least three from 100 |
| SwipeCard.PadStart | components/SwipeCard.tsx:47 | `padStart` gives the longer of the width and the input, ending in the input and preceded only by fill characters |
| SwipeCard.PadValue | components/SwipeCard.tsx:47 | padding with zeros keeps the number the digits denote |
| SwipeCard.SecondsField | components/SwipeCard.tsx:46-47 | the padded seconds field of a value below 60 has two digits, reads 00 to 59 and denotes the value |
| SwipeCard.FormatTime | components/SwipeCard.tsx:44-48 | the timer text ends in a colon and a seconds field that reads 00 to 59 and denotes `n mod 60`; it has exactly 5 characters iff `n < 6000` |
| SwipeCard.FormatTimeRoundTrip | components/SwipeCard.tsx:44-48 | parsing the timer text of `n` gives minutes·60 + seconds = `n` |
| SwipeCard.FormatTimeInjective | components/SwipeCard.tsx:44-48 | different second counts are displayed differently |
| Types.MockProfilesDistinct | constants.ts:8-36 | the seed has three profiles with the distinct ids '1', '2', '3' |
| Shuffle.Permute | App.tsx:55 | the reshuffled copy has the seed's length and exactly the seed's elements, each as often |
| Shuffle.PermuteMultiset | App.tsx:55 | rearranging by any permutation of positions preserves the multiset of elements |
| Shuffle.PermuteDistinct | App.tsx:55 | rearranging keeps pairwise distinct elements pairwise distinct |
| GeminiService.MatchMessage | services/geminiService.ts:14-17 | the message is never empty; non-empty generated text is used as is, empty text gives the generic message, a failure gives the templated congratulation that starts with the profile's name |
| App.Initial | App.tsx:24-27 | the view starts with the seed list, cursor 0, no visible dialog, nothing scheduled, and the deck invariant holding |
| App.SwipeStep | App.tsx:39-58 | the deck never changes; below the last profile the cursor advances by exactly one; at the last profile it stays and one reshuffle is scheduled; a left swipe or a losing roll leaves the match slot and dialog alone; a winning right swipe publishes the pre-swipe cursor's profile with the given message and shows the dialog; the cursor stays in range |
| App.ReshuffleStep | App.tsx:53-56 | firing a scheduled reshuffle sets the cursor to 0 and makes the deck a permutation of the seed (same multiset of profiles, ids rearranged by the same order); the match slot is untouched and one fewer reshuffle is pending |
| App.DialogVisible | App.tsx:118 | the match dialog is drawn only when a match has been published, and never while the dialog is closed |
| App.PlaceholderShown | App.tsx:94 | the "searching" placeholder is drawn exactly when no card is drawn |
| App.Aborts | App.tsx:40-44 | the handler stops early only on a right swipe with a winning roll; with the cursor in range, that happens exactly when the deck is empty |
| App.DismissStep | App.tsx:142 | dismissal closes and hides the dialog, keeps the last match, and touches nothing else |
| App.ReshuffleKeepsIds | App.tsx:55 | a reshuffled deck of a seed with distinct ids has distinct ids, the same multiset of them |
| App.NeverExhausted | App.tsx:94 | with a non-empty seed, every state that keeps the deck invariant has the cursor in `[0, length-1]`, so with atomic swipes the placeholder is never drawn |
| App.DismissIdempotent | App.tsx:120 | dismissing twice is the same as dismissing once |
| App.DismissThenMatch | App.tsx:43-46 | after a dismissal, the next winning right swipe shows the dialog again with the new match |
| App.SwipesVisitInOrder | App.tsx:50-51 | swipes that stay within the deck put the indices from the cursor on top in order, each once, without skips; before the last profile the cursor advances one per swipe with nothing scheduled; the swipe on the last profile leaves the cursor there and schedules one reshuffle |
| App.FullPass | App.tsx:50-56 | from cursor 0, n swipes on an n-profile deck visit each index 0..n-1 exactly once in order, end at n-1 and schedule one reshuffle |
| App.RenderFrom | App.tsx:80-92 | the cards drawn from index `i` on are exactly the existing indices in `[cursor, cursor+1]`, in order, with only the cursor's card on top |
| App.RenderWindow | App.tsx:80-92 | two cards (cursor on top, next behind) below the last profile, one top card at the last profile, none past the deck |
| App.OneTopCard | App.tsx:89 | in any state with the deck invariant and a non-empty seed, one or two cards are drawn and exactly the first, the one at the cursor, is on top |
| App.DeckController.constructor | App.tsx:24-27 | the controller starts in the initial state of its seed, with the deck invariant holding |
| App.DeckController.Swipe | App.tsx:39-58 | the swipe handler, run in place, reaches the state `SwipeStep` gives and keeps the deck invariant |
| App.DeckController.FireReshuffle | App.tsx:53-56 | the deferred reshuffle, run in place, reaches the state `ReshuffleStep` gives and keeps the deck invariant |
| App.DeckController.Dismiss | App.tsx:142 | dismissal, run in place, reaches the state `DismissStep` gives and keeps the deck invariant |
| App.ThreeProfileScenario | App.tsx:39-58 | worked scenario on the three-profile seed. A left swipe publishes nothing and moves to りな. A winning right swipe with generated text publishes りな with that text and moves to もか. A winning right swipe whose generation fails publishes もか with the templated fallback, keeps the cursor on もか and schedules a reshuffle. Firing that reshuffle returns to cursor 0 with the same profiles |

## Left out

- The match roll `Math.random() > 0.4` is a boolean parameter. Nothing is said about its probability.
- The reshuffle order from `sort(() => Math.random() - 0.5)` is an arbitrary permutation of positions, given as a parameter. Nothing is said about the distribution, which is not uniform.
- The 500 ms `setTimeout` is the separate step `FireReshuffle`. It may fire only while a reshuffle is pending. Elapsed time is not modelled.
- The awaited message generation is reduced to the message it yields, a parameter of `Swipe`. `MatchMessage` records the service's fallbacks. The network call, the prompt and the trimming of the generated text are not modelled; the text is taken as already trimmed.
- Interleaving during the `await` is not modelled. Each swipe is taken as atomic. In the code, a second swipe while a message is awaited can push the cursor to the deck length: with 3 profiles and the cursor at 1, a winning right swipe awaits holding index 1; a left swipe moves the cursor to 2; the resumed call still passes `1 < 2` and moves the cursor to 3. No card is then drawn, the "searching" placeholder appears and no reshuffle is scheduled. `NeverExhausted` and `OneTopCard` hold only for the atomic swipes of the model.
- The seconds counter is an unbounded natural number in the model; in the code it is a JavaScript number (a double). From 10^21 on `String(n)` writes exponent notation, and above 2^53 integers are no longer exact, so `Decimal`, `FormatTime` and `FormatTimeRoundTrip` describe the code only below those bounds. The counter starts at 14 and grows by one per second, so it never gets near them.
- The 1 s timer that increments the displayed seconds is not modelled. `FormatTime` is modelled on its own for non-negative counts. The counter starts at 14 and only increases, so it is never negative.
- Video playback, loading, error and retry handling are not modelled, and neither are the meteor decorations.
- The card rotation `currentX / 10` is not modelled, nor any markup or styling.
- The `time`, `videoError` and `isLoading` state of a card is not modelled.
- Touch and mouse positions are integers in the model. Fractional positions and offsets, which the browser can report (an offset of 120.5 emits right, 50.5 shows the like label), are not modelled.
