# Flashcard deck builder and study session, modelled in Dafny

This project models the client-side logic of a flashcard study application, file by file:

- `static/js/create-deck.js`, the deck-builder page. It keeps a tag list and a list of card drafts `{id, front, back}` that the page's handlers change in place. It validates the form before building the deck-creation payload. Modelled in `create_deck.dfy` as the class `DeckBuilder.DeckEditor`. Its fields `tags` and `cardsData` are reassigned by its methods. Its invariant `Valid()` says the tag list holds no empty name and no duplicate.
- `static/js/study.js`, the study page. It keeps a cursor (`currentCardIndex`) over the cards the server hands out. It loads a card list, moves the cursor after each successful review, and ends the session after the last card. A keyboard handler flips the card and rates it. Modelled in `study.dfy` as the class `Study.StudySession`, plus the pure key map `Study.RatingForKey` / `Study.KeyActionFor`. The invariant `Valid()` ties the displayed state to the cursor: a shown card is the card under the cursor, shown with its 1-based position. A completed session has a cursor at or past the end. The rating buttons are visible only beside a shown card.

Supporting modules:

- `sequences.dfy` (`Sequences`) models `Array.prototype.filter` as `Filter`. `FilterAppend` proves it keeps order: it commutes with concatenation. `FilterDropsOne` proves that filtering out a single element cuts it out. `FilterKeepsDistinct` proves it keeps a list duplicate-free. `FindIndex` models `Array.prototype.find`.
- `js_text.dfy` (`JsText`) models `String.prototype.trim`. It removes ECMAScript white space and line terminators from both ends.
- `wrappers.dfy` (`Wrappers`) holds an `Option` type for values that may be absent.

Things the browser or the user supplies are method parameters: the key pressed, the input's text, the answer to `confirm`, the server's responses, and the fresh card id.

## Model

| member | source | states |
|---|---|---|
| `Sequences.Filter` | static/js/create-deck.js:64 | the filtered array holds exactly the input's elements that pass the test, is no longer than the input, and equals it when every element passes |
| `Sequences.FilterAppend` | static/js/create-deck.js:186 | filtering keeps relative order: filter(a + b) = filter(a) + filter(b) |
| `Sequences.FilterDropsOne` | static/js/create-deck.js:186 | when exactly one element fails the test, the result is the input with that one element cut out |
| `Sequences.FilterKeepsDistinct` | static/js/create-deck.js:64 | filtering a duplicate-free array leaves it duplicate-free |
| `Sequences.FindIndex` | static/js/create-deck.js:173 | `find` yields the first position whose element passes the test, or nothing exactly when no element passes |
| `JsText.LeadingWhitespace` | static/js/create-deck.js:36 | counts the white space `trim` strips at the start: every character before the count is white space, and the one at the count is not |
| `JsText.TrailingWhitespace` | static/js/create-deck.js:36 | finds where the white space `trim` strips at the end begins: everything from there on is white space, and the character before it is not |
| `JsText.Trim` | static/js/create-deck.js:36-38 | `trim()` is empty (falsy) exactly when the input is all white space. Otherwise it is the slice from the first to the last character that is not white space, so it neither starts nor ends with white space |
| `JsText.TrimIdempotent` | static/js/create-deck.js:36-39 | trimming an already trimmed tag name changes nothing |
| `DeckBuilder.WithoutTag` | static/js/create-deck.js:64 | after filtering, the name is gone, every other tag is still present, and an absent name leaves the list as it was |
| `DeckBuilder.WithoutTagKeepsValid` | static/js/create-deck.js:61-72 | removing a tag keeps the list free of empty names and duplicates |
| `DeckBuilder.WithoutTagAt` | static/js/create-deck.js:64 | in a valid tag list, removing the tag at position i gives the list with exactly that position cut out, the rest in order |
| `DeckBuilder.WithSide` | static/js/create-deck.js:175 | `card[side] = value` sets the named side, and keeps the id and the other side |
| `DeckBuilder.FindCard` | static/js/create-deck.js:173 | the card found is the first one with the given id, and none is found exactly when no card has it |
| `DeckBuilder.WithoutCard` | static/js/create-deck.js:186 | the remaining cards are exactly those whose id differs, and an unknown id leaves the list as it was |
| `DeckBuilder.WithoutCardAt` | static/js/create-deck.js:183-192 | deleting the only card with a given id cuts out exactly that card and keeps the others in order |
| `DeckBuilder.ValidCards` | static/js/create-deck.js:220 | the valid cards are exactly the drafts whose trimmed front and back are both non-empty, and no more than the drafts |
| `DeckBuilder.Contents` | static/js/create-deck.js:247 | the payload carries one entry per valid card, with front and back untrimmed and in list order |
| `DeckBuilder.ValidCardsInOrder` | static/js/create-deck.js:220 | the valid cards, and the payload entries built from them, keep the order in which the drafts were entered: those of earlier drafts come first |
| `DeckBuilder.ContentsAppend` | static/js/create-deck.js:247 | the payload entries of two draft lists in a row are those of each list in turn |
| `DeckBuilder.DeckEditor.constructor` | static/js/create-deck.js:11-13 | the page starts with no tags and, from the `addNewCard()` call on load (line 325), exactly one empty card draft |
| `DeckBuilder.DeckEditor.AddTag` | static/js/create-deck.js:48-58 | a non-empty name not already present is appended at the end; an empty or duplicate name leaves the list unchanged; the tag invariant is kept and the cards are untouched |
| `DeckBuilder.DeckEditor.OnTagInputKey` | static/js/create-deck.js:32-43 | any key but Enter, or a blank input, changes nothing; otherwise the trimmed name is added unless already present, and the input is cleared even for a duplicate |
| `DeckBuilder.DeckEditor.RemoveTag` | static/js/create-deck.js:61-73 | every tag equal to the name is removed and the others are kept in order; the invariant holds and the cards are untouched |
| `DeckBuilder.DeckEditor.AddNewCard` | static/js/create-deck.js:112-119 | exactly one draft with the given id and texts is appended at the end; the existing drafts and the tags are untouched |
| `DeckBuilder.DeckEditor.UpdateCardData` | static/js/create-deck.js:171-180 | only the named side of the first draft with that id changes; an unknown id changes nothing; the list length and tags are unchanged |
| `DeckBuilder.DeckEditor.DeleteCard` | static/js/create-deck.js:183-193 | the drafts with that id are removed and the others are kept in order; no remaining draft has the id |
| `DeckBuilder.DeckEditor.SubmitDeckData` | static/js/create-deck.js:209-248 | aborts exactly when the trimmed name is blank, when drafts exist but none is complete, or when some are incomplete and the user declines. Otherwise the payload has the trimmed name and description, the tag list as it is, and the complete cards in order. An empty card list is allowed |
| `Study.RatingForKey` | static/js/study.js:231-234 | a key selects a rating exactly when it is one of that rating's keys: `1`/`h`/`H` hard, `2`/`g`/`G` good, `3`/`e`/`E` easy; any other key selects nothing |
| `Study.KeyActionFor` | static/js/study.js:225-241 | keys typed into an INPUT or TEXTAREA are ignored; space toggles the flip; a rating key rates only when the card is flipped, and only with one of its own keys |
| `Study.StudySession.constructor` | static/js/study.js:12-14 | a session starts with no cards, cursor 0, the card unflipped, the controls hidden and the "Loading" display |
| `Study.StudySession.LoadCard` | static/js/study.js:102-109 | showing a card unflips it, stores its flashcard id and shows "Card cursor+1 of n" with its texts; the cursor and the list are unchanged |
| `Study.StudySession.FetchStudyCards` | static/js/study.js:40-79 | a successful answer replaces the card list. If the list is non-empty, the cursor goes to 0 and the first card is shown with the controls. If it is empty, "0 cards" is shown with the controls hidden. A 401 redirects to login. Every other failure shows an error and hides the controls, with cursor and list unchanged |
| `Study.StudySession.ToggleFlipped` | static/js/study.js:111 | a click on the card flips it and changes nothing else |
| `Study.StudySession.SubmitReview` | static/js/study.js:130-177 | a successful review moves the cursor up by exactly one. It then shows the card at the cursor if cursor < n, or "Completed n cards!" with the controls hidden otherwise. A failed or thrown request leaves cursor and display unchanged. The display invariant is kept |
| `Study.StudySession.OnRatingClick` | static/js/study.js:113-128 | with a missing flashcard id or rating nothing is sent and nothing changes. Otherwise the stored id and the rating are sent, and the answer has exactly the effect SubmitReview states: the next card or the completion message after a success, every field unchanged after a failure |
| `Study.StudySession.OnKeyDown` | static/js/study.js:225-242 | ignored keys change nothing; space only toggles the flip; a rating key with no stored flashcard id sends nothing and changes nothing. A rating key on a flipped card sends that rating for the stored id, with the effect SubmitReview states for the answer. Nothing is sent unless the card was flipped |

## Left out

- The spaced-repetition scheduler is not part of this model. It chooses due cards and updates interval, ease and stage after each rating. Its server code (the `/api/study/session` and `/api/study/review` endpoints) is not among the modelled files. The model treats the server's answers as inputs.
- `app.py` is not part of this model. It is page routing, signup and login over Flask, MySQL and password hashing: all I/O and foreign calls.
- `static/js/dashboard.js`, `static/js/profile.js` and `static/js/results.js` are not part of this model. They are DOM construction, fetch calls, timers and a chart.
- `escapeHtml` is not modelled. As written, each replacement maps a character to itself, so it returns its input unchanged.
- Rendering is not modelled: `renderTagsDisplay`, `renderCardInputs` and the HTML the study page writes. This includes how a tag containing a double quote is written into its remove button's `data-tag-name` attribute; `RemoveTag` takes the name the button supplies.
- The card id is a parameter. The source builds it from `Date.now()` and `Math.random()`.
- `alert`, `confirm` and `focus` are not modelled as calls. The answer to `confirm` is a parameter of `SubmitDeckData`.
- The deck-creation request and everything after the payload is built (create-deck.js lines 252-320) is network I/O and is not modelled.
- The progress-bar width (study.js line 107) is a floating-point percentage and is not modelled.
- `fetchDeckName`, `populateDeckSelector` and the deck selector's change handler only set a title, fill a drop-down or navigate. They are not modelled.
- The page opened without a deck id is not modelled; it only displays a prompt.
- Disabling the rating buttons while a review is in flight is not modelled. It only matters for concurrent clicks, and the handlers are modelled as running one at a time.
- `Study.StudySession.SubmitReview`: the cursor has no upper bound. The card element keeps the last flashcard id after completion, and a keyboard rating clicks the hidden button. So space and then a rating key send another review of the last card and move the cursor past the end (see `Study.TwoCardScenario`).
- `DeckBuilder.DeckEditor.UpdateCardData` and `DeckBuilder.Side`: the edited side is `"front"` or `"back"`, the only `data-side` values the page renders. Writing any other property name is not modelled.
- Card drafts are modelled as values. `card[side] = value` on the shared object becomes replacing the list element. No other reference to a draft outlives the handler, so the difference cannot be observed.
- Strings are sequences of Unicode scalar values, not UTF-16 code units. `trim` uses ECMAScript's white-space set over them.
