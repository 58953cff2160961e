# Next Page book tracker — a Dafny model of its state handlers

Next Page is a single-page React component for tracking reading. Its logic is
a small state machine over five pieces of component state:

- `books`, the books the user has read;
- `readingList`, the books the user means to read;
- `title`, `author` and `rating`, the fields of the "Add Books You've Read" form.

Event handlers replace these values:

- `addBook` appends a new read book built from the form, unless the title is
  blank, and then resets the form.
- `addToReadingList` appends a book to the reading list.
- `removeBook` and `removeFromList` filter out every entry with a given id.
- The star picker and the two text inputs set the form fields.

Two pure helpers draw ratings. `renderStars` draws a rating as five stars. A
nested conditional picks the caption shown under the star picker.

The model has four modules:

- `Text` (`text.dfy`): JavaScript's `String.prototype.trim` over the ECMAScript
  whitespace set, and the blank-title test `!title.trim()`.
- `Books` (`books.dfy`): the book record, the author default, the id filter
  used by both remove handlers, and the invariant every read book satisfies.
- `Rating` (`rating.dfy`): the rating caption and `renderStars`. The
  `RangeError` that `String.prototype.repeat` throws for a negative count is
  modelled as a `Failure` result.
- `App` (`app.dfy`): the class `SimpleApp`. It holds the five state fields,
  with one method per handler. Its object invariant `Valid()` says the rating
  is a whole number of stars from 1 to 5 and every read book came through the
  form.

`Date.now()`, which supplies a new book's id, is a clock read. It is the
parameter `id` of `AddBook`.

The component has no cross-collection uniqueness of ids, no move between the
two lists, and no duplicate check: adding a book whose id is already on the
reading list appends a second entry (`AddToReadingList`, `CountIdAppend`). The
star picker produces only the whole ratings 1 to 5, not half steps. The
caption conditional sends negative numbers to "Hated it", not only those in
(0, 1.5]. The title stored by `addBook` is the title as typed; only the blank
test trims it.

## Model

| member | source | states |
|---|---|---|
| Text.SkipLeading | src/SimpleApp.js:12 | leading scan of `trim`: every position passed over is whitespace and the position it stops at (if any) is not |
| Text.SkipTrailing | src/SimpleApp.js:12 | trailing scan of `trim`: every position dropped from the end is whitespace and the last kept position (if any) is not |
| Text.Trim | src/SimpleApp.js:12 | `title.trim()` is the contiguous slice left once the whitespace at both ends is removed; every character outside it is whitespace; a non-empty result starts and ends with a non-whitespace character |
| Text.IsBlank | src/SimpleApp.js:12 | the `addBook` guard holds exactly when every character of the title is whitespace, the empty title included |
| Books.AuthorOrDefault | src/SimpleApp.js:17 | `author \|\| 'Unknown Author'`: never empty; a non-empty author is kept as typed (even only spaces); the empty author becomes "Unknown Author" |
| Books.NewReadBook | src/SimpleApp.js:14-20 | the object literal `addBook` appends: the given id, the title as typed, the author as typed when non-empty and "Unknown Author" when empty, genre "Unknown", the form's rating, no description; from a non-blank title and a 1..5 rating it satisfies the read-book invariant |
| Books.AppendReadBook | src/SimpleApp.js:14 | appending such a book to the read books keeps the invariant for the whole list |
| Books.WithoutId | src/SimpleApp.js:34 | `filter(book => book.id !== id)`: an entry is in the result exactly when it was in the input with a different id; never longer than the input |
| Books.WithoutIdConcat | src/SimpleApp.js:34 | filtering distributes over concatenation, so kept entries keep their relative order |
| Books.WithoutIdCount | src/SimpleApp.js:33-40 | the result is shorter by exactly the number of entries carrying the id, and none is left |
| Books.WithoutIdKeepsOthers | src/SimpleApp.js:33-40 | every entry with another id keeps its multiplicity |
| Books.WithoutAbsentId | src/SimpleApp.js:33-40 | removing an id that no entry carries returns the list unchanged |
| Books.WithoutIdIdempotent | src/SimpleApp.js:33-40 | removing the same id twice equals removing it once |
| Books.WithoutIdCommutes | src/SimpleApp.js:33-40 | removals of two ids give the same list in either order |
| Books.CountIdAppend | src/SimpleApp.js:28-30 | appending a book raises the count of its id by one even when the id is already present (no duplicate check) |
| Books.WithoutIdKeepsReadBooks | src/SimpleApp.js:33-35 | removing by id keeps the read-book invariant |
| Rating.RatingLabel | src/SimpleApp.js:124-128 | the caption conditional is total: every number gets one of the six captions |
| Rating.RatingLabelBands | src/SimpleApp.js:124-128 | each caption is chosen for exactly one range (both directions): 0; nonzero up to 1.5; (1.5, 2.5]; (2.5, 3.5]; (3.5, 4.5]; above 4.5; each threshold belongs to the lower caption |
| Rating.RatingLabelMonotone | src/SimpleApp.js:124-128 | for non-negative ratings a higher rating never gets a worse caption |
| Rating.StarCaption | src/SimpleApp.js:124-128 | whole ratings 1..5 get the five distinct captions "Hated it" … "Loved it", in order |
| Rating.Repeat | src/SimpleApp.js:69 | `c.repeat(n)` has length n and holds only c |
| Rating.RenderStars | src/SimpleApp.js:68-70 | succeeds exactly for 0 <= r <= 5 (otherwise `repeat` throws RangeError); on success, five characters, position i filled iff i < r |
| Rating.StarsShowRating | src/SimpleApp.js:68-70 | the picture has exactly r filled stars and 5 - r empty ones |
| Rating.StarsInjective | src/SimpleApp.js:68-70 | different ratings in 0..5 are drawn differently |
| App.ShelfStars | src/SimpleApp.js:185-191 | one picture per read book, in order, each exactly the successful result of `renderStars(book.rating)`, so drawing the shelf never throws |
| App.ShelfStarsShowRatings | src/SimpleApp.js:185-191 | every picture on the shelf is five characters and shows as many filled stars as its book's rating |
| App.SimpleApp.ValidShelfIsStarRated | src/SimpleApp.js:191 | in every reachable state each read book's rating is a whole number from 1 to 5, so `renderStars(book.rating)` never throws for the shelf |
| App.SimpleApp.constructor | src/SimpleApp.js:4-8 | initial state: both lists empty, blank title and author, rating 5; invariant holds |
| App.SimpleApp.SetTitle | src/SimpleApp.js:91 | sets the title only; everything else unchanged |
| App.SimpleApp.SetAuthor | src/SimpleApp.js:102 | sets the author only; everything else unchanged |
| App.SimpleApp.PickStar | src/SimpleApp.js:111-116 | star k (1..5) sets the rating to k; the rating stays in 1..5; nothing else changes |
| App.SimpleApp.RatingCaption | src/SimpleApp.js:124-128 | under the invariant the caption shown under the picker is the k-th caption for rating k, never "No rating" |
| App.SimpleApp.AddBook | src/SimpleApp.js:11-25 | blank title: no field changes. Otherwise: exactly one book appended after the unchanged earlier books (title as typed, author or "Unknown Author", genre "Unknown", current rating, given id); reading list untouched; form reset to "", "", 5; invariant kept |
| App.SimpleApp.AddToReadingList | src/SimpleApp.js:28-30 | reading list becomes the old list plus the book at the end; count of its id grows by one; nothing else changes |
| App.SimpleApp.RemoveBook | src/SimpleApp.js:33-35 | read books become the id-filtered list; no entry with that id remains; an absent id changes nothing; reading list and form unchanged; invariant kept |
| App.SimpleApp.RemoveFromList | src/SimpleApp.js:38-40 | reading list becomes the id-filtered list; no entry with that id remains; an absent id changes nothing; read books and form unchanged |

## Left out

- The JSX markup, CSS classes and the React `useState` machinery (src/SimpleApp.js:77-270). State is plain fields, and each handler is one sequential step that sees the latest state; React's batching of updates and stale closures are not modelled.
- The gold/gray colouring of the picker's stars (src/SimpleApp.js:115). It is styling only.
- `Date.now()` id generation (src/SimpleApp.js:15) is a clock read; the id is a parameter, and nothing makes ids unique.
- `averageRating` (src/SimpleApp.js:73-75) uses floating-point division and `toFixed(1)` formatting.
- The static sample `recommendations` array (src/SimpleApp.js:43-65) is display data with no logic; its entries reach the model only as the `book` argument of `AddToReadingList`.
- The buttons without handlers ("I've Read This", "Why this book?", "Buy on Amazon") and the constant "Top Genre: N/A" have no behaviour.
- The recommendation engine, feedback toggling, local-storage persistence, catalogue search and move-between-lists semantics are not implemented by this component, so they are not modelled.
- Rating.RatingLabel: the argument is a real number; JavaScript's NaN and the infinities are not modelled.
- Rating.RenderStars: models integer ratings only. `repeat` truncates a fractional count, but every rating the component stores is a whole number.
- Strings are sequences of Unicode scalar values rather than UTF-16 code units. This makes no difference to `trim`, whose whitespace characters all lie in the Basic Multilingual Plane.
