# Quizzical session controller in Dafny

This project models the logic of the React component `App` of Quizzical, a
client-side trivia quiz. It covers:

- the in-place Durstenfeld (Fisher–Yates) `shuffle` of a question's answers;
- the normalisation of the trivia API's response into five question records;
- the category switch `triviaCategorySelection`, which maps a menu label to a request URL;
- the session flags `gameStart`, `playAgain` and `triviaCategory`, changed by
  `returnToMainMenu`, by the play-again callback and by the completion of the question fetch;
- the dark-mode preference kept under the `localStorage` key `"darkMode"`.

Modules, one per concern of `src/App.js`:

- `Wrappers` (`wrappers.dfy`): `Option`, standing for JavaScript's `undefined`.
- `Shuffling` (`shuffling.dfy`): `Math.random()` is a caller-supplied rational
  `num / den` in [0, 1). `Pick` is `Math.floor(random * (i + 1))`.
  `ShuffleSteps`/`Shuffled` are the loop as a function. `Shuffle` is the in-place method on an `array`.
- `Questions` (`questions.dfy`): the raw record, the question record, and the
  normalisation loop `NormaliseResponse` with its per-question step `BuildQuestion`.
  An index past the end of `incorrectAnswers` yields `undefined` (`None`), as
  it does in JavaScript.
- `Categories` (`categories.dfy`): the seven request URLs and `CategoryUrl`.
- `Preferences` (`preferences.dfy`): loading and toggling the stored value.
- `App` (`session.dfy`): the class `Session`, one field per React state
  variable plus the stored preference, and the handlers as methods.

The question-fetching effect depends on the pair `(triviaCategory, playAgain)`.
Each handler that can change the pair returns `refetch`, which is true exactly
when it did; `SetMemoryDarkMode` leaves the pair as it is.
The request the effect then issues is `CurrentRequest()`: the URL plus the
`playAgain` value its completion callback captures. `FetchCompleted(request,
records, draws)` is that callback. The environment calls it with the decoded
response and with the random draws, for any request and in any order.

Behaviour of the code worth noting:

- An unrecognised label leaves the category alone and still sets `playAgain`
  to true, so the effect reruns when `playAgain` was false (`src/App.js:98-101`).
- The play-again callback only appends a space to the category and leaves
  `playAgain` as it is (`src/App.js:144`).
- `returnToMainMenu` negates `playAgain` (`src/App.js:122`).
- A record with fewer than three incorrect answers puts `undefined` among the
  shuffled answers (`src/App.js:33`).

## Model

| member | source | states |
|---|---|---|
| `Shuffling.Pick` | src/App.js:59 | the drawn index `floor(random * n)` lies in [0, n), so `a[j]` is in bounds |
| `Shuffling.PickIsFloor` | src/App.js:59 | the drawn index is the floor of (num / den) · n: `j·den <= num·n < (j+1)·den` |
| `Shuffling.Swap` | src/App.js:60-62 | the exchange puts `s[j]` at i and `s[i]` at j and leaves every other position and the length alone |
| `Shuffling.SwapPermutes` | src/App.js:60-62 | the three-assignment exchange keeps length and multiset |
| `Shuffling.ShuffleSteps` | src/App.js:58-63 | the loop from position i down to 1 keeps the length |
| `Shuffling.Shuffled` | src/App.js:56-65 | the whole loop as a function: keeps the length; permutation in `ShuffledPermutes`, last position in `ShuffledLast` |
| `Shuffling.ShuffleStepsPermutes` | src/App.js:58-63 | the loop from position i down to 1 yields a permutation of its input |
| `Shuffling.ShuffledPermutes` | src/App.js:56-65 | `shuffle` yields a permutation: same length, same multiset |
| `Shuffling.ShuffleStepsKeepsAbove` | src/App.js:58-63 | the iterations at positions i and below never touch a position above i |
| `Shuffling.ShuffleStepsFixesPosition` | src/App.js:58-63 | after the iteration at position i, position i keeps for good the element drawn from [0, i] |
| `Shuffling.ShuffledLast` | src/App.js:56-65 | the last element of the result is the one the first draw picks |
| `Shuffling.Shuffle` | src/App.js:56-65 | the in-place loop stays in bounds, and the array ends as `Shuffled` of its old contents, a permutation of them |
| `Questions.ElementAt` | src/App.js:33 | `incorrectAnswers[k]` is undefined exactly when k is past the end, and the element at k otherwise |
| `Questions.Candidates` | src/App.js:33 | the array handed to `shuffle` has four entries, the correct answer first; entry k (1 to 3) is `incorrectAnswers[k-1]`, undefined exactly when fewer than k incorrect answers exist |
| `Questions.MakeQuestion` | src/App.js:28-34 | the pushed record is a question numbered i with four answers; the rest in `MakeQuestionWellFormed` |
| `Questions.MakeQuestionWellFormed` | src/App.js:28-34 | question i has number i and copies the record's text, correct answer and incorrect answers; its four answers are a permutation of `[correct, inc[0], inc[1], inc[2]]` |
| `Questions.FullRecordAnswers` | src/App.js:33 | a well-formed question with at least three incorrect answers shows exactly the correct one and the first three incorrect ones, none undefined |
| `Questions.ParisRecordAnswers` | src/App.js:28-34 | a record with correct answer "Paris" and incorrect answers "Rome", "Berlin", "Madrid" yields exactly those four answers, whatever the draws |
| `Questions.Normalised` | src/App.js:24-35 | the first n questions of the batch number exactly n |
| `Questions.NormalisedAt` | src/App.js:24-35 | question k of the batch is built from record k with the draws of its shuffle, so it is numbered k |
| `Questions.NormalisedWellFormed` | src/App.js:24-35 | a batch of five built from five records is well-formed |
| `Questions.BuildQuestion` | src/App.js:28-34 | one push: a fresh answer array shuffled in place gives exactly `MakeQuestion`, a well-formed question |
| `Questions.NormaliseResponse` | src/App.js:24-35 | no batch iff fewer than five records; otherwise the loop's pushes give exactly `Normalised` of the first five records, a well-formed batch |
| `Categories.CategoryUrl` | src/App.js:69-100 | a label resolves to a URL iff it is one of the seven labels of the switch; every URL is the endpoint followed by a non-empty query, and ends in a query value, not a space |
| `Categories.LeadingLimitUrls` | src/App.js:72-84 | the easy, medium, hard and 80's URLs open their query with `limit=5&` |
| `Categories.TrailingLimitUrls` | src/App.js:88-96 | the music, film and sport URLs end with `limit=5` |
| `Categories.CategoryUrlRequestsBatch` | src/App.js:70-97 | every resolved URL is a questions-endpoint URL carrying `limit=5` as a whole parameter (followed by `&` or the end), so it asks for exactly five questions |
| `Categories.DifficultyLabelsRequestDifficulty` | src/App.js:70-81 | "easy", "medium" and "hard" request `difficulty=easy`, `difficulty=medium` and `difficulty=hard` |
| `Categories.CategoryUrlInjective` | src/App.js:69-97 | distinct labels resolve to distinct URLs |
| `Preferences.LoadDarkMode` | src/App.js:7 | definition: dark mode is on exactly when the store holds "dark"; properties in `Toggled` and `ToggleTwice` |
| `Preferences.Toggled` | src/App.js:109-116 | a toggle always stores "dark" or "light", and loading the store afterwards gives the opposite mode |
| `Preferences.ToggleTwice` | src/App.js:108-117 | toggling twice restores "dark" or "light"; an absent or other value ends as "light" |
| `App.JsText` | src/App.js:144 | definition: the string form of the category, "undefined" while none is chosen; used by `ReplaySameCategory` |
| `App.TrimTrailingSpaces` | src/App.js:125-128 | the URL a target denotes is the target with its trailing spaces removed: a prefix with no trailing space, followed in the target only by spaces |
| `App.AppendedSpacesDenoteSameUrl` | src/App.js:125-128 | appending any number of spaces to a target does not change the URL it denotes |
| `App.ReplayedCategoryDenotesItsUrl` | src/App.js:144 | after any number of play-agains, a category URL still denotes exactly itself |
| `App.Session.constructor` | src/App.js:7-15 | initial state: darkMode is whether the store holds "dark"; category undefined, playAgain true, gameStart false, placeholder question |
| `App.Session.TriviaCategorySelection` | src/App.js:68-102 | a known label sets the category to its URL, an unknown one leaves it; playAgain becomes true; nothing else changes; refetch iff the dependency pair changed |
| `App.Session.SetMemoryDarkMode` | src/App.js:108-117 | the store takes `Toggled` of its old value, darkMode flips and keeps agreeing with the store, nothing else changes |
| `App.Session.ReturnToMainMenu` | src/App.js:120-123 | gameStart false at once, playAgain negated, so the effect reruns with autoStart equal to the negated old playAgain |
| `App.Session.ReplaySameCategory` | src/App.js:144 | the category becomes its string form plus a space: it differs, has the old value as prefix and denotes the same URL; the effect reruns; nothing else changes |
| `App.Session.FetchCompleted` | src/App.js:23-38 | with at least five records the questions are replaced wholesale by the normalised batch and gameStart becomes the captured playAgain (the current one for the current request); otherwise nothing changes |
| `App.SelectPlayReturnScenario` | src/App.js:18-123 | a scenario run from a fresh session: selecting "medium" and completing its request starts the game; returning to the menu and completing the background request leaves the title screen; reselecting "medium" issues a request that starts the game |

## Left out

- `fetch` and `res.json()` (`src/App.js:19-22`) are network I/O. The decoded
  records are a parameter of `FetchCompleted`. A failed request is a completion
  that never happens.
- The race between concurrent fetches is not modelled as such. The environment
  may complete any issued request at any time, and nothing is proved about the
  order of completions.
- Records are taken as already decoded into `RawRecord`. A response element
  without `incorrectAnswers`, or with fields that are not strings, is not
  modelled. The fields the app only logs (`difficulty`, `tags`) are left out.
- `console.log` calls (`src/App.js:26-27`, `71-96`) are diagnostic output only.
- The DOM styling effect (`src/App.js:42-53`) is a presentation side effect.
- Rendering (`src/App.js:130-152`) and the components `TitleScreen` and `QuestionMain`
  are not part of this model. Which screen offers which handler (title screen
  versus question screen) is not enforced on the methods.
- React's hooks are replaced by fields and the `refetch` result. The batching of
  state updates and the `Object.is` comparison of dependencies appear as value
  equality of the pair before and after a handler.
- `Math.random()` is an exact rational in [0, 1). Floating-point rounding of
  `random * (i + 1)` is not modelled, and neither is the uniform distribution
  of the shuffle.
- Each question's shuffle consumes its own sequence of draws. The interleaving
  of `Math.random()` calls across the five questions is not modelled.
- `Shuffling.Shuffle`, `Questions.NormaliseResponse` and `App.Session.FetchCompleted`
  require enough draws for every loop position. The source's random source never runs out.
