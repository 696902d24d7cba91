# Flashcard viewer: navigation store and vocabulary loader

A vocabulary flashcard viewer. At start-up it loads a text file with one entry
per line, written like `word [12]: ["meaning one", "meaning two"]`. It keeps
the cards and the navigation state in a small store, and the user moves
through the cards with buttons, a 1-based jump field and the keys
ArrowRight, ArrowLeft, Enter and Ctrl/Meta+S.

The model has five modules:

- `FlashcardStore` (`flashcard_store.dfy`) is the store.
  - It has six fields: `cards`, `currentIndex`, `showAnswer`, `indexInput`, `isShuffled` and `alwaysShowAnswer`.
  - Each action is a pure transition on a `StoreState` value (`AfterNext`, `AfterPrev`, `AfterGoTo`, …), and lemmas reason about these transitions.
  - The class `Store` holds the same fields and has one `modifies this` method per action. Each method is proved to perform its transition.
  - JavaScript's truncating `%` is `JsRemainder`.
  - The value returned by `Math.random()` is a parameter `u` in [0, 1).
- `JsStrings` (`js_strings.dfy`) holds the JavaScript string semantics the loader and the key handler use:
  - the white-space set behind `\s` and `trim()`, and the line terminators that `.` does not match;
  - `trim()`;
  - `split` on one character, with `Join` as its inverse;
  - `toLowerCase()` on ASCII letters.
- `VocabParser` (`vocab_parser.dfy`) is the loader's text pipeline.
  - Trim the file, split it on `"\n"`, match each line against `^(.*?)\[(\d+)]\s*:\s*(\[.*])`, and build a card from each matching line.
  - The regular expression is a computation (`Match`) and a declarative description (the ghost predicates `Shape`, `MatchesAt` and `Best`). The two are proved to agree.
  - A match has the shortest group 1 (lazy) and then the longest group 3 (greedy, which backtracks to the last `]`).
  - `eval` of the meanings literal is a parameter `string -> Option<seq<string>>`, where `None` stands for an evaluation that throws.
- `VocabSample` (`vocab_sample.dfy`) works the parser through a three-line file, by proof.
- `FlashcardView` (`flashcard_view.dfy`) is the component logic around the store:
  - the key dispatch of `handleKeyDown`;
  - the ±1 conversion of the 1-based jump field;
  - the step that loads the parsed cards into the store.

Two behaviours of the code are modelled as written, although a tidier design would differ:

- `setCards` replaces only `cards`. It does not reset the index, the staged input or the reveal flag.
- `nextCard` and `prevCard` on an empty list are not no-ops: the code divides by zero.

## Model

| member | source | states |
|---|---|---|
| FlashcardStore.Store.constructor | src/app/store/flashcardStore.ts:29-35 | the initial store: no cards, index 0, staged input 0, every flag false |
| FlashcardStore.Store.SetCards | src/app/store/flashcardStore.ts:37 | replaces the cards and leaves the other five fields unchanged, the index included, so an index on a card stays on one exactly when it is below the new length |
| FlashcardStore.Store.SetCurrentIndex | src/app/store/flashcardStore.ts:38 | stores any index, unchecked, and changes nothing else |
| FlashcardStore.Store.SetShowAnswer | src/app/store/flashcardStore.ts:39 | sets the reveal flag and changes nothing else |
| FlashcardStore.Store.SetIndexInput | src/app/store/flashcardStore.ts:40 | stages any integer, negative or past the end, and changes nothing else |
| FlashcardStore.Store.NextCard | src/app/store/flashcardStore.ts:42-52 | performs `AfterNext` for the draw `u`, and keeps the current index on a card |
| FlashcardStore.Store.PrevCard | src/app/store/flashcardStore.ts:54-62 | performs `AfterPrev`, and keeps the current index on a card |
| FlashcardStore.Store.ToggleShuffle | src/app/store/flashcardStore.ts:64-66 | flips shuffle mode and nothing else |
| FlashcardStore.Store.ToggleShowAnswer | src/app/store/flashcardStore.ts:68-70 | flips the reveal flag and nothing else |
| FlashcardStore.Store.ToggleAlwaysShowAnswer | src/app/store/flashcardStore.ts:72-80 | flips always-show and sets the reveal flag to its new value |
| FlashcardStore.Store.GoToIndex | src/app/store/flashcardStore.ts:82-90 | performs `AfterGoTo`, and keeps the current index on a card |
| FlashcardStore.JsRemainder | src/app/store/flashcardStore.ts:46 | JavaScript `%` for a positive divisor lies strictly between `-n` and `n`; it is Euclidean for non-negative dividends and never positive for non-positive ones |
| FlashcardStore.JsRemainderNegates | src/app/store/flashcardStore.ts:56 | the truncated remainder is odd in its dividend, the property that separates it from Dafny's `%` |
| FlashcardStore.RandomIndex | src/app/store/flashcardStore.ts:45 | `Math.floor(Math.random() * n)` is an index in `[0, n)`, and 0 when there are no cards |
| FlashcardStore.RandomIndexReaches | src/app/store/flashcardStore.ts:45 | every index in `[0, n)` is the pick for some draw |
| FlashcardStore.NextIndex | src/app/store/flashcardStore.ts:44-46 | the index `nextCard` picks: a card when shuffled over a non-empty list, 0 when shuffled over none, and with shuffle off a card whenever the index is at least -1 |
| FlashcardStore.AfterNext | src/app/store/flashcardStore.ts:42-52 | `nextCard` keeps the cards, shuffle mode and always-show, stages the new index, sets the reveal flag to always-show, and lands on a card when shuffled over a non-empty list or when the index was on a card |
| FlashcardStore.PrevIndex | src/app/store/flashcardStore.ts:56 | the index `prevCard` picks is a card whenever the index is at least `1 - |cards|` |
| FlashcardStore.AfterPrev | src/app/store/flashcardStore.ts:54-62 | `prevCard` keeps the cards, shuffle mode and always-show, stages the new index, sets the reveal flag to always-show, and keeps an index on a card |
| FlashcardStore.AfterGoTo | src/app/store/flashcardStore.ts:82-90 | `goToIndex` keeps the cards, the staged value and both settings; a staged value naming a card becomes the current index, and an index on a card stays on one |
| FlashcardStore.AfterToggleShuffle | src/app/store/flashcardStore.ts:64-66 | the shuffle flag is flipped and every other field is as before |
| FlashcardStore.AfterToggleShowAnswer | src/app/store/flashcardStore.ts:68-70 | the reveal flag is flipped and every other field is as before |
| FlashcardStore.AfterToggleAlwaysShowAnswer | src/app/store/flashcardStore.ts:72-80 | always-show is flipped, the reveal flag equals its new value, and the other four fields are as before |
| FlashcardStore.NextSequential | src/app/store/flashcardStore.ts:42-52 | with shuffle off and the index on a card, `nextCard` moves to the next card, wrapping from the last card to 0. It also stages that index, applies always-show, and changes nothing else |
| FlashcardStore.NextShuffled | src/app/store/flashcardStore.ts:44-45 | with shuffle on, the pick is any card, possibly the present one. With one card (or none) it is 0. The staged index and the reveal flag follow, and nothing else changes |
| FlashcardStore.NextShuffledReachesEvery | src/app/store/flashcardStore.ts:44-45 | with shuffle on, every card, the present one included, can come next |
| FlashcardStore.PrevSequential | src/app/store/flashcardStore.ts:54-62 | `prevCard` moves one card back, wrapping from 0 to the last card. It also stages that index, applies always-show, and changes nothing else |
| FlashcardStore.PrevIgnoresShuffle | src/app/store/flashcardStore.ts:54-62 | `prevCard` behaves the same with shuffle on or off |
| FlashcardStore.NextAfterPrev | src/app/store/flashcardStore.ts:42-62 | with shuffle off, `prevCard` then `nextCard` returns to the original card |
| FlashcardStore.PrevAfterNext | src/app/store/flashcardStore.ts:42-62 | with shuffle off, `nextCard` then `prevCard` returns to the original card |
| FlashcardStore.NavigationKeepsIndexInRange | src/app/store/flashcardStore.ts:42-90 | `nextCard`, `prevCard` and `goToIndex` keep `0 <= currentIndex < |cards|` |
| FlashcardStore.NextRepairsIndex | src/app/store/flashcardStore.ts:46 | with shuffle off, `nextCard` brings an index left past the end (after `setCards` shortened the list) back on a card |
| FlashcardStore.GoToCommitsOnlyValidInput | src/app/store/flashcardStore.ts:82-90 | an in-range staged index becomes the current index and applies always-show. Any other staged value changes nothing. The staged value stays as it was in both cases |
| FlashcardStore.AlwaysShowAnswerPolicy | src/app/store/flashcardStore.ts:72-80 | toggling always-show reveals or hides the present card at once, and every following `nextCard` or `prevCard` follows the new setting |
| FlashcardStore.NavigationAppliesRevealPolicy | src/app/store/flashcardStore.ts:42-90 | whatever was revealed before, navigation sets the reveal flag to always-show |
| FlashcardStore.TogglesFlipOneFlag | src/app/store/flashcardStore.ts:64-80 | the shuffle and reveal toggles flip only their own flag, and doing one twice restores the store. Doing always-show twice restores the setting and leaves the reveal flag equal to it |
| JsStrings.IsSpace | src/app/Components/flashcard.tsx:42 | the `\s` class (ECMAScript WhiteSpace and LineTerminator), also the set `trim()` strips at line 33; it holds no digit, `[`, `]` or `:` |
| JsStrings.IsLineTerminator | src/app/Components/flashcard.tsx:42 | the characters `.` does not match; each is white space |
| JsStrings.IsDigit | src/app/Components/flashcard.tsx:42 | the `\d` class, ASCII digits only; no digit is white space or a line terminator |
| JsStrings.Lead | src/app/Components/flashcard.tsx:33 | the leading white space `trim()` removes: all white space, and followed by a non-space |
| JsStrings.TrimEnd | src/app/Components/flashcard.tsx:33 | a prefix, followed only by white space, that does not end in white space |
| JsStrings.Trim | src/app/Components/flashcard.tsx:33 | `trim()` gives the piece of the text between its leading and trailing white space. The piece neither starts nor ends with white space |
| JsStrings.TrimEmpty | src/app/Components/flashcard.tsx:33 | the trim is empty exactly when the text is all white space |
| JsStrings.TrimUnchanged | src/app/Components/flashcard.tsx:45 | text with no white space at either end is its own trim |
| JsStrings.Split | src/app/Components/flashcard.tsx:33 | `split("\n")` gives at least one piece, and no piece contains the separator |
| JsStrings.JoinSplit | src/app/Components/flashcard.tsx:33 | joining the pieces with the separator gives back the text |
| JsStrings.SplitJoin | src/app/Components/flashcard.tsx:33 | splitting the join of separator-free pieces gives back the pieces |
| JsStrings.LowerChar | src/app/Components/flashcard.tsx:79 | one character of `toLowerCase()` on ASCII: no capital A-Z is left, and a changed character was a capital that became its small letter |
| JsStrings.ToLower | src/app/Components/flashcard.tsx:79 | `toLowerCase()` keeps the length and lower-cases each character on its own |
| JsStrings.LowerIsS | src/app/Components/flashcard.tsx:79 | a key lower-cases to `"s"` exactly when it is `s` or `S` |
| VocabParser.RunEnd | src/app/Components/flashcard.tsx:42 | the greedy scan behind `\d+`, `\s*` and `.*`: every character from the start to the result is in the class, and the result is the end of the line or a character outside it |
| VocabParser.LastIndexIn | src/app/Components/flashcard.tsx:42 | the greedy `.*` backtracks to the last `]` before the end of the run: the largest such index, or none |
| VocabParser.MatchTail | src/app/Components/flashcard.tsx:42 | positions found after group 1 are ordered, and group 2 is all digits |
| VocabParser.MatchTailSound | src/app/Components/flashcard.tsx:42 | what `MatchTail` finds is a reading of the pattern after group 1, with the longest group 3 |
| VocabParser.MatchTailComplete | src/app/Components/flashcard.tsx:42 | `MatchTail` finds every reading of the pattern after group 1 |
| VocabParser.FindMatch | src/app/Components/flashcard.tsx:42 | a match found from `k` has group 1 at least `k` long, with ordered positions |
| VocabParser.FindMatchCorrect | src/app/Components/flashcard.tsx:42 | trying group 1 lengths in increasing order finds the engine's match, or proves that no reading fits anywhere |
| VocabParser.Match | src/app/Components/flashcard.tsx:42 | a match's positions are ordered and its group 2 is all digits |
| VocabParser.MatchCorrect | src/app/Components/flashcard.tsx:42-43 | `Match` gives the shortest group 1 and then the longest group 3. It gives no match exactly when no reading of the pattern fits the line |
| VocabParser.BestUnique | src/app/Components/flashcard.tsx:42 | at most one candidate is the engine's match |
| VocabParser.DecimalValue | src/app/Components/flashcard.tsx:46 | `parseInt(match[2], 10)` of a digit run is a natural number below ten to the number of digits |
| VocabParser.Meanings | src/app/Components/flashcard.tsx:48-53 | the value of `eval` of the literal, or `[]` when it throws |
| VocabParser.CardAt | src/app/Components/flashcard.tsx:45-55 | the card of a match: a non-negative frequency, index 0, and a word no longer than group 1 that neither starts nor ends with white space |
| VocabParser.ParseLine | src/app/Components/flashcard.tsx:41-56 | the `map` callback: any card it returns has a non-negative frequency, index 0 and a trimmed word (ParseLineSpec gives the full meaning) |
| VocabParser.DecimalLeadingZero | src/app/Components/flashcard.tsx:46 | a frequency written with a leading zero reads as the same number (`parseInt("05", 10)` is 5) |
| VocabParser.DecimalText | src/app/Components/flashcard.tsx:135 | a rendered frequency is a non-empty run of decimal digits |
| VocabParser.DecimalRoundTrip | src/app/Components/flashcard.tsx:46 | `parseInt` of a rendered frequency gives the frequency back |
| VocabParser.ParseLineSpec | src/app/Components/flashcard.tsx:41-56 | a line yields a card exactly when the pattern fits it. The word is the trimmed group 1, the frequency is the non-negative value of group 2, and the meanings are `eval` of group 3 (or `[]` when it throws). The index is 0 |
| VocabParser.TrailingTextIgnored | src/app/Components/flashcard.tsx:42 | with no end anchor, text holding no `]` appended to a line changes nothing about its card |
| VocabParser.FilterMap | src/app/Components/flashcard.tsx:40-66 | `map` then `filter(card !== null)` gives no more values than inputs |
| VocabParser.FilterMapAppend | src/app/Components/flashcard.tsx:40-66 | map-then-filter distributes over concatenation, so kept values keep their inputs' order |
| VocabParser.FilterMapFrom | src/app/Components/flashcard.tsx:57-66 | every kept value is the callback's result on some input |
| VocabParser.LineParser | src/app/Components/flashcard.tsx:41-56 | the callback passed to `map`: each card it returns has index 0 and a non-negative frequency |
| VocabParser.ParseLines | src/app/Components/flashcard.tsx:40-66 | there are no more cards than lines |
| VocabParser.ParseLinesOne | src/app/Components/flashcard.tsx:41-56 | one line gives its card, or nothing when the pattern rejects it |
| VocabParser.ParseLinesAround | src/app/Components/flashcard.tsx:40-66 | each line contributes its own card or nothing, in its place, between the cards of the lines around it |
| VocabParser.ParsedCardFields | src/app/Components/flashcard.tsx:55 | every card comes from a matching line, has a non-negative frequency, and has index 0 |
| VocabParser.Lines | src/app/Components/flashcard.tsx:33 | `text.trim().split("\n")` gives at least one line, none containing `"\n"`, and together they join back to the trimmed text |
| VocabParser.ParseVocab | src/app/Components/flashcard.tsx:33-66 | the file gives no more cards than it has lines |
| VocabParser.NumberedCards | src/app/Components/flashcard.tsx:55 | the parsed cards, in order, with card `j` carrying index `j` |
| VocabSample.NoBracketNoCard | src/app/Components/flashcard.tsx:42-43 | a line without `[` yields no card |
| VocabSample.CatLine | src/app/Components/flashcard.tsx:41-56 | `cat [10]: ["a"]` yields the word `cat` (trimmed), frequency 10 and the meanings of `["a"]` |
| VocabSample.DogLine | src/app/Components/flashcard.tsx:41-56 | `dog[5]:[]` yields the word `dog`, frequency 5 and the meanings of `[]` |
| VocabSample.FileLines | src/app/Components/flashcard.tsx:33 | the sample file has three lines |
| VocabSample.SampleFile | src/app/Components/flashcard.tsx:33-66 | the sample file yields exactly the cat and dog cards, in order, with the malformed line dropped. Both cards have index 0 |
| FlashcardView.KeyAction | src/app/Components/flashcard.tsx:75-83 | the if/else chain: an arrow or Enter action needs one of those three key names, and shuffle needs Ctrl or Meta with a one-character key (KeyBindings gives each entry as an if-and-only-if) |
| FlashcardView.KeyBindings | src/app/Components/flashcard.tsx:75-83 | ArrowRight gives next, ArrowLeft previous, and Enter go-to, whatever the modifiers. Ctrl or Meta with `s`/`S` gives shuffle. Every other key gives nothing, and each entry is an if-and-only-if |
| FlashcardView.KeyPressInvariants | src/app/Components/flashcard.tsx:75-83 | a key press never replaces the cards or the always-show setting, and an unbound key changes nothing. A press that starts with the index on a card keeps it on one |
| FlashcardView.ShuffleKeyFlipsOnlyShuffle | src/app/Components/flashcard.tsx:79-81 | Ctrl+S or Meta+S flips shuffle mode and nothing else |
| FlashcardView.Perform | src/app/Components/flashcard.tsx:76-81 | the store call a bound key makes: it keeps the cards, the always-show setting and the index invariant, and only the shuffle key changes shuffle mode, flipping only that flag |
| FlashcardView.AfterKey | src/app/Components/flashcard.tsx:75-83 | the store after the action `KeyAction` picks: the cards and always-show are kept, an unbound key changes nothing, and only the shuffle key changes shuffle mode (KeyPressInvariants adds the index invariant) |
| FlashcardView.ArrowsBeforeLoad | src/app/Components/flashcard.tsx:74-86 | on the initial store, before the cards arrive, ArrowRight and ArrowLeft still pick `nextCard` and `prevCard`, whose step is undefined on an empty list |
| FlashcardView.GuardedAfterKey | src/app/Components/flashcard.tsx:75-83 | the corrected handler: defined on every store, equal to `AfterKey` wherever that is defined and a no-op elsewhere, keeping the cards, always-show and the index invariant |
| FlashcardView.HandleKeyDown | src/app/Components/flashcard.tsx:75-83 | the handler runs on the store the one action its key is bound to, or none |
| FlashcardView.JumpFieldValue | src/app/Components/flashcard.tsx:120 | the field shows `indexInput + 1`, which is at least 1 exactly when the staged index is non-negative |
| FlashcardView.StagedIndex | src/app/Components/flashcard.tsx:121 | typing `d` stages `d - 1`, which is non-negative exactly when `d` is at least 1 |
| FlashcardView.JumpFieldRoundTrip | src/app/Components/flashcard.tsx:120-121 | displaying `indexInput + 1` then staging `d - 1` round-trips both ways |
| FlashcardView.JumpFieldBounds | src/app/Components/flashcard.tsx:118-121 | a staged index is in range exactly when the typed value is within the field's `1..cards.length` |
| FlashcardView.JumpThenGo | src/app/Components/flashcard.tsx:116-127 | typing `d` then pressing Go to moves to card `d - 1` when `1 <= d <= |cards|`, and moves nowhere otherwise. The field keeps showing `d` in both cases |
| FlashcardView.OnJumpFieldChange | src/app/Components/flashcard.tsx:121 | typing stages `d - 1`, unchecked, and changes nothing else |
| FlashcardView.Load | src/app/Components/flashcard.tsx:68-69 | the store receives the parsed cards as written, at most one per line, each with index 0 and a non-negative frequency, and nothing else changes |
| FlashcardView.LoadNumbered | src/app/Components/flashcard.tsx:55 | the corrected loader: the store receives the parsed cards, card `j` with index `j`, and nothing else changes |

## Left out

- Fetching `/vocab.txt`, `useEffect` and the asynchronous loading are network I/O and framework lifecycle (flashcard.tsx:29-31, 70-72). `Load` takes the file's text as a parameter.
- `eval` of the meanings literal is arbitrary JavaScript. It is the parameter `eval`, and `None` stands for a throw.
- `Math.random()` returns a floating-point number. The draw is an exact real `u` in [0, 1), so floating-point rounding of `u * n` is not modelled.
- `nextCard` with shuffle off and `prevCard` on an empty card list compute `% 0`, which is NaN in JavaScript. Their contracts require a non-empty list instead of modelling NaN indices. With shuffle on and no cards, `nextCard` is modelled: the pick is 0.
- `Number(e.target.value)` can give NaN or a fraction. The jump field is modelled over integers only.
- `parseInt` on a digit run with more than about 15 digits loses precision in JavaScript. `DecimalValue` is exact.
- JavaScript numbers are doubles. Indices and frequencies are unbounded integers.
- JavaScript strings are UTF-16 code units. Dafny `char` is a Unicode scalar value, so lone surrogates and astral characters are not modelled.
- JsStrings.ToLower: lower-cases ASCII letters only (`LowerChar`), whereas `toLowerCase()` lower-cases all of Unicode. `LowerIsS` still holds for full Unicode, since only `s` and `S` lower-case to `"s"`.
- FlashcardStore.JsRemainder: its contract does not state the congruence `(a - r) % n == 0` for negative dividends. It gives the bounds, the sign, agreement with `%` on non-negative dividends, and oddness (`JsRemainderNegates`).
- `e.preventDefault()` at flashcard.tsx:80 suppresses the browser's save dialog, and has no effect on the store.
- `window.addEventListener` and `removeEventListener` (flashcard.tsx:84-85) and zustand's `create`/`set`/`get` are plumbing. The store is a class with fields.
- JSX rendering (flashcard.tsx:88-157) is presentation and is not modelled:
  - the Loading placeholder;
  - reading `cards[currentIndex]`;
  - the buttons;
  - the expression `showAnswer || <ul>…</ul>` at flashcard.tsx:138, which lists the meanings when `showAnswer` is false.

## Findings

| source | as written | input that shows it | evidently intended | confidence | as-written member | corrected member |
|---|---|---|---|---|---|---|
| src/app/Components/flashcard.tsx:74-86 | the key handler is registered at mount and calls `nextCard`/`prevCard` with no check for an empty card list; with shuffle off, src/app/store/flashcardStore.ts:46 and :56 compute `% 0`, so the index becomes NaN, and once the cards arrive `cards[NaN]` is undefined and `card.word` at flashcard.tsx:133 throws | ArrowRight or ArrowLeft pressed while "Loading..." shows, on the initial store (no cards, index 0, every flag false) | a navigation key with no cards does nothing | low, not executed | FlashcardView.ArrowsBeforeLoad | FlashcardView.GuardedAfterKey |
| src/app/Components/flashcard.tsx:55 | `index: parsedCards.length` is read inside `map`, before `parsedCards` is filled at line 68, so every card gets index 0 | the file `cat [10]: ["a"]`, `bad`, `dog[5]:[]` gives two cards, both with index 0 | card `j` of the loaded list has index `j` | medium, not executed | VocabSample.SampleFile | VocabParser.NumberedCards |

`VocabParser.ParsedCardFields` states the as-written behaviour for every file: each parsed card has index 0. `FlashcardView.Load` hands the store that list as written, and `FlashcardView.LoadNumbered` is the corrected loader, built on `NumberedCards`. No part of the component reads `card.index`, so the defect has no visible effect.
