/**
 * The component's glue around the store: the keyboard handler, the 1-based
 * jump field and the loader that fills the store with the parsed cards.
 */
module FlashcardView {
  import opened Wrappers
  import opened JsStrings
  import opened FlashcardStore
  import opened VocabParser

  // ---------------------------------------------------------------- keyboard

  /** The parts of a `KeyboardEvent` the handler looks at. */
  datatype KeyEvent = KeyEvent(key: string, ctrlKey: bool, metaKey: bool)

  /** The store actions a key can trigger. */
  datatype Action = Next | Prev | GoTo | Shuffle

  /** `handleKeyDown`: the first matching test of the if/else chain picks the action. */
  function KeyAction(e: KeyEvent): (r: Option<Action>)
    ensures r.Some? && r.value != Shuffle ==> e.key in {"ArrowRight", "ArrowLeft", "Enter"}
    ensures r == Some(Shuffle) ==> (e.ctrlKey || e.metaKey) && |e.key| == 1
  {
    if e.key == "ArrowRight" then Some(Next)
    else if e.key == "ArrowLeft" then Some(Prev)
    else if e.key == "Enter" then Some(GoTo)
    else if (e.ctrlKey || e.metaKey) && ToLower(e.key) == "s" then Some(Shuffle)
    else None
  }

  /**
   * The binding table, each entry as an if-and-only-if: the arrows and Enter
   * ignore the modifiers, Shuffle needs Ctrl or Meta with `s` or `S`, and
   * every other key does nothing.
   */
  lemma KeyBindings(e: KeyEvent)
    ensures KeyAction(e) == Some(Next) <==> e.key == "ArrowRight"
    ensures KeyAction(e) == Some(Prev) <==> e.key == "ArrowLeft"
    ensures KeyAction(e) == Some(GoTo) <==> e.key == "Enter"
    ensures KeyAction(e) == Some(Shuffle) <==> (e.ctrlKey || e.metaKey) && (e.key == "s" || e.key == "S")
    ensures KeyAction(e) == None <==>
      && e.key !in {"ArrowRight", "ArrowLeft", "Enter"}
      && !((e.ctrlKey || e.metaKey) && (e.key == "s" || e.key == "S"))
  {
    LowerIsS(e.key);
  }

  /** The actions whose store code is defined on `s`: `% 0` makes the sequential steps NaN. */
  predicate Enabled(s: StoreState, a: Action)
  {
    match a
    case Next => s.isShuffled || |s.cards| > 0
    case Prev => |s.cards| > 0
    case GoTo => true
    case Shuffle => true
  }

  /** The store transition of one action; `u` is the value `Math.random()` would return. */
  function Perform(s: StoreState, a: Action, u: real): (t: StoreState)
    requires 0.0 <= u < 1.0
    requires Enabled(s, a)
    ensures t.cards == s.cards && t.alwaysShowAnswer == s.alwaysShowAnswer
    ensures a == Shuffle ==> t == s.(isShuffled := !s.isShuffled)
    ensures a != Shuffle ==> t.isShuffled == s.isShuffled
    ensures s.IndexInRange() ==> t.IndexInRange()
  {
    match a
    case Next => AfterNext(s, u)
    case Prev => AfterPrev(s)
    case GoTo => AfterGoTo(s)
    case Shuffle => AfterToggleShuffle(s)
  }

  /** A key press can run its action. */
  predicate KeyEnabled(s: StoreState, e: KeyEvent)
  {
    KeyAction(e).Some? ==> Enabled(s, KeyAction(e).value)
  }

  /** The store after one key press. */
  function AfterKey(s: StoreState, e: KeyEvent, u: real): (t: StoreState)
    requires 0.0 <= u < 1.0
    requires KeyEnabled(s, e)
    ensures t.cards == s.cards && t.alwaysShowAnswer == s.alwaysShowAnswer
    ensures KeyAction(e) == None ==> t == s
    ensures KeyAction(e) != Some(Shuffle) ==> t.isShuffled == s.isShuffled
  {
    match KeyAction(e)
    case None => s
    case Some(a) => Perform(s, a, u)
  }

  /**
   * No key press replaces the cards or the always-show setting, an unbound key
   * changes nothing, and a bound one keeps the current index on a card.
   */
  lemma KeyPressInvariants(s: StoreState, e: KeyEvent, u: real)
    requires 0.0 <= u < 1.0
    requires KeyEnabled(s, e)
    ensures AfterKey(s, e, u).cards == s.cards
    ensures AfterKey(s, e, u).alwaysShowAnswer == s.alwaysShowAnswer
    ensures KeyAction(e) == None ==> AfterKey(s, e, u) == s
    ensures s.IndexInRange() ==> AfterKey(s, e, u).IndexInRange()
  {
    if s.IndexInRange() {
      NavigationKeepsIndexInRange(s, u);
    }
  }

  /** Ctrl+S and Meta+S flip shuffle mode and leave every other field as it was. */
  lemma ShuffleKeyFlipsOnlyShuffle(s: StoreState, e: KeyEvent, u: real)
    requires 0.0 <= u < 1.0
    requires (e.ctrlKey || e.metaKey) && (e.key == "s" || e.key == "S")
    ensures KeyEnabled(s, e)
    ensures AfterKey(s, e, u) == s.(isShuffled := !s.isShuffled)
  {
    KeyBindings(e);
  }

  /**
   * The handler is registered at mount, before any cards are loaded. On the
   * initial store (no cards, shuffle off) ArrowRight and ArrowLeft still pick
   * `nextCard` and `prevCard`, whose `% cards.length` then divides by zero.
   */
  lemma ArrowsBeforeLoad()
    ensures var s := StoreState([], 0, false, 0, false, false);
      && KeyAction(KeyEvent("ArrowRight", false, false)) == Some(Next) && !Enabled(s, Next)
      && KeyAction(KeyEvent("ArrowLeft", false, false)) == Some(Prev) && !Enabled(s, Prev)
  {
  }

  /**
   * The handler as evidently intended: a key whose action is undefined on the
   * store (an arrow before the cards arrive) is ignored. It is defined on
   * every store, agrees with `AfterKey` wherever that is defined, and keeps
   * the cards, the always-show setting and the index invariant.
   */
  function GuardedAfterKey(s: StoreState, e: KeyEvent, u: real): (t: StoreState)
    requires 0.0 <= u < 1.0
    ensures KeyEnabled(s, e) ==> t == AfterKey(s, e, u)
    ensures !KeyEnabled(s, e) ==> t == s
    ensures t.cards == s.cards && t.alwaysShowAnswer == s.alwaysShowAnswer
    ensures s.IndexInRange() ==> t.IndexInRange()
  {
    if KeyEnabled(s, e) then
      KeyPressInvariants(s, e, u);
      AfterKey(s, e, u)
    else s
  }

  /** `handleKeyDown` on the store: at most one action per key press. */
  method HandleKeyDown(store: Store, e: KeyEvent, u: real)
    requires 0.0 <= u < 1.0
    requires KeyEnabled(store.State(), e)
    modifies store
    ensures store.State() == AfterKey(old(store.State()), e, u)
  {
    match KeyAction(e)
    case None =>
    case Some(Next) => store.NextCard(u);
    case Some(Prev) => store.PrevCard();
    case Some(GoTo) => store.GoToIndex();
    case Some(Shuffle) => store.ToggleShuffle();
  }

  // ---------------------------------------------------------------- jump field

  /** The jump field shows the staged index 1-based. */
  function JumpFieldValue(indexInput: int): (d: int)
    ensures d >= 1 <==> indexInput >= 0
  {
    indexInput + 1
  }

  /** Typing `d` into the jump field stages the 0-based index `d - 1`. */
  function StagedIndex(d: int): (i: int)
    ensures i >= 0 <==> d >= 1
  {
    d - 1
  }

  /** Displaying then staging gives back the staged index, and staging then displaying the typed value. */
  lemma JumpFieldRoundTrip(i: int, d: int)
    ensures StagedIndex(JumpFieldValue(i)) == i
    ensures JumpFieldValue(StagedIndex(d)) == d
  {
  }

  /** The field's own bounds `1..cards.length` are exactly the values `goToIndex` accepts. */
  lemma JumpFieldBounds(d: int, n: nat)
    ensures 0 <= StagedIndex(d) < n <==> 1 <= d <= n
  {
  }

  /**
   * Typing `d` then pressing Go to: a value within `1..|cards|` moves to card
   * `d - 1` and the field still shows `d`; any other value moves nowhere.
   */
  lemma JumpThenGo(s: StoreState, d: int)
    ensures var t := AfterGoTo(s.(indexInput := StagedIndex(d)));
      && JumpFieldValue(t.indexInput) == d
      && t.cards == s.cards
      && (1 <= d <= |s.cards| ==> t.currentIndex == d - 1 && t.IndexInRange())
      && (!(1 <= d <= |s.cards|) ==> t.currentIndex == s.currentIndex && t.showAnswer == s.showAnswer)
  {
    JumpFieldBounds(d, |s.cards|);
    GoToCommitsOnlyValidInput(s.(indexInput := StagedIndex(d)));
  }

  /** The jump field's `onChange`: stages the typed value, unchecked. */
  method OnJumpFieldChange(store: Store, d: int)
    modifies store
    ensures store.State() == old(store.State()).(indexInput := StagedIndex(d))
  {
    store.SetIndexInput(StagedIndex(d));
  }

  // ---------------------------------------------------------------- loading

  /**
   * `fetchData` after the fetch: the cards built by `map` are pushed onto the
   * empty `parsedCards` list and handed to `setCards`. Every card carries
   * index 0, since `parsedCards` is still empty while `map` runs.
   */
  method Load(store: Store, text: string, eval: string -> Option<seq<string>>)
    modifies store
    ensures store.State() == old(store.State()).(cards := ParseVocab(text, eval))
    ensures |store.cards| <= |Lines(text)|
    ensures forall j :: 0 <= j < |store.cards| ==> store.cards[j].index == 0 && store.cards[j].frequency >= 0
  {
    var parsedCards: seq<WordCard> := [];
    var cards := ParseVocab(text, eval);
    parsedCards := parsedCards + cards;
    store.SetCards(parsedCards);
    forall j | 0 <= j < |store.cards|
      ensures store.cards[j].index == 0 && store.cards[j].frequency >= 0
    {
      ParsedCardFields(Lines(text), eval, store.cards[j]);
    }
  }

  /** The loader as evidently intended: the parsed cards numbered by their position. */
  method LoadNumbered(store: Store, text: string, eval: string -> Option<seq<string>>)
    modifies store
    ensures store.State() == old(store.State()).(cards := NumberedCards(text, eval))
    ensures |store.cards| == |ParseVocab(text, eval)|
    ensures forall j :: 0 <= j < |store.cards| ==> store.cards[j] == ParseVocab(text, eval)[j].(index := j)
  {
    store.SetCards(NumberedCards(text, eval));
  }
}
