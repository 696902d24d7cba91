/**
 * The navigation store of the flashcard viewer: six fields and the actions
 * that update them. The actions are given twice: as pure transitions on a
 * `StoreState` value, which the lemmas reason about, and as the methods of the
 * class `Store`, each of which is proved to perform its transition.
 */
module FlashcardStore {

  /** One vocabulary entry. */
  datatype WordCard = WordCard(word: string, frequency: int, meanings: seq<string>, index: int)

  /** A snapshot of the store's fields. */
  datatype StoreState = StoreState(
    cards: seq<WordCard>,
    currentIndex: int,
    showAnswer: bool,
    indexInput: int,
    isShuffled: bool,
    alwaysShowAnswer: bool)
  {
    /** The index invariant: the current index names one of the cards. */
    predicate IndexInRange() {
      0 <= currentIndex < |cards|
    }
  }

  // ---------------------------------------------------------------- arithmetic

  /**
   * JavaScript's `a % n` for a positive divisor: the remainder truncated
   * toward zero, so it takes the sign of `a` (Dafny's `%` never goes negative).
   */
  function JsRemainder(a: int, n: int): (r: int)
    requires n > 0
    ensures -n < r < n
    ensures a >= 0 ==> r == a % n
    ensures a <= 0 ==> r <= 0
  {
    if a >= 0 then a % n else -((-a) % n)
  }

  /** Negating the dividend negates the remainder. */
  lemma JsRemainderNegates(a: int, n: int)
    requires n > 0
    ensures JsRemainder(-a, n) == -JsRemainder(a, n)
  {
  }

  /**
   * `Math.floor(u * n)` where `u` is the value in [0, 1) that `Math.random()`
   * produced.
   */
  function RandomIndex(u: real, n: nat): (r: int)
    requires 0.0 <= u < 1.0
    ensures n == 0 ==> r == 0
    ensures n > 0 ==> 0 <= r < n
  {
    assert 0.0 <= u * n as real;
    assert n > 0 ==> u * n as real < n as real;
    (u * n as real).Floor
  }

  /** Every index can be drawn, the present one included. */
  lemma RandomIndexReaches(n: nat, j: nat)
    requires j < n
    ensures exists u :: 0.0 <= u < 1.0 && RandomIndex(u, n) == j
  {
    var u := j as real / n as real;
    assert u * n as real == j as real;
    assert RandomIndex(u, n) == j;
  }

  // ---------------------------------------------------------------- transitions

  /** The index `nextCard` moves to, for the random draw `u`. */
  function NextIndex(s: StoreState, u: real): (i: int)
    requires 0.0 <= u < 1.0
    requires s.isShuffled || |s.cards| > 0
    ensures s.isShuffled && |s.cards| > 0 ==> 0 <= i < |s.cards|
    ensures s.isShuffled && |s.cards| == 0 ==> i == 0
    ensures !s.isShuffled && s.currentIndex >= -1 ==> 0 <= i < |s.cards|
  {
    if s.isShuffled then RandomIndex(u, |s.cards|)
    else JsRemainder(s.currentIndex + 1, |s.cards|)
  }

  /** `nextCard`: moves to the next index, stages it, and applies always-show. */
  function AfterNext(s: StoreState, u: real): (t: StoreState)
    requires 0.0 <= u < 1.0
    requires s.isShuffled || |s.cards| > 0
    ensures t.cards == s.cards && t.isShuffled == s.isShuffled && t.alwaysShowAnswer == s.alwaysShowAnswer
    ensures t.indexInput == t.currentIndex && t.showAnswer == s.alwaysShowAnswer
    ensures (s.isShuffled && |s.cards| > 0) || s.IndexInRange() ==> t.IndexInRange()
  {
    var i := NextIndex(s, u);
    s.(currentIndex := i, indexInput := i, showAnswer := s.alwaysShowAnswer)
  }

  /** The index `prevCard` moves to; shuffle mode plays no part. */
  function PrevIndex(s: StoreState): (i: int)
    requires |s.cards| > 0
    ensures s.currentIndex >= 1 - |s.cards| ==> 0 <= i < |s.cards|
  {
    JsRemainder(s.currentIndex - 1 + |s.cards|, |s.cards|)
  }

  /** `prevCard`: moves to the previous index, stages it, and applies always-show. */
  function AfterPrev(s: StoreState): (t: StoreState)
    requires |s.cards| > 0
    ensures t.cards == s.cards && t.isShuffled == s.isShuffled && t.alwaysShowAnswer == s.alwaysShowAnswer
    ensures t.indexInput == t.currentIndex && t.showAnswer == s.alwaysShowAnswer
    ensures s.IndexInRange() ==> t.IndexInRange()
  {
    var i := PrevIndex(s);
    s.(currentIndex := i, indexInput := i, showAnswer := s.alwaysShowAnswer)
  }

  /** `goToIndex`: commits the staged index when it names a card. */
  function AfterGoTo(s: StoreState): (t: StoreState)
    ensures t.cards == s.cards && t.indexInput == s.indexInput
    ensures t.isShuffled == s.isShuffled && t.alwaysShowAnswer == s.alwaysShowAnswer
    ensures 0 <= s.indexInput < |s.cards| ==> t.IndexInRange() && t.currentIndex == s.indexInput
    ensures s.IndexInRange() ==> t.IndexInRange()
  {
    if 0 <= s.indexInput < |s.cards| then
      s.(currentIndex := s.indexInput, showAnswer := s.alwaysShowAnswer)
    else s
  }

  function AfterToggleShuffle(s: StoreState): (t: StoreState)
    ensures t.isShuffled != s.isShuffled && t.(isShuffled := s.isShuffled) == s
  {
    s.(isShuffled := !s.isShuffled)
  }

  function AfterToggleShowAnswer(s: StoreState): (t: StoreState)
    ensures t.showAnswer != s.showAnswer && t.(showAnswer := s.showAnswer) == s
  {
    s.(showAnswer := !s.showAnswer)
  }

  function AfterToggleAlwaysShowAnswer(s: StoreState): (t: StoreState)
    ensures t.alwaysShowAnswer != s.alwaysShowAnswer && t.showAnswer == t.alwaysShowAnswer
    ensures t.(alwaysShowAnswer := s.alwaysShowAnswer, showAnswer := s.showAnswer) == s
  {
    s.(alwaysShowAnswer := !s.alwaysShowAnswer, showAnswer := !s.alwaysShowAnswer)
  }

  // ---------------------------------------------------------------- properties

  /** With shuffle off, `nextCard` steps forward, wrapping from the last card to the first. */
  lemma NextSequential(s: StoreState, u: real)
    requires 0.0 <= u < 1.0
    requires !s.isShuffled && s.IndexInRange()
    ensures var i := if s.currentIndex + 1 == |s.cards| then 0 else s.currentIndex + 1;
      AfterNext(s, u) == s.(currentIndex := i, indexInput := i, showAnswer := s.alwaysShowAnswer)
  {
  }

  /**
   * With shuffle on, `nextCard` lands on some card (possibly the present one);
   * with one card that is always card 0, and with none the index becomes 0.
   */
  lemma NextShuffled(s: StoreState, u: real)
    requires 0.0 <= u < 1.0
    requires s.isShuffled
    ensures var t := AfterNext(s, u);
      && t == s.(currentIndex := t.currentIndex, indexInput := t.currentIndex, showAnswer := s.alwaysShowAnswer)
      && (|s.cards| > 0 ==> 0 <= t.currentIndex < |s.cards|)
      && (|s.cards| <= 1 ==> t.currentIndex == 0)
  {
  }

  /** With shuffle on, every card, the present one included, can come next. */
  lemma NextShuffledReachesEvery(s: StoreState, j: nat)
    requires s.isShuffled && j < |s.cards|
    ensures exists u :: 0.0 <= u < 1.0 && AfterNext(s, u).currentIndex == j
  {
    RandomIndexReaches(|s.cards|, j);
    var u :| 0.0 <= u < 1.0 && RandomIndex(u, |s.cards|) == j;
    assert AfterNext(s, u).currentIndex == j;
  }

  /** `prevCard` steps back, wrapping from the first card to the last. */
  lemma PrevSequential(s: StoreState)
    requires s.IndexInRange()
    ensures var i := if s.currentIndex == 0 then |s.cards| - 1 else s.currentIndex - 1;
      AfterPrev(s) == s.(currentIndex := i, indexInput := i, showAnswer := s.alwaysShowAnswer)
  {
    var n := |s.cards|;
    if s.currentIndex == 0 {
      assert PrevIndex(s) == (n - 1) % n == n - 1;
    } else {
      assert PrevIndex(s) == (s.currentIndex - 1 + n) % n == s.currentIndex - 1;
    }
  }

  /** `prevCard` behaves the same whether shuffle is on or off. */
  lemma PrevIgnoresShuffle(s: StoreState, shuffled: bool)
    requires |s.cards| > 0
    ensures AfterPrev(s.(isShuffled := shuffled)) == AfterPrev(s).(isShuffled := shuffled)
  {
  }

  /** With shuffle off, `nextCard` undoes `prevCard`. */
  lemma NextAfterPrev(s: StoreState, u: real)
    requires 0.0 <= u < 1.0
    requires !s.isShuffled && s.IndexInRange()
    ensures AfterNext(AfterPrev(s), u)
      == s.(indexInput := s.currentIndex, showAnswer := s.alwaysShowAnswer)
  {
    PrevSequential(s);
    NextSequential(AfterPrev(s), u);
  }

  /** With shuffle off, `prevCard` undoes `nextCard`. */
  lemma PrevAfterNext(s: StoreState, u: real)
    requires 0.0 <= u < 1.0
    requires !s.isShuffled && s.IndexInRange()
    ensures AfterPrev(AfterNext(s, u))
      == s.(indexInput := s.currentIndex, showAnswer := s.alwaysShowAnswer)
  {
    NextSequential(s, u);
    PrevSequential(AfterNext(s, u));
  }

  /** `nextCard`, `prevCard` and `goToIndex` keep the current index on a card. */
  lemma NavigationKeepsIndexInRange(s: StoreState, u: real)
    requires 0.0 <= u < 1.0
    requires s.IndexInRange()
    ensures AfterNext(s, u).IndexInRange()
    ensures AfterPrev(s).IndexInRange()
    ensures AfterGoTo(s).IndexInRange()
  {
  }

  /**
   * With shuffle off `nextCard` brings back an index that a shorter card list
   * has left past the end.
   */
  lemma NextRepairsIndex(s: StoreState, u: real)
    requires 0.0 <= u < 1.0
    requires !s.isShuffled && |s.cards| > 0 && s.currentIndex >= -1
    ensures AfterNext(s, u).IndexInRange()
  {
  }

  /**
   * `goToIndex` commits a staged index on a card and changes nothing at all
   * for any other staged value; the staged value itself stays as it was.
   */
  lemma GoToCommitsOnlyValidInput(s: StoreState)
    ensures 0 <= s.indexInput < |s.cards| ==>
      AfterGoTo(s) == s.(currentIndex := s.indexInput, showAnswer := s.alwaysShowAnswer)
    ensures !(0 <= s.indexInput < |s.cards|) ==> AfterGoTo(s) == s
    ensures AfterGoTo(s).indexInput == s.indexInput
  {
  }

  /**
   * Turning always-show on reveals the present card at once and turning it off
   * hides it; every later `nextCard` or `prevCard` follows the new setting.
   */
  lemma AlwaysShowAnswerPolicy(s: StoreState, u: real)
    requires 0.0 <= u < 1.0
    ensures var t := AfterToggleAlwaysShowAnswer(s);
      && t.alwaysShowAnswer == !s.alwaysShowAnswer
      && t.showAnswer == t.alwaysShowAnswer
      && t == s.(alwaysShowAnswer := t.alwaysShowAnswer, showAnswer := t.showAnswer)
      && ((t.isShuffled || |t.cards| > 0) ==> AfterNext(t, u).showAnswer == t.alwaysShowAnswer)
      && (|t.cards| > 0 ==> AfterPrev(t).showAnswer == t.alwaysShowAnswer)
  {
  }

  /** Whatever was revealed before, navigating leaves `showAnswer` equal to `alwaysShowAnswer`. */
  lemma NavigationAppliesRevealPolicy(s: StoreState, u: real)
    requires 0.0 <= u < 1.0
    ensures (s.isShuffled || |s.cards| > 0) ==> AfterNext(s, u).showAnswer == s.alwaysShowAnswer
    ensures |s.cards| > 0 ==> AfterPrev(s).showAnswer == s.alwaysShowAnswer
    ensures 0 <= s.indexInput < |s.cards| ==> AfterGoTo(s).showAnswer == s.alwaysShowAnswer
  {
  }

  /**
   * `toggleShuffle` and `toggleShowAnswer` flip their own flag and nothing
   * else, so doing either twice restores the store; doing
   * `toggleAlwaysShowAnswer` twice restores the setting but leaves the
   * answer shown exactly when the setting was on to begin with.
   */
  lemma TogglesFlipOneFlag(s: StoreState)
    ensures AfterToggleShuffle(s).isShuffled != s.isShuffled
    ensures AfterToggleShuffle(s).(isShuffled := s.isShuffled) == s
    ensures AfterToggleShowAnswer(s).showAnswer != s.showAnswer
    ensures AfterToggleShowAnswer(s).(showAnswer := s.showAnswer) == s
    ensures AfterToggleShuffle(AfterToggleShuffle(s)) == s
    ensures AfterToggleShowAnswer(AfterToggleShowAnswer(s)) == s
    ensures AfterToggleAlwaysShowAnswer(AfterToggleAlwaysShowAnswer(s)) == s.(showAnswer := s.alwaysShowAnswer)
  {
  }

  // ---------------------------------------------------------------- the store

  /** The `useFlashcardStore` record, its fields updated in place by the actions. */
  class Store {
    var cards: seq<WordCard>
    var currentIndex: int
    var showAnswer: bool
    var indexInput: int
    var isShuffled: bool
    var alwaysShowAnswer: bool

    function State(): StoreState
      reads this
    {
      StoreState(cards, currentIndex, showAnswer, indexInput, isShuffled, alwaysShowAnswer)
    }

    /** The initial record: no cards, index and staged input 0, every flag false. */
    constructor ()
      ensures cards == [] && currentIndex == 0 && indexInput == 0
      ensures !showAnswer && !isShuffled && !alwaysShowAnswer
    {
      cards := [];
      currentIndex := 0;
      showAnswer := false;
      indexInput := 0;
      isShuffled := false;
      alwaysShowAnswer := false;
    }

    /**
     * Replaces the cards and nothing else; the index is not reset, so the index
     * invariant survives exactly when the index is below the new length.
     */
    method SetCards(newCards: seq<WordCard>)
      modifies this
      ensures State() == old(State()).(cards := newCards)
      ensures old(State()).IndexInRange() ==> (State().IndexInRange() <==> old(currentIndex) < |newCards|)
    {
      cards := newCards;
    }

    method SetCurrentIndex(index: int)
      modifies this
      ensures State() == old(State()).(currentIndex := index)
    {
      currentIndex := index;
    }

    method SetShowAnswer(show: bool)
      modifies this
      ensures State() == old(State()).(showAnswer := show)
    {
      showAnswer := show;
    }

    /** Stages any integer, negative or past the end included. */
    method SetIndexInput(index: int)
      modifies this
      ensures State() == old(State()).(indexInput := index)
    {
      indexInput := index;
    }

    /** `u` is the value `Math.random()` returns on this call. */
    method NextCard(u: real)
      requires 0.0 <= u < 1.0
      requires isShuffled || |cards| > 0
      modifies this
      ensures State() == AfterNext(old(State()), u)
      ensures old(State()).IndexInRange() ==> State().IndexInRange()
    {
      var nextIndex := if isShuffled then RandomIndex(u, |cards|) else JsRemainder(currentIndex + 1, |cards|);
      currentIndex := nextIndex;
      indexInput := nextIndex;
      showAnswer := alwaysShowAnswer;
    }

    method PrevCard()
      requires |cards| > 0
      modifies this
      ensures State() == AfterPrev(old(State()))
      ensures old(State()).IndexInRange() ==> State().IndexInRange()
    {
      var prevIndex := JsRemainder(currentIndex - 1 + |cards|, |cards|);
      currentIndex := prevIndex;
      indexInput := prevIndex;
      showAnswer := alwaysShowAnswer;
    }

    method ToggleShuffle()
      modifies this
      ensures State() == AfterToggleShuffle(old(State()))
    {
      isShuffled := !isShuffled;
    }

    method ToggleShowAnswer()
      modifies this
      ensures State() == AfterToggleShowAnswer(old(State()))
    {
      showAnswer := !showAnswer;
    }

    method ToggleAlwaysShowAnswer()
      modifies this
      ensures State() == AfterToggleAlwaysShowAnswer(old(State()))
    {
      var newAlwaysShow := !alwaysShowAnswer;
      alwaysShowAnswer := newAlwaysShow;
      showAnswer := newAlwaysShow;
    }

    method GoToIndex()
      modifies this
      ensures State() == AfterGoTo(old(State()))
      ensures old(State()).IndexInRange() ==> State().IndexInRange()
    {
      if indexInput >= 0 && indexInput < |cards| {
        currentIndex := indexInput;
        showAnswer := alwaysShowAnswer;
      }
    }
  }
}
