/**
 * The loader's text pipeline: trim the file, split it into lines, match each
 * line against `^(.*?)\[(\d+)]\s*:\s*(\[.*])`, and build one card per
 * matching line. Evaluating the meanings literal is the parameter `eval`:
 * `None` stands for an evaluation that throws.
 */
module VocabParser {
  import opened Wrappers
  import opened JsStrings
  import opened FlashcardStore

  // ---------------------------------------------------------------- scanning

  /** The end of the run of characters satisfying `p` that starts at `i`. */
  function RunEnd(s: string, i: nat, p: char -> bool): (j: nat)
    requires i <= |s|
    ensures i <= j <= |s|
    ensures forall k :: i <= k < j ==> p(s[k])
    ensures j == |s| || !p(s[j])
    decreases |s| - i
  {
    if i < |s| && p(s[i]) then RunEnd(s, i + 1, p) else i
  }

  /** A run is ended by the first character outside it. */
  lemma RunEndAt(s: string, i: nat, p: char -> bool, j: nat)
    requires i <= j < |s|
    requires forall k :: i <= k < j ==> p(s[k])
    requires !p(s[j])
    ensures RunEnd(s, i, p) == j
  {
  }

  /** The largest `q` in [lo, hi) with `s[q] == c`, if there is one. */
  function LastIndexIn(s: string, lo: nat, hi: nat, c: char): (r: Option<nat>)
    requires lo <= hi <= |s|
    ensures r.Some? ==> lo <= r.value < hi && s[r.value] == c
    ensures r.Some? ==> forall k :: r.value < k < hi ==> s[k] != c
    ensures r.None? ==> forall k :: lo <= k < hi ==> s[k] != c
    decreases hi - lo
  {
    if lo == hi then None
    else if s[hi - 1] == c then Some(hi - 1)
    else LastIndexIn(s, lo, hi - 1, c)
  }

  // ---------------------------------------------------------------- the pattern

  /**
   * Where the pieces of a match sit: group 2 is line[k+1..d], the colon is at
   * `a`, and group 3 is line[b..q+1].
   */
  datatype Positions = Positions(d: nat, a: nat, b: nat, q: nat)

  /**
   * The pattern after the lazy group, read position by position, with group 1
   * being line[..k]: `[`, one or more digits, `]`, white space, `:`, white
   * space, `[`, characters other than line terminators, `]`.
   */
  ghost predicate Tail(line: string, k: int, d: int, a: int, b: int, q: int) {
    && 0 <= k && k + 1 < d && d < a && a < b && b < q < |line|
    && line[k] == '['
    && (forall i :: k < i < d ==> IsDigit(line[i]))
    && line[d] == ']'
    && (forall i :: d < i < a ==> IsSpace(line[i]))
    && line[a] == ':'
    && (forall i :: a < i < b ==> IsSpace(line[i]))
    && line[b] == '['
    && (forall i :: b < i < q ==> NotLineTerminator(line[i]))
    && line[q] == ']'
  }

  /** Group 1, `.*?` anchored at the start, holds no line terminator. */
  ghost predicate PrefixOk(line: string, k: int) {
    0 <= k <= |line| && forall i :: 0 <= i < k ==> NotLineTerminator(line[i])
  }

  ghost predicate Shape(line: string, k: int, d: int, a: int, b: int, q: int) {
    PrefixOk(line, k) && Tail(line, k, d, a, b, q)
  }

  /** Some way of reading the pattern has group 1 equal to line[..k]. */
  ghost predicate MatchesAt(line: string, k: int) {
    exists d, a, b, q :: Shape(line, k, d, a, b, q)
  }

  /**
   * The match a backtracking engine reports: group 1 as short as possible
   * (the lazy `.*?`), then group 3 as long as possible (the greedy `.*`).
   */
  ghost predicate Best(line: string, k: int, p: Positions) {
    && Shape(line, k, p.d, p.a, p.b, p.q)
    && (forall j :: 0 <= j < k ==> !MatchesAt(line, j))
    && (forall q :: Shape(line, k, p.d, p.a, p.b, q) ==> q <= p.q)
  }

  /** What every match found guarantees about its positions: they are ordered and group 2 is all digits. */
  predicate Ordered(line: string, k: nat, p: Positions) {
    k + 1 < p.d < p.a < p.b < p.q < |line| && AllDigits(line[k + 1..p.d])
  }

  /** Tries the pattern after the lazy group, with group 1 being line[..k]. */
  function MatchTail(line: string, k: nat): (r: Option<Positions>)
    requires k <= |line|
    ensures r.Some? ==> Ordered(line, k, r.value)
  {
    if k < |line| && line[k] == '[' then
      var d := RunEnd(line, k + 1, IsDigit);
      if k + 1 < d < |line| && line[d] == ']' then
        var a := RunEnd(line, d + 1, IsSpace);
        if a < |line| && line[a] == ':' then
          var b := RunEnd(line, a + 1, IsSpace);
          if b < |line| && line[b] == '[' then
            var e := RunEnd(line, b + 1, NotLineTerminator);
            match LastIndexIn(line, b + 1, e, ']')
            case Some(q) => Some(Positions(d, a, b, q))
            case None => None
          else None
        else None
      else None
    else None
  }

  /** In any reading of the pattern, the digits, the spaces and the colon are where `MatchTail` looks. */
  lemma TailPositions(line: string, k: nat, d: int, a: int, b: int, q: int)
    requires Tail(line, k, d, a, b, q)
    ensures d == RunEnd(line, k + 1, IsDigit)
    ensures a == RunEnd(line, d + 1, IsSpace)
    ensures b == RunEnd(line, a + 1, IsSpace)
    ensures q < RunEnd(line, b + 1, NotLineTerminator)
  {
    RunEndAt(line, k + 1, IsDigit, d);
    RunEndAt(line, d + 1, IsSpace, a);
    RunEndAt(line, a + 1, IsSpace, b);
  }

  /** What `MatchTail` finds is a reading of the pattern, with the longest group 3. */
  lemma MatchTailSound(line: string, k: nat)
    requires k <= |line|
    ensures var r := MatchTail(line, k);
      r.Some? ==> Tail(line, k, r.value.d, r.value.a, r.value.b, r.value.q)
                  && forall q :: Tail(line, k, r.value.d, r.value.a, r.value.b, q) ==> q <= r.value.q
  {
    var r := MatchTail(line, k);
    if r.Some? {
      var p := r.value;
      forall q | Tail(line, k, p.d, p.a, p.b, q) ensures q <= p.q {
        TailPositions(line, k, p.d, p.a, p.b, q);
      }
    }
  }

  /** `MatchTail` misses no reading of the pattern. */
  lemma MatchTailComplete(line: string, k: nat, d: int, a: int, b: int, q: int)
    requires Tail(line, k, d, a, b, q)
    ensures MatchTail(line, k).Some?
    ensures var p := MatchTail(line, k).value; p.d == d && p.a == a && p.b == b && q <= p.q
  {
    TailPositions(line, k, d, a, b, q);
    var e := RunEnd(line, b + 1, NotLineTerminator);
    assert LastIndexIn(line, b + 1, e, ']').Some?;
  }

  /** The tries of group 1 = line[..k], line[..k+1], ..., stopping at a line terminator. */
  function FindMatch(line: string, k: nat): (r: Option<(nat, Positions)>)
    requires k <= |line|
    ensures r.Some? ==> k <= r.value.0 && Ordered(line, r.value.0, r.value.1)
    decreases |line| - k
  {
    match MatchTail(line, k)
    case Some(p) => Some((k, p))
    case None =>
      if k < |line| && NotLineTerminator(line[k]) then FindMatch(line, k + 1) else None
  }

  lemma {:induction false} FindMatchCorrect(line: string, k: nat)
    requires PrefixOk(line, k)
    requires forall j :: 0 <= j < k ==> !MatchesAt(line, j)
    ensures FindMatch(line, k).Some? ==> Best(line, FindMatch(line, k).value.0, FindMatch(line, k).value.1)
    ensures FindMatch(line, k).None? ==> forall j :: !MatchesAt(line, j)
    decreases |line| - k
  {
    var r := MatchTail(line, k);
    MatchTailSound(line, k);
    if r.None? {
      assert !MatchesAt(line, k) by {
        if MatchesAt(line, k) {
          var d, a, b, q :| Shape(line, k, d, a, b, q);
          MatchTailComplete(line, k, d, a, b, q);
        }
      }
      if k < |line| && NotLineTerminator(line[k]) {
        FindMatchCorrect(line, k + 1);
      } else {
        forall j ensures !MatchesAt(line, j) {
        }
      }
    }
  }

  /** The regular expression's match, or `None` when `line.match(...)` returns null. */
  function Match(line: string): (r: Option<(nat, Positions)>)
    ensures r.Some? ==> Ordered(line, r.value.0, r.value.1)
  {
    FindMatch(line, 0)
  }

  /**
   * `Match` finds the engine's match whenever the pattern fits the line at all,
   * and reports none exactly when no reading of the pattern fits.
   */
  lemma MatchCorrect(line: string)
    ensures Match(line).Some? ==> Best(line, Match(line).value.0, Match(line).value.1)
    ensures Match(line).None? <==> forall k :: !MatchesAt(line, k)
  {
    FindMatchCorrect(line, 0);
    if Match(line).Some? {
      var (k, p) := Match(line).value;
      assert MatchesAt(line, k);
    }
  }

  /** At most one candidate is the engine's match. */
  lemma BestUnique(line: string, k: int, p: Positions, k': int, p': Positions)
    requires Best(line, k, p) && Best(line, k', p')
    ensures k == k' && p == p'
  {
    if k < k' {
      assert MatchesAt(line, k);
    } else if k' < k {
      assert MatchesAt(line, k');
    } else {
      TailPositions(line, k, p.d, p.a, p.b, p.q);
      TailPositions(line, k, p'.d, p'.a, p'.b, p'.q);
    }
  }

  // ---------------------------------------------------------------- cards

  predicate AllDigits(s: string) {
    forall i :: 0 <= i < |s| ==> IsDigit(s[i])
  }

  function Pow10(k: nat): (p: nat)
    ensures p >= 1
  {
    if k == 0 then 1 else 10 * Pow10(k - 1)
  }

  /** `parseInt(digits, 10)` of a run of decimal digits: below ten to the number of digits. */
  function DecimalValue(digits: string): (n: nat)
    requires AllDigits(digits)
    ensures n < Pow10(|digits|)
  {
    if digits == [] then 0
    else DecimalValue(digits[..|digits| - 1]) * 10 + ((digits[|digits| - 1] as int) - ('0' as int)) as nat
  }

  /** A leading zero does not change the value: `parseInt("05", 10)` is 5. */
  lemma {:induction false} DecimalLeadingZero(digits: string)
    requires AllDigits(digits)
    ensures AllDigits(['0'] + digits)
    ensures DecimalValue(['0'] + digits) == DecimalValue(digits)
    decreases |digits|
  {
    var z := ['0'] + digits;
    assert AllDigits(z) by {
      forall i | 0 <= i < |z| ensures IsDigit(z[i]) {
        if i > 0 { assert z[i] == digits[i - 1]; }
      }
    }
    if digits != [] {
      var init := digits[..|digits| - 1];
      assert z[..|z| - 1] == ['0'] + init;
      assert z[|z| - 1] == digits[|digits| - 1];
      DecimalLeadingZero(init);
    }
  }

  function Digit(n: nat): (c: char)
    requires n < 10
    ensures IsDigit(c)
  {
    ('0' as int + n) as char
  }

  /** The decimal text a number renders as (`Frequency: {card.frequency}`). */
  function DecimalText(n: nat): (s: string)
    ensures AllDigits(s) && |s| >= 1
  {
    if n < 10 then [Digit(n)] else DecimalText(n / 10) + [Digit(n % 10)]
  }

  /** Rendering a frequency and reading it back gives the frequency. */
  lemma {:induction false} DecimalRoundTrip(n: nat)
    ensures DecimalValue(DecimalText(n)) == n
  {
    var s := DecimalText(n);
    if n >= 10 {
      DecimalRoundTrip(n / 10);
      assert s[..|s| - 1] == DecimalText(n / 10);
    }
  }

  /** What `eval` of the meanings literal leaves in `meanings`: its value, or `[]` when it throws. */
  function Meanings(eval: string -> Option<seq<string>>, literal: string): (m: seq<string>)
    ensures eval(literal).Some? ==> m == eval(literal).value
    ensures eval(literal).None? ==> m == []
  {
    match eval(literal)
    case Some(m) => m
    case None => []
  }

  /**
   * The card built from one line, or `None` for a line the pattern rejects.
   * Every card gets index 0: the running count it reads is still empty.
   */
  function ParseLine(line: string, eval: string -> Option<seq<string>>): (r: Option<WordCard>)
    ensures r.Some? ==> r.value.frequency >= 0 && r.value.index == 0
    ensures r.Some? && r.value.word != [] ==> !IsSpace(r.value.word[0]) && !IsSpace(r.value.word[|r.value.word| - 1])
  {
    match Match(line)
    case None => None
    case Some(m) => Some(CardAt(line, m.0, m.1, eval))
  }

  /** `{ word, frequency, meanings, index: parsedCards.length }` for the match at `k`, `p`. */
  function CardAt(line: string, k: nat, p: Positions, eval: string -> Option<seq<string>>): (c: WordCard)
    requires Ordered(line, k, p)
    ensures c.frequency >= 0 && c.index == 0
    ensures c.word != [] ==> !IsSpace(c.word[0]) && !IsSpace(c.word[|c.word| - 1])
    ensures |c.word| <= k
  {
    WordCard(Trim(line[..k]), DecimalValue(line[k + 1..p.d]), Meanings(eval, line[p.b..p.q + 1]), 0)
  }

  /** The card a match describes. */
  ghost predicate CardOf(line: string, k: nat, p: Positions, eval: string -> Option<seq<string>>, c: WordCard)
    requires Ordered(line, k, p)
  {
    && c.word == Trim(line[..k])
    && c.frequency >= 0
    && c.frequency == DecimalValue(line[k + 1..p.d])
    && (eval(line[p.b..p.q + 1]).None? ==> c.meanings == [])
    && (eval(line[p.b..p.q + 1]).Some? ==> c.meanings == eval(line[p.b..p.q + 1]).value)
    && c.index == 0
  }

  /**
   * A line yields a card exactly when some reading of the pattern fits it; the
   * card's word is the trimmed shortest prefix followed by the rest of the
   * pattern, its frequency the value of the bracketed digits, and its meanings
   * come from the segment from the `[` after the colon to the last `]` before
   * any line terminator, or are empty when evaluating that segment throws.
   */
  lemma ParseLineSpec(line: string, eval: string -> Option<seq<string>>)
    ensures ParseLine(line, eval).None? <==> forall k :: !MatchesAt(line, k)
    ensures ParseLine(line, eval).Some? ==>
      var (k, p) := Match(line).value;
      Best(line, k, p) && CardOf(line, k, p, eval, ParseLine(line, eval).value)
  {
    MatchCorrect(line);
  }

  /** Appending text without a `]` extends no reading of the pattern and spoils none. */
  lemma ShapeAppend(line: string, t: string, k: int, d: int, a: int, b: int, q: int)
    requires ']' !in t
    ensures Shape(line + t, k, d, a, b, q) <==> Shape(line, k, d, a, b, q)
  {
    assert forall i :: 0 <= i < |line| ==> (line + t)[i] == line[i];
  }

  lemma MatchesAtAppend(line: string, t: string, k: int)
    requires ']' !in t
    ensures MatchesAt(line + t, k) <==> MatchesAt(line, k)
  {
    if MatchesAt(line + t, k) {
      var d, a, b, q :| Shape(line + t, k, d, a, b, q);
      ShapeAppend(line, t, k, d, a, b, q);
    }
    if MatchesAt(line, k) {
      var d, a, b, q :| Shape(line, k, d, a, b, q);
      ShapeAppend(line, t, k, d, a, b, q);
    }
  }

  lemma BestAppend(line: string, t: string, k: int, p: Positions)
    requires ']' !in t
    ensures Best(line + t, k, p) <==> Best(line, k, p)
  {
    ShapeAppend(line, t, k, p.d, p.a, p.b, p.q);
    forall j ensures MatchesAt(line + t, j) <==> MatchesAt(line, j) {
      MatchesAtAppend(line, t, j);
    }
    forall q ensures Shape(line + t, k, p.d, p.a, p.b, q) <==> Shape(line, k, p.d, p.a, p.b, q) {
      ShapeAppend(line, t, k, p.d, p.a, p.b, q);
    }
  }

  /** Text holding no `]` appended to a line leaves its match where it was. */
  lemma MatchAppend(line: string, t: string)
    requires ']' !in t
    ensures Match(line + t) == Match(line)
  {
    MatchCorrect(line);
    MatchCorrect(line + t);
    var m, m' := Match(line), Match(line + t);
    if m.Some? {
      var (k, p) := m.value;
      BestAppend(line, t, k, p);
      MatchesAtAppend(line, t, k);
      var (k', p') := m'.value;
      BestUnique(line + t, k, p, k', p');
    } else if m'.Some? {
      MatchesAtAppend(line, t, m'.value.0);
    }
  }

  lemma CardAtAppend(line: string, t: string, k: nat, p: Positions, eval: string -> Option<seq<string>>)
    requires Ordered(line, k, p)
    ensures Ordered(line + t, k, p)
    ensures CardAt(line + t, k, p, eval) == CardAt(line, k, p, eval)
  {
    assert (line + t)[..k] == line[..k];
    assert (line + t)[k + 1..p.d] == line[k + 1..p.d];
    assert (line + t)[p.b..p.q + 1] == line[p.b..p.q + 1];
  }

  /** No end anchor: text after the meanings segment that holds no `]` is ignored. */
  lemma TrailingTextIgnored(line: string, t: string, eval: string -> Option<seq<string>>)
    requires ']' !in t
    ensures ParseLine(line + t, eval) == ParseLine(line, eval)
  {
    MatchAppend(line, t);
    if Match(line).Some? {
      var m := Match(line).value;
      CardAtAppend(line, t, m.0, m.1, eval);
    }
  }

  /** The values an optional value holds: one or none. */
  function Kept<Y>(r: Option<Y>): seq<Y>
  {
    match r
    case Some(y) => [y]
    case None => []
  }

  /** `xs.map(f).filter(y => y !== null)`. */
  function FilterMap<X, Y>(xs: seq<X>, f: X -> Option<Y>): (ys: seq<Y>)
    ensures |ys| <= |xs|
  {
    if xs == [] then [] else Kept(f(xs[0])) + FilterMap(xs[1..], f)
  }

  lemma FilterMapOne<X, Y>(x: X, f: X -> Option<Y>)
    ensures FilterMap([x], f) == Kept(f(x))
  {
    assert [x][1..] == [];
  }

  /** The kept values keep the order of their inputs: `FilterMap` distributes over concatenation. */
  lemma {:induction false} FilterMapAppend<X, Y>(xs: seq<X>, zs: seq<X>, f: X -> Option<Y>)
    ensures FilterMap(xs + zs, f) == FilterMap(xs, f) + FilterMap(zs, f)
  {
    if xs != [] {
      FilterMapAppend(xs[1..], zs, f);
      assert (xs + zs)[1..] == xs[1..] + zs;
    } else {
      assert xs + zs == zs;
    }
  }

  /** Every kept value is what `f` made of one of the inputs. */
  lemma {:induction false} FilterMapFrom<X, Y>(xs: seq<X>, f: X -> Option<Y>, y: Y)
    requires y in FilterMap(xs, f)
    ensures exists i :: 0 <= i < |xs| && f(xs[i]) == Some(y)
  {
    if f(xs[0]) != Some(y) {
      FilterMapFrom(xs[1..], f, y);
      var i :| 0 <= i < |xs[1..]| && f(xs[1..][i]) == Some(y);
      assert f(xs[i + 1]) == Some(y);
    }
  }

  /** The callback given to `lines.map`. */
  function LineParser(eval: string -> Option<seq<string>>): (f: string -> Option<WordCard>)
    ensures forall line :: f(line).Some? ==> f(line).value.index == 0 && f(line).value.frequency >= 0
  {
    line => ParseLine(line, eval)
  }

  /** `lines.map(...).filter(card !== null)`. */
  function ParseLines(lines: seq<string>, eval: string -> Option<seq<string>>): (cards: seq<WordCard>)
    ensures |cards| <= |lines|
  {
    FilterMap(lines, LineParser(eval))
  }

  /** A single line yields its card, or nothing when the pattern rejects it. */
  lemma ParseLinesOne(line: string, eval: string -> Option<seq<string>>)
    ensures ParseLines([line], eval) == Kept(ParseLine(line, eval))
  {
    var f := LineParser(eval);
    FilterMapOne(line, f);
    assert f(line) == ParseLine(line, eval);
  }

  /**
   * Cards keep the order of their lines, and each line contributes its own card,
   * or nothing if the pattern rejects it, in its place.
   */
  lemma ParseLinesAround(xs: seq<string>, line: string, ys: seq<string>, eval: string -> Option<seq<string>>)
    ensures ParseLines(xs + [line] + ys, eval)
      == ParseLines(xs, eval) + Kept(ParseLine(line, eval)) + ParseLines(ys, eval)
  {
    var f := LineParser(eval);
    FilterMapAppend(xs + [line], ys, f);
    FilterMapAppend(xs, [line], f);
    ParseLinesOne(line, eval);
  }

  /** Every parsed card comes from a matching line, has a non-negative frequency and has index 0. */
  lemma ParsedCardFields(lines: seq<string>, eval: string -> Option<seq<string>>, c: WordCard)
    requires c in ParseLines(lines, eval)
    ensures exists i :: 0 <= i < |lines| && ParseLine(lines[i], eval) == Some(c)
    ensures c.frequency >= 0 && c.index == 0
  {
    FilterMapFrom(lines, LineParser(eval), c);
    var i :| 0 <= i < |lines| && ParseLine(lines[i], eval) == Some(c);
    ParseLineSpec(lines[i], eval);
  }

  /** `text.trim().split("\n")`. */
  function Lines(text: string): (lines: seq<string>)
    ensures |lines| >= 1
    ensures forall i :: 0 <= i < |lines| ==> '\n' !in lines[i]
    ensures Join(lines, '\n') == Trim(text)
  {
    JoinSplit(Trim(text), '\n');
    Split(Trim(text), '\n')
  }

  /** The cards of a vocabulary file, one per matching line, in file order. */
  function ParseVocab(text: string, eval: string -> Option<seq<string>>): (cards: seq<WordCard>)
    ensures |cards| <= |Lines(text)|
  {
    ParseLines(Lines(text), eval)
  }

  // ---------------------------------------------------------------- numbering

  /** Cards numbered from `start` by their position: what `index: parsedCards.length` was meant to give. */
  function Numbered(cards: seq<WordCard>, start: int): seq<WordCard>
  {
    if cards == [] then [] else [cards[0].(index := start)] + Numbered(cards[1..], start + 1)
  }

  lemma {:induction false} NumberedAt(cards: seq<WordCard>, start: int)
    ensures |Numbered(cards, start)| == |cards|
    ensures forall j :: 0 <= j < |cards| ==> Numbered(cards, start)[j] == cards[j].(index := start + j)
  {
    if cards != [] {
      NumberedAt(cards[1..], start + 1);
    }
  }

  /** The cards of a vocabulary file, each carrying its position in the list as its index. */
  function NumberedCards(text: string, eval: string -> Option<seq<string>>): (cards: seq<WordCard>)
    ensures |cards| == |ParseVocab(text, eval)|
    ensures forall j :: 0 <= j < |cards| ==> cards[j] == ParseVocab(text, eval)[j].(index := j)
  {
    NumberedAt(ParseVocab(text, eval), 0);
    Numbered(ParseVocab(text, eval), 0)
  }
}
