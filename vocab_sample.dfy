/** The parser on a three-line file: two well-formed entries around a malformed one. */
module VocabSample {
  import opened Wrappers
  import opened JsStrings
  import opened FlashcardStore
  import opened VocabParser

  /** Group 1 is `cat ` (trimmed to `cat`), group 2 is `10`, group 3 is `["a"]`. */
  const CAT := "cat [10]: [\"a\"]"
  const BAD := "bad"
  /** No white space around the colon, and an empty meanings literal. */
  const DOG := "dog[5]:[]"
  const FILE := CAT + "\n" + BAD + "\n" + DOG

  /** A line with no `[` never matches. */
  lemma NoBracketNoCard(line: string, eval: string -> Option<seq<string>>)
    requires '[' !in line
    ensures ParseLine(line, eval) == None
  {
    ParseLineSpec(line, eval);
    forall k ensures !MatchesAt(line, k) {
    }
  }

  /** The engine's match fixes the card. */
  lemma CardOfBest(line: string, k: nat, p: Positions, eval: string -> Option<seq<string>>)
    requires Best(line, k, p)
    ensures Ordered(line, k, p)
    ensures ParseLine(line, eval) == Some(CardAt(line, k, p, eval))
  {
    MatchCorrect(line);
    assert MatchesAt(line, k);
    var (k', p') := Match(line).value;
    BestUnique(line, k, p, k', p');
  }

  // ---------------------------------------------------------------- cat

  lemma CatBest()
    ensures Best(CAT, 4, Positions(7, 8, 10, 14))
  {
    assert Tail(CAT, 4, 7, 8, 10, 14);
    assert PrefixOk(CAT, 4);
    forall j | 0 <= j < 4 ensures !MatchesAt(CAT, j) {
      assert CAT[j] != '[';
    }
  }

  lemma CatWord()
    ensures Trim(CAT[..4]) == "cat"
  {
    var w := CAT[..4];
    assert w == "cat" + " ";
    assert Lead(w) == 0;
    assert TrimEnd(w) == TrimEnd("cat");
    TrimUnchanged("cat");
  }

  lemma CatFrequency()
    ensures AllDigits(CAT[5..7]) && DecimalValue(CAT[5..7]) == 10
  {
    assert CAT[5..7] == "10";
    assert "10"[..1] == "1";
    assert "1"[..0] == [];
  }

  lemma CatLine(eval: string -> Option<seq<string>>)
    ensures ParseLine(CAT, eval) == Some(WordCard("cat", 10, Meanings(eval, "[\"a\"]"), 0))
  {
    CatBest();
    CardOfBest(CAT, 4, Positions(7, 8, 10, 14), eval);
    CatCard(eval);
  }

  lemma CatCard(eval: string -> Option<seq<string>>)
    requires Ordered(CAT, 4, Positions(7, 8, 10, 14))
    ensures CardAt(CAT, 4, Positions(7, 8, 10, 14), eval) == WordCard("cat", 10, Meanings(eval, "[\"a\"]"), 0)
  {
    CatWord();
    CatFrequency();
    assert CAT[10..15] == "[\"a\"]";
  }

  // ---------------------------------------------------------------- dog

  lemma DogBest()
    ensures Best(DOG, 3, Positions(5, 6, 7, 8))
  {
    assert Tail(DOG, 3, 5, 6, 7, 8);
    assert PrefixOk(DOG, 3);
    forall j | 0 <= j < 3 ensures !MatchesAt(DOG, j) {
      assert DOG[j] != '[';
    }
  }

  lemma DogWord()
    ensures Trim(DOG[..3]) == "dog"
  {
    assert DOG[..3] == "dog";
    TrimUnchanged("dog");
  }

  lemma DogFrequency()
    ensures AllDigits(DOG[4..5]) && DecimalValue(DOG[4..5]) == 5
  {
    assert DOG[4..5] == "5";
    assert "5"[..0] == [];
  }

  lemma DogLine(eval: string -> Option<seq<string>>)
    ensures ParseLine(DOG, eval) == Some(WordCard("dog", 5, Meanings(eval, "[]"), 0))
  {
    DogBest();
    CardOfBest(DOG, 3, Positions(5, 6, 7, 8), eval);
    DogCard(eval);
  }

  lemma DogCard(eval: string -> Option<seq<string>>)
    requires Ordered(DOG, 3, Positions(5, 6, 7, 8))
    ensures CardAt(DOG, 3, Positions(5, 6, 7, 8), eval) == WordCard("dog", 5, Meanings(eval, "[]"), 0)
  {
    DogWord();
    DogFrequency();
    assert DOG[7..9] == "[]";
  }

  // ---------------------------------------------------------------- the file

  lemma FileTrimmed()
    ensures Trim(FILE) == FILE
  {
    assert |FILE| == 29 && FILE[0] == 'c' && FILE[28] == ']';
    TrimUnchanged(FILE);
  }

  lemma FileSplit()
    ensures Split(FILE, '\n') == [CAT, BAD, DOG]
  {
    var lines := [CAT, BAD, DOG];
    assert Join(lines, '\n') == FILE by {
      assert Join(lines[2..], '\n') == DOG;
      assert Join(lines[1..], '\n') == BAD + "\n" + DOG;
    }
    assert '\n' !in CAT by {
      assert forall i :: 0 <= i < |CAT| ==> CAT[i] != '\n';
    }
    assert '\n' !in DOG by {
      assert forall i :: 0 <= i < |DOG| ==> DOG[i] != '\n';
    }
    SplitJoin(lines, '\n');
  }

  lemma FileLines()
    ensures Lines(FILE) == [CAT, BAD, DOG]
  {
    FileTrimmed();
    FileSplit();
  }

  lemma FilterMapThree<X, Y>(x: X, y: X, z: X, f: X -> Option<Y>)
    ensures FilterMap([x, y, z], f) == Kept(f(x)) + Kept(f(y)) + Kept(f(z))
  {
    assert [x, y, z][1..] == [y, z];
    assert [y, z][1..] == [z];
    FilterMapOne(z, f);
    assert FilterMap([y, z], f) == Kept(f(y)) + Kept(f(z));
  }

  lemma ThreeLines(x: string, y: string, z: string, eval: string -> Option<seq<string>>)
    ensures ParseLines([x, y, z], eval)
      == Kept(ParseLine(x, eval)) + Kept(ParseLine(y, eval)) + Kept(ParseLine(z, eval))
  {
    var f := LineParser(eval);
    assert ParseLines([x, y, z], eval) == FilterMap([x, y, z], f);
    FilterMapThree(x, y, z, f);
    assert f(x) == ParseLine(x, eval) && f(y) == ParseLine(y, eval) && f(z) == ParseLine(z, eval);
  }

  lemma KeptSomeNoneSome<Y>(a: Y, b: Y)
    ensures Kept(Some(a)) + Kept<Y>(None) + Kept(Some(b)) == [a, b]
  {
  }

  lemma Assemble(file: string, x: string, y: string, z: string, eval: string -> Option<seq<string>>, cx: WordCard, cz: WordCard)
    requires Lines(file) == [x, y, z]
    requires ParseLine(x, eval) == Some(cx) && ParseLine(y, eval) == None && ParseLine(z, eval) == Some(cz)
    ensures ParseVocab(file, eval) == [cx, cz]
  {
    ThreeLines(x, y, z, eval);
    KeptSomeNoneSome(cx, cz);
  }

  /**
   * The file yields exactly the cards `cat` (frequency 10) and `dog`
   * (frequency 5), in that order; `bad` is dropped. Both cards carry index 0.
   */
  lemma SampleFile(eval: string -> Option<seq<string>>)
    ensures ParseVocab(FILE, eval) == [
      WordCard("cat", 10, Meanings(eval, "[\"a\"]"), 0),
      WordCard("dog", 5, Meanings(eval, "[]"), 0)]
  {
    FileLines();
    CatLine(eval);
    DogLine(eval);
    NoBracketNoCard(BAD, eval);
    Assemble(FILE, CAT, BAD, DOG, eval, ParseLine(CAT, eval).value, ParseLine(DOG, eval).value);
  }
}
