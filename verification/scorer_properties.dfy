/**
 * What the scorer promises, stated over the specification `Scorer.Evaluate`
 * (which `Scorer.MockScorerWebhook` computes exactly).
 */
module ScorerProperties {
  import opened Wrappers
  import opened PyStr
  import opened Scorer

  /**
   * The scorer fails exactly on a sentence that is empty or all whitespace,
   * and then with the 500 "Scorer service error".
   */
  lemma BlankSentenceFails(data: Submission)
    ensures Evaluate(data).Failure? <==> AllSpace(data.sentence)
    ensures Evaluate(data).Failure? ==> Evaluate(data).error == ScorerError(500, "Scorer service error")
  {
    StripEmpty(data.sentence);
  }

  /**
   * The length rule depends only on the token count of the submitted
   * sentence (stripping does not change it): under 6 tokens it adds 0 with
   * the "too short" note, 6 to 9 tokens add 10 with the "length OK" note,
   * 10 or more add 15 with the "good length" note.
   */
  lemma LengthContribution(data: Submission)
    requires Strip(data.sentence) != []
    ensures var count := |Split(data.sentence)|;
            Findings(Normalize(data))[0] ==
              if count < 6 then Finding(0, Some(TooShortNote))
              else if count < 10 then Finding(10, Some(LengthOkNote))
              else Finding(15, Some(LengthGoodNote))
  {
    var n := Normalize(data);
    assert Findings(n)[0] == LengthRule(n.sentence);
  }

  /**
   * When the lower-cased word occurs in the lower-cased stripped sentence,
   * the vocabulary rule adds 20 with the note naming the word as used, and
   * the corrected sentence is the stripped sentence; otherwise it adds 0
   * with the note naming the word as missing, and the corrected sentence is
   * the template followed by the stripped sentence.
   */
  lemma VocabularyContribution(data: Submission)
    requires Strip(data.sentence) != []
    ensures var s, w := Strip(data.sentence), Lower(data.word);
            var f, r := Findings(Normalize(data))[1], Evaluate(data).value;
            (Contains(Lower(s), w) ==>
               f == Finding(20, Some(WordUsedNote(w))) && r.correctedSentence == s) &&
            (!Contains(Lower(s), w) ==>
               f == Finding(0, Some(WordMissingNote(w))) &&
               r.correctedSentence == Template(data.word) + s)
  {
    var n := Normalize(data);
    assert n.sentence == Strip(data.sentence) && n.word == Lower(data.word);
    assert Findings(n)[1] == VocabularyRule(n.word, n.sentence);
  }

  /** Some token of `tokens`, lower-cased, is one of `words`. */
  predicate SomeTokenIn(tokens: seq<string>, words: seq<string>) {
    exists t :: t in tokens && Lower(t) in words
  }

  /**
   * The capital rule adds 5 and its note when the stripped sentence starts
   * with an upper-case letter, and 0 with the other note otherwise.
   */
  lemma CapitalContribution(data: Submission)
    requires Strip(data.sentence) != []
    ensures var f := Findings(Normalize(data))[2];
            if IsUpper(Strip(data.sentence)[0]) then f == Finding(5, Some(CapitalNote))
            else f == Finding(0, Some(NoCapitalNote))
  {
    var n := Normalize(data);
    assert n.sentence == Strip(data.sentence);
    assert Findings(n)[2] == CapitalRule(n.sentence);
  }

  /**
   * The punctuation rule adds 5 and its note when the stripped sentence ends
   * with '.', '!' or '?', and 0 with the other note otherwise.
   */
  lemma PunctuationContribution(data: Submission)
    requires Strip(data.sentence) != []
    ensures var f := Findings(Normalize(data))[3];
            if EndsWithPunctuation(Strip(data.sentence)) then f == Finding(5, Some(PunctuationNote))
            else f == Finding(0, Some(NoPunctuationNote))
  {
    var n := Normalize(data);
    assert n.sentence == Strip(data.sentence);
    assert Findings(n)[3] == PunctuationRule(n.sentence);
  }

  /**
   * The verb rule adds 15 and its note exactly when some token of the
   * submitted sentence, lower-cased, is one of the common verbs, and 0 with
   * the other note otherwise.
   */
  lemma VerbContribution(data: Submission)
    requires Strip(data.sentence) != []
    ensures var f := Findings(Normalize(data))[4];
            if SomeTokenIn(Split(data.sentence), CommonVerbs) then f == Finding(15, Some(VerbNote))
            else f == Finding(0, Some(NoVerbNote))
  {
    var n := Normalize(data);
    assert Findings(n)[4] == VerbRule(n.sentence);
    WholeTokenMatch(n.sentence, CommonVerbs);
    assert HasAnyToken(n.sentence, CommonVerbs) == SomeTokenIn(Split(n.sentence), CommonVerbs);
  }

  /**
   * The preposition rule adds 10 and its note exactly when some token of the
   * submitted sentence, lower-cased, is a preposition; otherwise it adds
   * nothing and no note.
   */
  lemma PrepositionContribution(data: Submission)
    requires Strip(data.sentence) != []
    ensures var f := Findings(Normalize(data))[5];
            if SomeTokenIn(Split(data.sentence), Prepositions) then f == Finding(10, Some(PrepositionNote))
            else f == Finding(0, None)
  {
    var n := Normalize(data);
    assert Findings(n)[5] == PrepositionRule(n.sentence);
    WholeTokenMatch(n.sentence, Prepositions);
    assert HasAnyToken(n.sentence, Prepositions) == SomeTokenIn(Split(n.sentence), Prepositions);
  }

  /** The template mentions the word it was built from. */
  lemma TemplateMentionsWord(word: string, sentence: string)
    ensures MentionsWord(Lower(word), Template(word) + sentence)
  {
    LowerIdempotent(word);
    LowerKeepsInfix("I believe the ", Lower(word), " aspect of this is very important. ", sentence);
  }

  /** The corrected sentence always contains the word, case-insensitively. */
  lemma CorrectedSentenceUsesWord(data: Submission)
    requires Strip(data.sentence) != []
    ensures MentionsWord(Lower(data.word), Evaluate(data).value.correctedSentence)
  {
    TemplateMentionsWord(data.word, Strip(data.sentence));
  }

  /**
   * A normalised sentence that passes all six rules has a raw score of 115
   * (6 to 9 tokens) or 120 (10 or more) and is answered with exactly 100,
   * Advanced.
   */
  lemma AllRulesPassNormalized(n: Submission)
    requires n.sentence != []
    requires |Split(n.sentence)| >= 6
    requires MentionsWord(n.word, n.sentence)
    requires IsUpper(n.sentence[0])
    requires EndsWithPunctuation(n.sentence)
    requires HasAnyToken(n.sentence, CommonVerbs)
    requires HasAnyToken(n.sentence, Prepositions)
    ensures BaseScore + SumPoints(Findings(n)) == if |Split(n.sentence)| >= 10 then 120 else 115
    ensures Aggregate(n).score == 100 && Aggregate(n).level == Advanced
  {
    var fs := Findings(n);
    SixPoints(fs);
    assert fs[0].points == (if |Split(n.sentence)| >= 10 then 15 else 10);
    assert fs[1].points == 20 && fs[2].points == 5 && fs[3].points == 5 && fs[4].points == 15 && fs[5].points == 10;
  }

  /** The same, stated on the submission as received. */
  lemma AllRulesPass(data: Submission)
    requires Strip(data.sentence) != []
    requires |Split(data.sentence)| >= 6
    requires MentionsWord(Lower(data.word), Strip(data.sentence))
    requires IsUpper(Strip(data.sentence)[0])
    requires EndsWithPunctuation(Strip(data.sentence))
    requires HasAnyToken(Strip(data.sentence), CommonVerbs)
    requires HasAnyToken(Strip(data.sentence), Prepositions)
    ensures Evaluate(data).value.score == 100 && Evaluate(data).value.level == Advanced
  {
    AllRulesPassNormalized(Normalize(data));
  }

  /** A higher score never gets a lower level. */
  lemma LevelMonotone(a: int, b: int)
    requires a <= b
    ensures LevelOf(a).Rank() <= LevelOf(b).Rank()
  {
  }

  /** The notes of six findings whose first five carry a note. */
  lemma FiveNotes(fs: seq<Finding>)
    requires |fs| == 6
    requires fs[0].note.Some? && fs[1].note.Some? && fs[2].note.Some? && fs[3].note.Some? && fs[4].note.Some?
    ensures Notes(fs) == [fs[0].note.value, fs[1].note.value, fs[2].note.value, fs[3].note.value, fs[4].note.value] + NoteOf(fs[5])
  {
    SixNotes(fs);
    assert [] + NoteOf(fs[0]) + NoteOf(fs[1]) == [fs[0].note.value, fs[1].note.value];
    assert [fs[0].note.value, fs[1].note.value] + NoteOf(fs[2]) == [fs[0].note.value, fs[1].note.value, fs[2].note.value];
    assert [fs[0].note.value, fs[1].note.value, fs[2].note.value] + NoteOf(fs[3])
        == [fs[0].note.value, fs[1].note.value, fs[2].note.value, fs[3].note.value];
  }

  /**
   * The suggestion is the level's opening phrase followed by the notes of
   * rules 1 to 5, in rule order, and the preposition note exactly when the
   * preposition rule passes, joined by single spaces.
   */
  lemma SuggestionInRuleOrder(data: Submission)
    requires Strip(data.sentence) != []
    ensures var fs, r := Findings(Normalize(data)), Evaluate(data).value;
            r.suggestion ==
              r.level.Opening() +
              Join(" ", [fs[0].note.value, fs[1].note.value, fs[2].note.value, fs[3].note.value, fs[4].note.value] +
                        (if fs[5].points > 0 then [PrepositionNote] else []))
  {
    FiveNotes(Findings(Normalize(data)));
  }

  /**
   * The verb and preposition rules match whole tokens only: a rule passes
   * exactly when some whitespace-delimited token of the sentence,
   * lower-cased, is one of its words.
   */
  lemma WholeTokenMatch(sentence: string, words: seq<string>)
    ensures HasAnyToken(sentence, words) <==> exists t :: t in Split(sentence) && Lower(t) in words
  {
    SplitLower(sentence);
    var ts := Split(sentence);
    if HasAnyToken(sentence, words) {
      var w :| w in words && w in Split(Lower(sentence));
      var i :| 0 <= i < |ts| && LowerAll(ts)[i] == w;
      assert ts[i] in ts && Lower(ts[i]) in words;
    }
    if exists t :: t in ts && Lower(t) in words {
      var t :| t in ts && Lower(t) in words;
      var i :| 0 <= i < |ts| && ts[i] == t;
      assert LowerAll(ts)[i] == Lower(t);
    }
  }

  // Concrete tokens: what whole-token matching accepts and rejects.

  lemma LowerThis()
    ensures Lower("This") == "this"
  {
  }

  lemma LowerIn()
    ensures Lower("In,") == "in,"
  {
  }

  lemma NotVerbs()
    ensures "this" !in CommonVerbs && "is." !in CommonVerbs
  {
  }

  lemma InCommaIsNoPreposition()
    ensures "in," !in Prepositions
  {
  }

  /** "This" contains the verb "is" but is no verb token, so the verb rule fails. */
  lemma PartialVerbTokenDoesNotMatch()
    ensures Contains(Lower("This"), "is")
    ensures VerbRule("This").points == 0
  {
    LowerThis();
    assert "is" <= "this"[2..];
    SplitOneWord("this");
    NotVerbs();
  }

  /** "is." carries its full stop, so it is no verb token. */
  lemma PunctuatedVerbDoesNotMatch()
    ensures "is" in CommonVerbs
    ensures VerbRule("is.").points == 0
  {
    assert Lower("is.") == "is.";
    SplitOneWord("is.");
    NotVerbs();
  }

  /** "In," carries a comma, so it is no preposition token and the preposition rule is silent. */
  lemma PunctuatedPrepositionDoesNotMatch()
    ensures "in" in Prepositions
    ensures PrepositionRule("In,") == Finding(0, None)
  {
    LowerIn();
    SplitOneWord("in,");
    InCommaIsNoPreposition();
  }

  /** The bare token "In" is the preposition "in" once lower-cased: 10 points and the note. */
  lemma WholePrepositionMatches()
    ensures PrepositionRule("In") == Finding(10, Some(PrepositionNote))
  {
    assert Lower("In") == "in";
    SplitOneWord("in");
    assert "in" in Prepositions && "in" in Split(Lower("In"));
  }
}
