/**
 * The local sentence scorer of the worddee.ai backend (`mock_scorer_webhook`).
 *
 * A submission (word, sentence) is normalised (sentence stripped, word
 * lower-cased), checked by six additive rules on top of a base score of 50,
 * clamped to [0, 100], mapped to a level, and turned into a suggestion (the
 * level's opening phrase followed by the rule notes) and a corrected
 * sentence. A sentence that is blank after stripping makes the source fail
 * at `sentence[0]`; the scorer then answers with a 500 error.
 *
 * `Evaluate` is the specification: a fold over the list of rule findings.
 * `MockScorerWebhook` is the source's step-by-step procedure and is proved
 * to compute exactly `Evaluate`.
 */
module Scorer {
  import opened Wrappers
  import opened PyStr

  datatype Submission = Submission(word: string, sentence: string)

  /** What one rule contributes: its points and, possibly, a feedback note. */
  datatype Finding = Finding(points: nat, note: Option<string>)

  /** The response's `level`; each constructor stands for the string of its own name. */
  datatype Level = Beginner | Intermediate | Advanced {
    /** The level-specific phrase that opens the suggestion. */
    function Opening(): string {
      match this
      case Beginner => BeginnerOpening
      case Intermediate => IntermediateOpening
      case Advanced => AdvancedOpening
    }

    /** Position of the level in Beginner < Intermediate < Advanced. */
    function Rank(): nat {
      match this
      case Beginner => 0
      case Intermediate => 1
      case Advanced => 2
    }
  }

  /** The response body: score, level, suggestion and corrected_sentence. */
  datatype ScoreResult = ScoreResult(score: int, level: Level, suggestion: string, correctedSentence: string)

  /** The HTTP error the scorer raises when its own evaluation fails. */
  datatype ScorerError = ScorerError(status: nat, detail: string)

  const BaseScore: int := 50
  const AdvancedThreshold: int := 85
  const IntermediateThreshold: int := 70
  const ServiceError: ScorerError := ScorerError(500, "Scorer service error")

  const CommonVerbs: seq<string> :=
    ["is", "are", "was", "were", "be", "have", "has", "had", "do", "does", "did",
     "can", "could", "will", "would", "should", "must", "may", "might"]
  const Prepositions: seq<string> :=
    ["in", "on", "at", "by", "with", "for", "to", "from", "of", "about", "through", "during"]

  const AdvancedOpening: string := "Excellent work! Your sentence demonstrates strong command of English. "
  const IntermediateOpening: string := "Good job! You're on the right track. "
  const BeginnerOpening: string := "Keep practicing! Review the feedback below to improve. "

  const TooShortNote: string := "❌ ประโยคสั้นเกินไป - ใช้อย่างน้อย 6 คำ"
  const LengthOkNote: string := "✓ ความยาวโอเค"
  const LengthGoodNote: string := "✓ ประโยคมีความยาวที่ดี"
  const CapitalNote: string := "✓ ตัวพิมพ์ใหญ่ที่ต้นประโยค"
  const NoCapitalNote: string := "❌ ต้องขึ้นต้นด้วยตัวพิมพ์ใหญ่"
  const PunctuationNote: string := "✓ ลงท้ายด้วยวรรคตอนที่ถูกต้อง"
  const NoPunctuationNote: string := "❌ ต้องลงท้ายด้วยจุด, อัศเจรีย์, หรือเครื่องหมายคำถาม"
  const VerbNote: string := "✓ ใช้กริยาได้ถูกต้อง"
  const NoVerbNote: string := "⚠️  ไม่มีกริยาในประโยค - ตรวจสอบไวยากรณ์"
  const PrepositionNote: string := "✓ ใช้บุพบทได้"

  function WordUsedNote(word: string): string {
    "✓ ใช้คำศัพท์ '" + word + "' ได้ถูกต้อง"
  }

  function WordMissingNote(word: string): string {
    "❌ ไม่เห็นคำศัพท์ '" + word + "' ในประโยค"
  }

  /** The example sentence put in front of a sentence that lacks the word. */
  function Template(word: string): string {
    "I believe the " + Lower(word) + " aspect of this is very important. "
  }

  // ---------------------------------------------------------------------
  // The conditions the rules look at

  /** `word in sentence.lower()`. */
  predicate MentionsWord(word: string, sentence: string) {
    Contains(Lower(sentence), word)
  }

  /** `sentence.endswith(('.', '!', '?'))`. */
  predicate EndsWithPunctuation(sentence: string) {
    sentence != [] && sentence[|sentence| - 1] in {'.', '!', '?'}
  }

  /** `any(w in sentence.lower().split() for w in words)`. */
  predicate HasAnyToken(sentence: string, words: seq<string>) {
    exists w :: w in words && w in Split(Lower(sentence))
  }

  // ---------------------------------------------------------------------
  // Normalisation and the six rules

  /** `data.sentence.strip()` and `data.word.lower()`. */
  function Normalize(data: Submission): (n: Submission)
    ensures n.sentence != [] ==> !IsSpace(n.sentence[0]) && !IsSpace(n.sentence[|n.sentence| - 1])
    ensures Split(n.sentence) == Split(data.sentence)
    ensures Lower(n.word) == n.word
  {
    SplitStrip(data.sentence);
    LowerIdempotent(data.word);
    var t := TrimStart(data.sentence);
    var r := TrimEnd(t);
    assert r != [] ==> r[0] == t[0];
    Submission(Lower(data.word), r)
  }

  /** Rule 1: fewer than 6 tokens earn nothing, 6 to 9 earn 10, 10 or more earn 15. */
  function LengthRule(sentence: string): (f: Finding)
    ensures f.note.Some?
  {
    var count := |Split(sentence)|;
    if count < 6 then Finding(0, Some(TooShortNote))
    else if count < 10 then Finding(10, Some(LengthOkNote))
    else Finding(15, Some(LengthGoodNote))
  }

  /** Rule 2: the (lower-cased) word occurs in the lower-cased sentence: 20 points. */
  function VocabularyRule(word: string, sentence: string): (f: Finding)
    ensures f.note.Some?
  {
    if MentionsWord(word, sentence) then Finding(20, Some(WordUsedNote(word)))
    else Finding(0, Some(WordMissingNote(word)))
  }

  /** Rule 3: the first character is upper-case: 5 points. */
  function CapitalRule(sentence: string): (f: Finding)
    requires sentence != []
    ensures f.note.Some?
  {
    if IsUpper(sentence[0]) then Finding(5, Some(CapitalNote))
    else Finding(0, Some(NoCapitalNote))
  }

  /** Rule 4: the sentence ends with '.', '!' or '?': 5 points. */
  function PunctuationRule(sentence: string): (f: Finding)
    ensures f.note.Some?
  {
    if EndsWithPunctuation(sentence) then Finding(5, Some(PunctuationNote))
    else Finding(0, Some(NoPunctuationNote))
  }

  /** Rule 5: some whole lower-cased token is a common auxiliary verb: 15 points. */
  function VerbRule(sentence: string): (f: Finding)
    ensures f.note.Some?
  {
    if HasAnyToken(sentence, CommonVerbs) then Finding(15, Some(VerbNote))
    else Finding(0, Some(NoVerbNote))
  }

  /** Rule 6: some whole lower-cased token is a preposition: 10 points; silent otherwise. */
  function PrepositionRule(sentence: string): (f: Finding)
    ensures f.note.Some? <==> f.points > 0
  {
    if HasAnyToken(sentence, Prepositions) then Finding(10, Some(PrepositionNote))
    else Finding(0, None)
  }

  /** The findings of the six rules on a normalised submission, in rule order. */
  function Findings(n: Submission): (fs: seq<Finding>)
    requires n.sentence != []
    ensures |fs| == 6
    ensures fs[0].note.Some? && fs[1].note.Some? && fs[2].note.Some? && fs[3].note.Some? && fs[4].note.Some?
    ensures fs[5].note.Some? <==> fs[5].points > 0
  {
    [LengthRule(n.sentence), VocabularyRule(n.word, n.sentence), CapitalRule(n.sentence),
     PunctuationRule(n.sentence), VerbRule(n.sentence), PrepositionRule(n.sentence)]
  }

  // ---------------------------------------------------------------------
  // Aggregation

  /** Total points of the findings, added up in order. */
  function SumPoints(fs: seq<Finding>): nat {
    if fs == [] then 0 else SumPoints(fs[..|fs| - 1]) + fs[|fs| - 1].points
  }

  /** The finding's note as a list of zero or one notes. */
  function NoteOf(f: Finding): seq<string> {
    if f.note.Some? then [f.note.value] else []
  }

  /** The notes of the findings that have one, in order. */
  function Notes(fs: seq<Finding>): seq<string> {
    if fs == [] then [] else Notes(fs[..|fs| - 1]) + NoteOf(fs[|fs| - 1])
  }

  /** `max(min(x, 100), 0)`. */
  function Clamp(x: int): (r: int)
    ensures 0 <= r <= 100
    ensures 0 <= x <= 100 ==> r == x
    ensures x > 100 ==> r == 100
    ensures x < 0 ==> r == 0
  {
    var capped := if x < 100 then x else 100;
    if capped > 0 then capped else 0
  }

  /** The level of a clamped score; each band includes its lower bound. */
  function LevelOf(score: int): (l: Level)
    ensures l == Advanced <==> score >= AdvancedThreshold
    ensures l == Intermediate <==> IntermediateThreshold <= score < AdvancedThreshold
    ensures l == Beginner <==> score < IntermediateThreshold
  {
    if score >= AdvancedThreshold then Advanced
    else if score >= IntermediateThreshold then Intermediate
    else Beginner
  }

  function Suggestion(level: Level, notes: seq<string>): string {
    level.Opening() + Join(" ", notes)
  }

  /** The sentence itself when it mentions the word, else the template in front of it. */
  function CorrectedSentence(word: string, sentence: string): string {
    if MentionsWord(word, sentence) then sentence else Template(word) + sentence
  }

  /** Score, level, suggestion and corrected sentence of a normalised, non-blank submission. */
  function Aggregate(n: Submission): (r: ScoreResult)
    requires n.sentence != []
    ensures BaseScore <= r.score <= 100
  {
    var fs := Findings(n);
    var score := Clamp(BaseScore + SumPoints(fs));
    var level := LevelOf(score);
    ScoreResult(score, level, Suggestion(level, Notes(fs)), CorrectedSentence(n.word, n.sentence))
  }

  /** The scorer's answer to a submission. */
  function Evaluate(data: Submission): (r: Result<ScoreResult, ScorerError>)
    ensures r.Failure? <==> Strip(data.sentence) == []
    ensures r.Failure? ==> r.error == ServiceError
    ensures r.Success? ==> BaseScore <= r.value.score <= 100
  {
    var n := Normalize(data);
    if n.sentence == [] then Failure(ServiceError) else Success(Aggregate(n))
  }

  /** The fold over the first `k` findings extends the fold over the first `k - 1`. */
  lemma PrefixFinding(fs: seq<Finding>, k: nat)
    requires 0 < k <= |fs|
    ensures SumPoints(fs[..k]) == SumPoints(fs[..k - 1]) + fs[k - 1].points
    ensures Notes(fs[..k]) == Notes(fs[..k - 1]) + NoteOf(fs[k - 1])
  {
    assert fs[..k][..k - 1] == fs[..k - 1];
  }

  /** Folding six findings one after the other, as the scorer does: the points. */
  lemma SixPoints(fs: seq<Finding>)
    requires |fs| == 6
    ensures SumPoints(fs) == fs[0].points + fs[1].points + fs[2].points + fs[3].points + fs[4].points + fs[5].points
  {
    PrefixFinding(fs, 5);
    PrefixFinding(fs, 4);
    PrefixFinding(fs, 3);
    PrefixFinding(fs, 2);
    PrefixFinding(fs, 1);
    assert fs[..0] == [];
  }

  /**
   * Folding six findings one after the other, as the scorer does: the notes,
   * appended to the empty list the scorer starts from.
   */
  lemma SixNotes(fs: seq<Finding>)
    requires |fs| == 6
    ensures Notes(fs) == [] + NoteOf(fs[0]) + NoteOf(fs[1]) + NoteOf(fs[2]) + NoteOf(fs[3]) + NoteOf(fs[4]) + NoteOf(fs[5])
  {
    PrefixFinding(fs, 5);
    PrefixFinding(fs, 4);
    PrefixFinding(fs, 3);
    PrefixFinding(fs, 2);
    PrefixFinding(fs, 1);
    assert fs[..0] == [];
  }

  /** A response assembled from the folded findings is `Aggregate`'s. */
  lemma AggregateFromSteps(n: Submission, raw: int, feedback: seq<string>, r: ScoreResult)
    requires n.sentence != []
    requires raw == BaseScore + SumPoints(Findings(n)) && feedback == Notes(Findings(n))
    requires r.score == Clamp(raw) && r.level == LevelOf(r.score)
    requires r.suggestion == Suggestion(r.level, feedback)
    requires r.correctedSentence == CorrectedSentence(n.word, n.sentence)
    ensures r == Aggregate(n)
  {
  }

  /**
   * The scorer as the source runs it: a running score and a growing list of
   * notes, updated rule after rule, then clamped and turned into a response.
   */
  method MockScorerWebhook(data: Submission) returns (r: Result<ScoreResult, ScorerError>)
    ensures r == Evaluate(data)
  {
    var sentence := Strip(data.sentence);
    var word := Lower(data.word);
    var score := BaseScore;
    var feedback: seq<string> := [];

    score, feedback := CheckLength(sentence, score, feedback);
    score, feedback := CheckVocabulary(word, sentence, score, feedback);
    if sentence == [] {
      // `sentence[0]` raises; the handler answers with a 500.
      return Failure(ServiceError);
    }
    score, feedback := CheckCapital(sentence, score, feedback);
    score, feedback := CheckPunctuation(sentence, score, feedback);
    score, feedback := CheckVerb(sentence, score, feedback);
    score, feedback := CheckPreposition(sentence, score, feedback);

    ghost var n := Submission(word, sentence);
    assert n == Normalize(data);
    ghost var fs := Findings(n);
    SixPoints(fs);
    SixNotes(fs);
    assert score == BaseScore + SumPoints(fs) && feedback == Notes(fs);

    var result := Respond(word, sentence, score, feedback);
    AggregateFromSteps(n, score, feedback, result);
    r := Success(result);
  }

  /** Rule 1 as a step: add the length points and note. */
  method CheckLength(sentence: string, score: int, feedback: seq<string>) returns (score': int, feedback': seq<string>)
    ensures score' == score + LengthRule(sentence).points
    ensures feedback' == feedback + NoteOf(LengthRule(sentence))
  {
    score', feedback' := score, feedback;
    var wordCount := |Split(sentence)|;
    if wordCount < 6 {
      feedback' := feedback' + [TooShortNote];
    } else if wordCount < 10 {
      score' := score' + 10;
      feedback' := feedback' + [LengthOkNote];
    } else {
      score' := score' + 15;
      feedback' := feedback' + [LengthGoodNote];
    }
  }

  /** Rule 2 as a step. */
  method CheckVocabulary(word: string, sentence: string, score: int, feedback: seq<string>)
    returns (score': int, feedback': seq<string>)
    ensures score' == score + VocabularyRule(word, sentence).points
    ensures feedback' == feedback + NoteOf(VocabularyRule(word, sentence))
  {
    score', feedback' := score, feedback;
    if MentionsWord(word, sentence) {
      score' := score' + 20;
      feedback' := feedback' + [WordUsedNote(word)];
    } else {
      feedback' := feedback' + [WordMissingNote(word)];
    }
  }

  /** Rule 3 as a step; the caller has ruled out the empty sentence. */
  method CheckCapital(sentence: string, score: int, feedback: seq<string>) returns (score': int, feedback': seq<string>)
    requires sentence != []
    ensures score' == score + CapitalRule(sentence).points
    ensures feedback' == feedback + NoteOf(CapitalRule(sentence))
  {
    score', feedback' := score, feedback;
    if IsUpper(sentence[0]) {
      score' := score' + 5;
      feedback' := feedback' + [CapitalNote];
    } else {
      feedback' := feedback' + [NoCapitalNote];
    }
  }

  /** Rule 4 as a step. */
  method CheckPunctuation(sentence: string, score: int, feedback: seq<string>) returns (score': int, feedback': seq<string>)
    ensures score' == score + PunctuationRule(sentence).points
    ensures feedback' == feedback + NoteOf(PunctuationRule(sentence))
  {
    score', feedback' := score, feedback;
    if EndsWithPunctuation(sentence) {
      score' := score' + 5;
      feedback' := feedback' + [PunctuationNote];
    } else {
      feedback' := feedback' + [NoPunctuationNote];
    }
  }

  /** Rule 5 as a step. */
  method CheckVerb(sentence: string, score: int, feedback: seq<string>) returns (score': int, feedback': seq<string>)
    ensures score' == score + VerbRule(sentence).points
    ensures feedback' == feedback + NoteOf(VerbRule(sentence))
  {
    score', feedback' := score, feedback;
    if HasAnyToken(sentence, CommonVerbs) {
      score' := score' + 15;
      feedback' := feedback' + [VerbNote];
    } else {
      feedback' := feedback' + [NoVerbNote];
    }
  }

  /** Rule 6 as a step: nothing is appended when no preposition is found. */
  method CheckPreposition(sentence: string, score: int, feedback: seq<string>) returns (score': int, feedback': seq<string>)
    ensures score' == score + PrepositionRule(sentence).points
    ensures feedback' == feedback + NoteOf(PrepositionRule(sentence))
  {
    score', feedback' := score, feedback;
    if HasAnyToken(sentence, Prepositions) {
      score' := score' + 10;
      feedback' := feedback' + [PrepositionNote];
    }
  }

  /**
   * The tail of the scorer: clamp the running score, pick the level and its
   * suggestion, and build the corrected sentence.
   */
  method Respond(word: string, sentence: string, raw: int, feedback: seq<string>) returns (r: ScoreResult)
    ensures r.score == Clamp(raw) && r.level == LevelOf(r.score)
    ensures r.suggestion == Suggestion(r.level, feedback)
    ensures r.correctedSentence == CorrectedSentence(word, sentence)
  {
    var score := raw;
    score := if score < 100 then score else 100;
    score := if score > 0 then score else 0;

    var level: Level;
    var suggestion: string;
    if score >= AdvancedThreshold {
      level := Advanced;
      suggestion := AdvancedOpening + Join(" ", feedback);
    } else if score >= IntermediateThreshold {
      level := Intermediate;
      suggestion := IntermediateOpening + Join(" ", feedback);
    } else {
      level := Beginner;
      suggestion := BeginnerOpening + Join(" ", feedback);
    }

    var corrected := sentence;
    if !MentionsWord(word, sentence) {
      corrected := Template(word) + sentence;
    }
    r := ScoreResult(score, level, suggestion, corrected);
  }
}
