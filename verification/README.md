# worddee.ai sentence scorer — a Dafny model

This project models the sentence-scoring core of the worddee.ai backend:

- the local scorer `mock_scorer_webhook`;
- the `/api/score` endpoint `validate_sentence`, which prefers a remote scorer webhook and falls back to the local scorer.

A learner submits a word and a sentence that should use it. The scorer:

- strips the sentence and lower-cases the word;
- starts from 50 points and applies six additive rules (length, vocabulary, capital, punctuation, verb, preposition), each adding a feedback note, except that the preposition rule is silent when it fails;
- clamps the score to [0, 100] and maps it to a level (Beginner, Intermediate, Advanced at 70 and 85);
- builds a suggestion from the level's opening phrase and the space-joined notes;
- puts a template sentence in front of the learner's sentence when the word is missing.

The files:

- `wrappers.dfy`: `Option` and `Result`.
- `pystr.dfy`: the Python string operations the scorer uses (`strip`, `split()`, `lower`, `isupper`, `in`, `join`) over ASCII, with lemmas stating what `strip`, `split()`, `lower` and `in` mean character by character. `isupper` on one character and `join` are given by their definitions.
- `scorer.dfy`: the scorer.
  - `Evaluate` is the specification: a fold over the six rule findings.
  - `MockScorerWebhook` is the step-by-step procedure of the source, with a running `score` and a growing `feedback` list. It is proved to return exactly `Evaluate`.
  - Each rule step is a method proved against its rule function.
- `scorer_properties.dfy`: what the scorer promises, stated as lemmas over `Evaluate`.
- `dispatch.dfy`: the endpoint. What the remote call did, and whether its body fits the `AIResponse` schema, are parameters.

A blank sentence is an error:

- The scorer evaluates `sentence[0]` on the stripped sentence (backend/main.py:154). This raises when the stripped sentence is empty.
- The handler turns that into HTTP 500 "Scorer service error" (backend/main.py:214-216).
- In the model, this is a `Failure(ScorerError(500, "Scorer service error"))` result.

## Model

| member | source | states |
|---|---|---|
| Scorer.MockScorerWebhook | backend/main.py:121-216 | The step-by-step scorer returns exactly `Evaluate`: the base 50 plus the six rule contributions in order, clamped, with level, suggestion and corrected sentence. It returns the 500 error when the stripped sentence is empty. |
| Scorer.Evaluate | backend/main.py:127-216 | The scorer fails exactly when the stripped sentence is empty, and then with the 500 "Scorer service error". Otherwise the score lies in [50, 100]. |
| Scorer.Normalize | backend/main.py:128-129 | The normalised sentence has no whitespace at either end and the same tokens as the submitted one. The normalised word is already lower-case. |
| Scorer.CheckLength | backend/main.py:136-144 | The length step adds the length rule's points to the running score and appends its note. |
| Scorer.CheckVocabulary | backend/main.py:146-151 | The vocabulary step adds 20 and the "used" note when the word occurs in the lower-cased sentence. Otherwise it adds nothing and appends the "missing" note. |
| Scorer.CheckCapital | backend/main.py:153-158 | The capital step adds the capital rule's points and note for a non-empty sentence. |
| Scorer.CheckPunctuation | backend/main.py:160-165 | The punctuation step adds the punctuation rule's points and note. |
| Scorer.CheckVerb | backend/main.py:167-174 | The verb step adds the verb rule's points and note. |
| Scorer.CheckPreposition | backend/main.py:176-181 | The preposition step adds 10 and a note when a token is a preposition. Otherwise it adds nothing and appends nothing. |
| Scorer.Findings | backend/main.py:135-181 | There are six findings. The first five always carry a note. The preposition finding carries one exactly when it scores. |
| Scorer.Clamp | backend/main.py:183-185 | The result lies in [0, 100], equals the input inside that range, and is 100 above it and 0 below it. |
| Scorer.LevelOf | backend/main.py:187-196 | Advanced exactly when the score is at least 85. Intermediate exactly when it is 70 to 84. Beginner exactly when it is below 70. |
| Scorer.Respond | backend/main.py:183-202 | The tail of the scorer: the clamped score, its level, the level's opening followed by the joined notes, and the corrected sentence. |
| Scorer.Aggregate | backend/main.py:132-209 | For a non-blank normalised submission the reported score lies in [50, 100]. |
| ScorerProperties.BlankSentenceFails | backend/main.py:154-216 | The scorer fails exactly on an empty or all-whitespace sentence. The error is the 500 "Scorer service error". |
| ScorerProperties.LengthContribution | backend/main.py:136-144 | Under 6 tokens the length rule adds 0 with the "too short" note, 6 to 9 tokens add 10 with the "length OK" note, and 10 or more add 15 with the "good length" note. The count is that of the submitted sentence, because stripping keeps the tokens. |
| ScorerProperties.VocabularyContribution | backend/main.py:146-202 | When the lower-cased word occurs in the lower-cased stripped sentence, the rule adds 20 with the note naming the word as used, and the corrected sentence is the stripped sentence. Otherwise the rule adds 0 with the note naming the word as missing, and the corrected sentence is the template followed by the stripped sentence. |
| ScorerProperties.CapitalContribution | backend/main.py:153-158 | The capital rule adds 5 and its note when the stripped sentence starts with an upper-case letter, and 0 with the other note otherwise. |
| ScorerProperties.PunctuationContribution | backend/main.py:160-165 | The punctuation rule adds 5 and its note when the stripped sentence ends with '.', '!' or '?', and 0 with the other note otherwise. |
| ScorerProperties.VerbContribution | backend/main.py:167-174 | The verb rule adds 15 and its note exactly when some token of the submitted sentence, lower-cased, is one of the 19 listed verbs, and 0 with the other note otherwise. |
| ScorerProperties.PrepositionContribution | backend/main.py:176-181 | The preposition rule adds 10 and its note exactly when some token of the submitted sentence, lower-cased, is one of the 12 prepositions. Otherwise it adds 0 and no note. |
| ScorerProperties.TemplateMentionsWord | backend/main.py:198-202 | The template built for a word contains that word, case-insensitively. |
| ScorerProperties.CorrectedSentenceUsesWord | backend/main.py:198-202 | The corrected sentence always contains the lower-cased word, case-insensitively. |
| ScorerProperties.AllRulesPassNormalized | backend/main.py:132-196 | A normalised sentence passing all six rules has a raw score of 115 (6 to 9 tokens) or 120 (10 or more). It is reported as exactly 100, Advanced. |
| ScorerProperties.AllRulesPass | backend/main.py:128-196 | A submitted sentence passing all six rules is reported as exactly 100, Advanced. |
| ScorerProperties.LevelMonotone | backend/main.py:187-196 | A higher score never gets a lower level. |
| ScorerProperties.SuggestionInRuleOrder | backend/main.py:133-196 | The suggestion is the level's opening phrase followed by the notes, joined by single spaces. The notes come in rule order: length, vocabulary, capital, punctuation and verb always, and the preposition note exactly when that rule scores. |
| ScorerProperties.WholeTokenMatch | backend/main.py:168-178 | The verb and preposition tests pass exactly when some whitespace-delimited token of the sentence, lower-cased, is one of the listed words. |
| ScorerProperties.PartialVerbTokenDoesNotMatch | backend/main.py:168-174 | "This" contains "is" but the verb rule gives it 0. |
| ScorerProperties.PunctuatedVerbDoesNotMatch | backend/main.py:168-174 | "is." is no verb token: the verb rule gives it 0. |
| ScorerProperties.PunctuatedPrepositionDoesNotMatch | backend/main.py:177-181 | "In," is no preposition token: the rule gives 0 and no note. |
| ScorerProperties.WholePrepositionMatches | backend/main.py:177-181 | "In" matches the preposition "in": 10 points and the note. |
| PyStr.SplitStrip | backend/main.py:128-136 | Stripping a sentence does not change its tokens. |
| PyStr.StripEmpty | backend/main.py:128 | `strip` gives the empty string exactly when the text is empty or all whitespace. |
| PyStr.TrimStartRemovesSpace | backend/main.py:128 | `lstrip` removes only whitespace. |
| PyStr.TrimEndRemovesSpace | backend/main.py:128 | `rstrip` removes only whitespace. |
| PyStr.SplitTokensAreWords | backend/main.py:136 | Every token of `split()` is non-empty and holds no whitespace. |
| PyStr.SplitKeepsNonSpace | backend/main.py:136 | `split()` drops whitespace and nothing else: the tokens, concatenated, are the text with its whitespace removed. |
| PyStr.SplitLower | backend/main.py:169 | The tokens of the lower-cased sentence are the lower-cased tokens of the sentence. |
| PyStr.LowerIndex | backend/main.py:129 | Each character of the lower-cased text is the lower-cased character. |
| PyStr.LowerIdempotent | backend/main.py:202 | Lower-casing the already lower-cased word again changes nothing. |
| PyStr.ContainsAt | backend/main.py:147 | `needle in hay` holds exactly when the needle starts at some position of the hay. |
| Dispatch.ValidateSentence | backend/main.py:75-94 | A webhook that is configured and returns a body fitting `AIResponse` gets that body passed on. A body that does not fit gives the 500 of the response validation. In every other case (no webhook, or the call raised) the answer is the local scorer's result on the same submission. |
| Dispatch.UnconfiguredIgnoresRemote | backend/main.py:83-94 | Without a configured webhook the remote outcome plays no part, and the answer is the local scorer's. |
| Dispatch.FallbackMatchesUnconfigured | backend/main.py:84-94 | A remote call that raises leads to the same answer as having no webhook at all. |
| Dispatch.MisshapedRemoteHasNoFallback | backend/main.py:75-91 | A remote body that does not fit `AIResponse` is rejected after the handler has returned, outside its `try`. The answer is status 500, not the local fallback. |
| Dispatch.RemoteAnswersBlankSentence | backend/main.py:86-89 | A successful remote call with a well-formed body is passed on even for a blank sentence, which the local scorer would reject. |
| Dispatch.ErrorCases | backend/main.py:75-94 | The endpoint answers with an error exactly when the remote body does not fit `AIResponse`, or when it fell back to the local scorer and the sentence is blank. A rejected remote body gets status 500. A local error is the 500 "Scorer service error". |

## Left out

- The HTTP call to the remote webhook: the httpx client, its 30-second timeout, `async`/`await`, `raise_for_status` and JSON decoding. The model takes only whether the call raised or returned a body.
- What FastAPI's `response_model=AIResponse` does to a remote body beyond accepting or rejecting it.
  - Whether a body fits the schema is a parameter (`conforms`). The model gives a rejected body the 500, with no fallback.
  - Fields outside `AIResponse` are dropped and `score` is turned into a float. The model passes an accepted payload on as it is.
- `print` logging, FastAPI routing, CORS and dotenv loading. None of them changes a result.
- Floating point: the score is an integer. Every rule adds an integer, so `round(score, 1)` is the identity and is not modelled.
- Unicode: `strip`, `split`, `isupper` and `lower` are modelled over ASCII.
  - Whitespace is space, `\t`-`\r` and `\x1c`-`\x1f`.
  - Only A-Z count as upper case and are lower-cased.
  - Non-ASCII whitespace (such as U+00A0) and non-ASCII letters are treated as ordinary characters.
- `get_random_word`: it picks at random.
- `get_dashboard_summary` and `mock_summary_webhook`: an HTTP wrapper and constant data.
- The n8n workflow setup script: it only builds constant dictionaries.
- Scorer.LengthRule, Scorer.VocabularyRule, Scorer.CapitalRule, Scorer.PunctuationRule, Scorer.VerbRule, Scorer.PrepositionRule: their own postconditions state only whether a note is produced. Their points and notes are given by their bodies. The `*Contribution` lemmas in `scorer_properties.dfy` state them rule by rule for a submission.
