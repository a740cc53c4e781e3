# Continuous pronunciation assessment, modelled in Dafny

This project models the continuous pronunciation-assessment sample of the Speech SDK samples repository, in
`samples/csharp/sharedcontent/console/speech_recognition_samples.cs`. A long reading is recognized utterance by utterance. Each Recognized event adds to the session's running
lists:
- one prosody score;
- the SDK's assessed words as `Word` records;
- the padded durations and texts of the words of every alternative `Best()` returns;
- the start and end offsets of the session.

Once the session has stopped, the sample does four things:
1. It copies the durations onto the Words (a `Zip`).
2. It computes the reference words. For languages written with spaces, it lower-cases the reference text, splits it
   on ' ' and trims punctuation from each piece. For zh-CN, it segments the punctuation-free reference text by greedy
   longest matching against the words of a calibration recognition.
3. When miscue detection is on, it walks a line diff of the reference words against the recognized words. The walk
   labels missing words Omission and extra words Insertion.
4. It recomputes the paragraph scores: accuracy, prosody, fluency, completeness and the weighted pronunciation score.

The modules follow those steps:

| module | file | contents |
|---|---|---|
| `Words` | `words.dfy` | the `Word` record and its constructors; the filter that drops Insertions |
| `TextCleaning` | `text_cleaning.dfy` | punctuation removal, lower-casing, splitting on ' ', trimming |
| `Segmentation` | `segmentation.dfy` | the dictionary segmentation of a text without spaces; collecting the calibration words |
| `Accumulation` | `accumulation.dfy` | the Recognized handler, as the class `Session` whose fields are the sample's six running variables, and the duration `Zip` |
| `Alignment` | `alignment.dfy` | the walk over the diff |
| `Scoring` | `scoring.dfy` | the paragraph scores |
| `Assessment` | `assessment.dfy` | the steps after the session, put together |

Stateful code is modelled imperatively:
- The handler's loops and the `Zip` are methods of `Session`.
- Each `Session` method is proved equal to a specification function of the old state: `Recognized`, `TakeAlternatives`, `RecognizedAll` or `WithDurations`.
- The two segmentation loops, the trimming loop and the diff walk are methods with loop invariants.

Pure computations are functions: the scores, the pick between the two segmentations, and the text helpers.

Several inputs are parameters of the model, not computations in it:
- **Unicode character classes.** Letter-or-digit, white space, punctuation and lower-casing are a `CharClasses` value.
- **The diff.** It is an input sequence of `DiffPiece`s. The lemmas constrain it with `IsEditScript`: the pieces, read in order, spell out the reference words and the recognized words.

A program failure becomes an `Err` value:
- an exception, such as indexing past `pronWords` or `Max` over an empty dictionary (`First()` or `Last()` on an empty alternative is handled differently, as "## Left out" says);
- a division whose result would be NaN or infinity.

Behaviours of the code that are easy to misread, and what the model does:
- During the walk, an inserted word is added to the final words only when its label is `None`. Any other inserted word is dropped; it is never kept with its own label.
- A `Modified` piece gives an Omission carrying the reference word, then an Insertion when the Word's label is `None`. It also advances the cursor.
- Punctuation removal before segmentation keeps white space as well as letters and digits.
- `SegmentWord` always returns the left-to-right segmentation. That segmentation always joins back to the text, so the right-to-left one and the tie-breaks are never used. `SegmentWord` and `PickSegmentation` prove this.
- `startOffset` is set from the first alternative whose first word has a non-zero offset, because 0 doubles as "not set yet". `ZeroStartIsNotKept` shows a recognition starting at offset 0 being overwritten.
- A zero denominator in the scores is not reported as an error. It gives NaN or infinity, and the model reports it as `Err`.

## Model

| member | source | states |
|---|---|---|
| Words.Unscored | samples/csharp/sharedcontent/console/speech_recognition_samples.cs:2214-2220 | the two-argument `Word` constructor sets the text and label, with accuracy and duration 0 |
| Words.Scored | samples/csharp/sharedcontent/console/speech_recognition_samples.cs:2222-2225 | the three-argument constructor also sets the accuracy, with duration 0 |
| Words.NotInserted | samples/csharp/sharedcontent/console/speech_recognition_samples.cs:1511 | reference definition of the `Where` that drops Insertions: never longer than its input; see `NotInsertedMembers` and `NotInsertedAppend` |
| Words.NotInsertedMembers | samples/csharp/sharedcontent/console/speech_recognition_samples.cs:1511 | a word is kept by the Insertion filter iff it is in the list and not labelled Insertion |
| Words.NotInsertedAppend | samples/csharp/sharedcontent/console/speech_recognition_samples.cs:1511 | the filter distributes over concatenation |
| TextCleaning.Concat | samples/csharp/sharedcontent/console/speech_recognition_samples.cs:1225 | reference definition of `string.Join("", …)`; see `ConcatAppend` and the segmentation contracts |
| TextCleaning.ConcatAppend | samples/csharp/sharedcontent/console/speech_recognition_samples.cs:1225 | joining distributes over concatenation of the token lists |
| TextCleaning.RemovePunctuation | samples/csharp/sharedcontent/console/speech_recognition_samples.cs:1214-1218 | the result is no longer than the text, holds only letters, digits and white space, and keeps every such character of the text |
| TextCleaning.RemovePunctuationIsSubsequence | samples/csharp/sharedcontent/console/speech_recognition_samples.cs:1214-1218 | the cleaned text is a subsequence of the original, in order |
| TextCleaning.RemovePunctuationIdempotent | samples/csharp/sharedcontent/console/speech_recognition_samples.cs:1214-1218 | cleaning twice is cleaning once |
| TextCleaning.RemovePunctuationOfClean | samples/csharp/sharedcontent/console/speech_recognition_samples.cs:1214-1218 | a text of letters, digits and white space is unchanged |
| TextCleaning.RemovePunctuationAppend | samples/csharp/sharedcontent/console/speech_recognition_samples.cs:1214-1218 | cleaning distributes over concatenation |
| TextCleaning.ToLower | samples/csharp/sharedcontent/console/speech_recognition_samples.cs:1462 | lower-casing works character by character: same length, each character lowered |
| TextCleaning.SplitOnSpace | samples/csharp/sharedcontent/console/speech_recognition_samples.cs:1462 | `Split(' ')` gives at least one piece, no piece holds a space, and joining the pieces with ' ' gives back the text |
| TextCleaning.SplitJoinRoundTrip | samples/csharp/sharedcontent/console/speech_recognition_samples.cs:1462 | splitting a ' '-join of space-free pieces gives back the pieces |
| TextCleaning.TrimPunctuation | samples/csharp/sharedcontent/console/speech_recognition_samples.cs:1465 | the result is the middle of the word, after the maximal leading and before the maximal trailing run of punctuation and white space, and it neither starts nor ends with such a character |
| TextCleaning.TrimPunctuationIdempotent | samples/csharp/sharedcontent/console/speech_recognition_samples.cs:1465 | trimming twice is trimming once |
| TextCleaning.TrimReferenceWords | samples/csharp/sharedcontent/console/speech_recognition_samples.cs:1463-1466 | the in-place loop leaves each array slot holding the trimmed old word |
| TextCleaning.SpaceDelimitedReferenceWords | samples/csharp/sharedcontent/console/speech_recognition_samples.cs:1462-1466 | the reference words are the lower-cased text split on ' ', piece by piece trimmed, one per piece |
| Segmentation.LeftToRightSegmentation | samples/csharp/sharedcontent/console/speech_recognition_samples.cs:1244-1265 | the tokens join back to the text; each is a dictionary word of at most `maxLength` characters or a single character; each is the longest dictionary prefix of what is left |
| Segmentation.RightToLeftSegmentation | samples/csharp/sharedcontent/console/speech_recognition_samples.cs:1268-1293 | the reversed tokens join back to the text, are tokens in the same sense, and each is the longest dictionary suffix of what is left before it |
| Segmentation.Reversed | samples/csharp/sharedcontent/console/speech_recognition_samples.cs:1291 | `Reverse()`: same length, and the k-th element is the k-th from the end |
| Segmentation.GreedyFromLeftExtend | samples/csharp/sharedcontent/console/speech_recognition_samples.cs:1246-1263 | adding the longest prefix match of the rest keeps a segmentation greedy from the left |
| Segmentation.GreedyFromRightPrepend | samples/csharp/sharedcontent/console/speech_recognition_samples.cs:1270-1291 | adding the longest suffix match in front keeps a segmentation greedy from the right |
| Segmentation.LeftStep | samples/csharp/sharedcontent/console/speech_recognition_samples.cs:1246-1263 | one pass of the left-to-right loop keeps the join and greediness invariants |
| Segmentation.RightStep | samples/csharp/sharedcontent/console/speech_recognition_samples.cs:1270-1291 | one pass of the right-to-left loop keeps them for the reversed list |
| Segmentation.LongestPrefixMatchUnique | samples/csharp/sharedcontent/console/speech_recognition_samples.cs:1244-1265 | the piece taken at each step is determined by the text |
| Segmentation.GreedyFromLeftUnique | samples/csharp/sharedcontent/console/speech_recognition_samples.cs:1244-1265 | there is only one greedy left-to-right segmentation of a text |
| Segmentation.GreedyFromLeftTokens | samples/csharp/sharedcontent/console/speech_recognition_samples.cs:1244-1265 | every piece of a greedy left segmentation is a dictionary word or a single character, of at most `maxLength` characters |
| Segmentation.GreedyFromRightTokens | samples/csharp/sharedcontent/console/speech_recognition_samples.cs:1268-1293 | the same for a greedy right segmentation |
| Segmentation.SingleCharacterCount | samples/csharp/sharedcontent/console/speech_recognition_samples.cs:1238-1239 | reference definition of the one-character count used by the tie-break: at most the number of tokens; see `PickSegmentation` |
| Segmentation.PickSegmentation | samples/csharp/sharedcontent/console/speech_recognition_samples.cs:1225-1240 | one of the two candidates is returned; the left-to-right one whenever it joins back to the text; the result joins back iff one of the candidates does; when neither joins back and they differ, left-to-right is returned iff it has fewer tokens, or as many tokens and fewer one-character tokens, so a full tie goes to right-to-left |
| Segmentation.SegmentWord | samples/csharp/sharedcontent/console/speech_recognition_samples.cs:1220-1241 | the segmentation joins back to the text, has only tokens, and is the greedy left-to-right one |
| Segmentation.MaxLength | samples/csharp/sharedcontent/console/speech_recognition_samples.cs:1208 | the bound is the length of a dictionary word and no word is longer |
| Segmentation.Dictionary | samples/csharp/sharedcontent/console/speech_recognition_samples.cs:1207 | reference definition of the `HashSet` of calibration words; see `ConvertReferenceWords` |
| Segmentation.ConvertReferenceWords | samples/csharp/sharedcontent/console/speech_recognition_samples.cs:1205-1212 | an empty word list fails (`Max` throws); it loops for ever iff every word is empty and the cleaned text is not; otherwise the result is the greedy segmentation of the cleaned text with the list's words, and it joins back to that text |
| Segmentation.NonInsertedTexts | samples/csharp/sharedcontent/console/speech_recognition_samples.cs:1323-1332 | reference definition of the calibration words not labelled Insertion, in order; see `CollectReferenceWords` and `NonInsertedTextsCount` |
| Segmentation.CollectReferenceWords | samples/csharp/sharedcontent/console/speech_recognition_samples.cs:1323-1332 | the collected words are the calibration words not labelled Insertion, in order, and each comes from such an item |
| Segmentation.NonInsertedTextsCount | samples/csharp/sharedcontent/console/speech_recognition_samples.cs:1323-1332 | every calibration word is either collected or labelled Insertion |
| Accumulation.AsWord | samples/csharp/sharedcontent/console/speech_recognition_samples.cs:1420 | the three-argument `Word` copies text, label and accuracy, with duration 0 |
| Accumulation.AsWords | samples/csharp/sharedcontent/console/speech_recognition_samples.cs:1418-1422 | one `Word` per assessed word, in order, with its text, label and accuracy |
| Accumulation.PaddedDurations | samples/csharp/sharedcontent/console/speech_recognition_samples.cs:1426 | each duration is the word's duration plus the 100000-tick padding |
| Accumulation.WordTexts | samples/csharp/sharedcontent/console/speech_recognition_samples.cs:1427 | the recognized texts, word by word |
| Accumulation.ProsodyScores | samples/csharp/sharedcontent/console/speech_recognition_samples.cs:1416 | one prosody score per utterance, in order |
| Accumulation.TakeAlternative | samples/csharp/sharedcontent/console/speech_recognition_samples.cs:1426-1431 | one turn of the loop over `Best()`: prosody scores and Words untouched, as many durations as texts added, a non-zero start kept; see `TakeAlternativesAppends` and `EndOffsetIsLastWord` |
| Accumulation.TakeAlternatives | samples/csharp/sharedcontent/console/speech_recognition_samples.cs:1424-1432 | reference definition of the loop over `Best()`, stopping at an alternative without words; see `TakeAlternativesFrame`, `TakeAlternativesAppends`, `TakeAlternativesStopped` and `Session.TakeBest` |
| Accumulation.Recognized | samples/csharp/sharedcontent/console/speech_recognition_samples.cs:1411-1433 | reference definition of one Recognized event: the prosody score, the Words, then the alternatives; see `Session.OnRecognized` |
| Accumulation.RecognizedAll | samples/csharp/sharedcontent/console/speech_recognition_samples.cs:1411-1433 | reference definition of a series of Recognized events, in arrival order; see `RecognizedAllAppends`, `RecognizedAllKeepsStart`, `RecognizedAllParallel` and `Session.Feed` |
| Accumulation.TakeAlternativesFrame | samples/csharp/sharedcontent/console/speech_recognition_samples.cs:1424-1432 | the loop over alternatives touches neither prosody scores nor Words, and adds as many durations as recognized words |
| Accumulation.TakeAlternativesKeepsStart | samples/csharp/sharedcontent/console/speech_recognition_samples.cs:1429 | a non-zero start offset is never overwritten |
| Accumulation.TakeAlternativesAppends | samples/csharp/sharedcontent/console/speech_recognition_samples.cs:1424-1432 | when no alternative is empty, the durations and recognized words grow by exactly the alternatives' padded durations and texts, in order |
| Accumulation.EndOffsetIsLastWord | samples/csharp/sharedcontent/console/speech_recognition_samples.cs:1431 | the end offset is the last word's offset plus duration plus padding |
| Accumulation.TakeAlternativesStopped | samples/csharp/sharedcontent/console/speech_recognition_samples.cs:1424-1432 | once `First()` or `Last()` throws on an empty alternative, later alternatives change nothing |
| Accumulation.ZeroStartIsNotKept | samples/csharp/sharedcontent/console/speech_recognition_samples.cs:1429 | a recognition that starts at offset 0 has its start overwritten by the next alternative |
| Accumulation.RecognizedAllAppends | samples/csharp/sharedcontent/console/speech_recognition_samples.cs:1411-1433 | after a series of events, the prosody scores and Words are the old ones followed by each utterance's, in order |
| Accumulation.RecognizedAllKeepsStart | samples/csharp/sharedcontent/console/speech_recognition_samples.cs:1429 | a non-zero start survives any series of events |
| Accumulation.RecognizedAllParallel | samples/csharp/sharedcontent/console/speech_recognition_samples.cs:1426-1427 | durations and recognized words stay the same length over any series of events |
| Accumulation.Session.constructor | samples/csharp/sharedcontent/console/speech_recognition_samples.cs:1392-1398 | a new session has empty lists and zero offsets |
| Accumulation.Session.OnRecognized | samples/csharp/sharedcontent/console/speech_recognition_samples.cs:1411-1433 | the handler leaves the state `Recognized` gives, and reports whether it ran to the end |
| Accumulation.Session.AddAssessedWords | samples/csharp/sharedcontent/console/speech_recognition_samples.cs:1418-1422 | the loop appends one `Word` per assessed word and changes nothing else |
| Accumulation.Session.TakeBest | samples/csharp/sharedcontent/console/speech_recognition_samples.cs:1424-1432 | the loop over the best alternatives leaves the state and completion flag `TakeAlternatives` gives |
| Accumulation.Session.Feed | samples/csharp/sharedcontent/console/speech_recognition_samples.cs:1411-1433 | a series of events leaves the state `RecognizedAll` gives |
| Accumulation.WithDurations | samples/csharp/sharedcontent/console/speech_recognition_samples.cs:1448 | the `Zip` sets the duration of the k-th Word to the k-th duration while both lists last, and leaves the rest unchanged |
| Accumulation.WithDurationsKeepsLabels | samples/csharp/sharedcontent/console/speech_recognition_samples.cs:1448 | the `Zip` keeps every Word's text, label and accuracy, and the number of non-Insertion Words |
| Accumulation.Session.ApplyDurations | samples/csharp/sharedcontent/console/speech_recognition_samples.cs:1448 | the in-place `Zip` changes only the Words, to `WithDurations` of the old Words and durations |
| Alignment.AsInsertion | samples/csharp/sharedcontent/console/speech_recognition_samples.cs:1492-1503 | an inserted word labelled None is added relabelled Insertion; any other is dropped |
| Alignment.Omitted | samples/csharp/sharedcontent/console/speech_recognition_samples.cs:1486-1490 | a deleted reference word is added as an Omission with zero accuracy and duration |
| Alignment.StepWords | samples/csharp/sharedcontent/console/speech_recognition_samples.cs:1479-1502 | reference definition of what one diff line appends; see `StepFailsIff`, `StepTexts` and `AlignStep` |
| Alignment.StepFailsIff | samples/csharp/sharedcontent/console/speech_recognition_samples.cs:1479-1502 | a line fails iff it reads the Word under the cursor (Unchanged, Inserted, Modified) and the cursor is past the end of `pronWords` |
| Alignment.AlignFrom | samples/csharp/sharedcontent/console/speech_recognition_samples.cs:1477-1503 | reference definition of the walk from a cursor position; see `FinalWords`, `AlignSucceedsIff` and `ReferenceRecovered` |
| Alignment.AlignStep | samples/csharp/sharedcontent/console/speech_recognition_samples.cs:1477-1503 | the walk over the remaining pieces is one piece's words followed by the walk over the rest; it fails exactly when that piece's step fails |
| Alignment.FinalWords | samples/csharp/sharedcontent/console/speech_recognition_samples.cs:1469-1508 | with miscue detection off the final words are `pronWords`; with it on the walk succeeds iff `AlignFrom` does, and then gives its words; its only failure is an index past `pronWords` |
| Alignment.ConsumedIsRecognizedCount | samples/csharp/sharedcontent/console/speech_recognition_samples.cs:1477-1503 | over an edit script, the cursor advances once per recognized word |
| Alignment.AlignSucceedsIff | samples/csharp/sharedcontent/console/speech_recognition_samples.cs:1477-1503 | the walk succeeds iff the cursor's advances fit in `pronWords` |
| Alignment.CursorStaysInBounds | samples/csharp/sharedcontent/console/speech_recognition_samples.cs:1477-1503 | over an edit script, the walk succeeds iff there are at least as many Words as recognized words |
| Alignment.EditScriptStep | samples/csharp/sharedcontent/console/speech_recognition_samples.cs:1477-1503 | the first piece of an edit script takes its share of the reference and recognized words, and the rest is an edit script of what remains |
| Alignment.StepTexts | samples/csharp/sharedcontent/console/speech_recognition_samples.cs:1479-1502 | one piece adds, outside the Insertions, the recognized word for Unchanged, the reference word for Deleted or Modified, and nothing otherwise |
| Alignment.AlignTexts | samples/csharp/sharedcontent/console/speech_recognition_samples.cs:1477-1503 | the non-Insertion texts of the walk are those of its first step followed by those of the rest |
| Alignment.ReferenceRecovered | samples/csharp/sharedcontent/console/speech_recognition_samples.cs:1469-1504 | over an edit script, on Words that carry the recognized texts and no Insertion label, the walk succeeds and its non-Insertion words spell the reference words |
| Alignment.AllUnchangedKeepsWords | samples/csharp/sharedcontent/console/speech_recognition_samples.cs:1477-1484 | a diff of only Unchanged pieces gives the Words back unchanged |
| Alignment.OmissionExample | samples/csharp/sharedcontent/console/speech_recognition_samples.cs:1486-1490 | reading "a c" against "a b c" gives a, an Omission "b", c |
| Alignment.InsertionExample | samples/csharp/sharedcontent/console/speech_recognition_samples.cs:1492-1503 | reading "a b x" against "a b" gives a, b and x relabelled Insertion |
| Scoring.Sum | samples/csharp/sharedcontent/console/speech_recognition_samples.cs:1512 | reference definition of the `Sum`; see `SumBounds` and `Mean` |
| Scoring.SumBounds | samples/csharp/sharedcontent/console/speech_recognition_samples.cs:1512 | a sum of n values in [lo, hi] lies in [n·lo, n·hi] |
| Scoring.Mean | samples/csharp/sharedcontent/console/speech_recognition_samples.cs:1515 | the average times the count is the sum |
| Scoring.MeanBounds | samples/csharp/sharedcontent/console/speech_recognition_samples.cs:1512-1515 | an average of values in [lo, hi] lies in [lo, hi] |
| Scoring.AccuracyScores | samples/csharp/sharedcontent/console/speech_recognition_samples.cs:1512 | the accuracy of each word, in order |
| Scoring.Correct | samples/csharp/sharedcontent/console/speech_recognition_samples.cs:1518 | a word counts as correct iff its label is None |
| Scoring.CorrectDurationNonNegative | samples/csharp/sharedcontent/console/speech_recognition_samples.cs:1518-1519 | with non-negative durations, the duration of the correct words is non-negative |
| Scoring.CorrectAtMostFiltered | samples/csharp/sharedcontent/console/speech_recognition_samples.cs:1524 | no more words are correct than are not Insertions, so completeness never exceeds 100 before the cap |
| Scoring.CorrectOfFiltered | samples/csharp/sharedcontent/console/speech_recognition_samples.cs:1511-1524 | the correct words of the filtered list are the correct words of the whole list |
| Scoring.CorrectAppend | samples/csharp/sharedcontent/console/speech_recognition_samples.cs:1518 | the correct words of a concatenation are those of each part, in order |
| Scoring.CorrectDuration | samples/csharp/sharedcontent/console/speech_recognition_samples.cs:1518-1519 | reference definition of the duration sum of the words labelled None; see `CorrectDurationNonNegative` and `Fluency` |
| Scoring.Fluency | samples/csharp/sharedcontent/console/speech_recognition_samples.cs:1521 | fluency times the session span is 100 times the duration of the correct words |
| Scoring.FluencyNonNegative | samples/csharp/sharedcontent/console/speech_recognition_samples.cs:1517-1521 | with non-negative durations and a positive span, fluency is non-negative |
| Scoring.Accuracy | samples/csharp/sharedcontent/console/speech_recognition_samples.cs:1511-1512 | reference definition of the mean accuracy of the non-Insertion words; see `ParagraphScoresBounds` |
| Scoring.Completeness | samples/csharp/sharedcontent/console/speech_recognition_samples.cs:1524-1525 | completeness lies in [0, 100] and is the share of correct words among the non-Insertion words, as a percentage |
| Scoring.CappedPercentage | samples/csharp/sharedcontent/console/speech_recognition_samples.cs:1524-1525 | a capped percentage lies in [0, 100] and is the plain percentage when the part does not exceed the whole |
| Scoring.Min4 | samples/csharp/sharedcontent/console/speech_recognition_samples.cs:1529 | `scores_list.Min()`: at most each of the four scores and equal to one of them |
| Scoring.Pronunciation | samples/csharp/sharedcontent/console/speech_recognition_samples.cs:1527-1529 | the pronunciation score lies between the lowest and highest of the four scores |
| Scoring.PronunciationBounds | samples/csharp/sharedcontent/console/speech_recognition_samples.cs:1527-1529 | four scores in [0, 100] give a pronunciation score in [0, 100] |
| Scoring.ParagraphScores | samples/csharp/sharedcontent/console/speech_recognition_samples.cs:1510-1529 | the scores fail iff there is no prosody score, there is no non-Insertion word, or the span is empty, checked in that order; otherwise completeness lies in [0, 100] and pronunciation is at least the lowest score |
| Scoring.ParagraphScoresBounds | samples/csharp/sharedcontent/console/speech_recognition_samples.cs:1510-1529 | with word accuracies, prosody scores and fluency in [0, 100], all five scores lie in [0, 100] |
| Scoring.ScoringExample | samples/csharp/sharedcontent/console/speech_recognition_samples.cs:1512-1529 | worked values: the mean of 80, 90 and 100 is 90; of 70 and 80 is 75; the pronunciation score of (90, 75, 100, 50) is 73 |
| Assessment.ReferenceWordsFor | samples/csharp/sharedcontent/console/speech_recognition_samples.cs:1455-1467 | with spaces, the words are the split-and-trimmed text; for zh-CN, the calibration-missing error is reported iff there is no calibration result, an empty dictionary is reported iff every calibration word is an Insertion, the endless segmentation loop is reported iff every collected word is empty and the cleaned text is not, and a success is the greedy segmentation of the cleaned text |
| Assessment.FinalWordsOf | samples/csharp/sharedcontent/console/speech_recognition_samples.cs:1448-1508 | with miscue detection off, the final words are the Words after the `Zip` |
| Assessment.AssessmentOf | samples/csharp/sharedcontent/console/speech_recognition_samples.cs:1448-1529 | the assessment fails at alignment iff the walk fails, and a success has completeness in [0, 100] |
| Assessment.Assess | samples/csharp/sharedcontent/console/speech_recognition_samples.cs:1447-1529 | the end of the session applies the `Zip` to the session, then returns `AssessmentOf` of its old state |
| Assessment.FinalWordsRecoverReference | samples/csharp/sharedcontent/console/speech_recognition_samples.cs:1469-1508 | with miscue detection on and a diff that is an edit script, the final words outside the Insertions are exactly the reference words |
| Assessment.CompletenessOverReferenceWords | samples/csharp/sharedcontent/console/speech_recognition_samples.cs:1510-1525 | in that case completeness is the number of correct words over the number of reference words, as a percentage |

## Left out

- Speech SDK calls, audio input, the console output, the `done` flag and its polling loop, the Canceled and SessionStopped handlers, and region failover are not modelled. The recognizer's events are inputs: a sequence of `Utterance` values.
- `GetReferenceWords` (the calibration recognition of a short audio file and its JSON parsing) is not modelled beyond its word loop (`CollectReferenceWords`). Its result is an `Option` input, and `None` stands for the null it returns on no match or cancellation.
- The DiffPlex line diff is an input. Its pieces are not computed and no minimality of the diff is claimed. The lemmas assume only that it is an edit script of the two word lists. The '\n'-join that feeds the differ is not modelled: the diff is taken to be over the word lists directly.
- The chat and content assessment parts of the sample, and every other sample in the file, are not modelled.
- Unicode character classes and `ToLower` are parameters. `ToLower` is applied character by character, with no culture-specific or length-changing case mappings. The regular expression's \\p{P} and \\s classes are one `Trimmable` predicate.
- Strings are sequences of Unicode scalar values, not UTF-16 code units. The source's `Length`, `Substring` and character loops count code units. `char.IsLetterOrDigit` and `char.IsWhiteSpace` are false on each half of a surrogate pair, so punctuation removal deletes every character outside the Basic Multilingual Plane. The model matches the source only when `CharClasses` puts no character outside that plane in any of its classes. Even then, lengths differ for such characters, and so does the `maxLength` bound in segmentation.
- IEEE doubles are modelled as exact reals. A division by zero, which gives NaN or infinity in C#, is an `Err` result instead of a value. If completeness were NaN, C# would clamp it to 100, because `NaN <= 100` is false. The model reports `NoAssessedWords` instead.
- Offsets and durations are unbounded integers, so the overflow of the `long` offsets and of the `int` durations, padding included, is not modelled.
- `Word` is a value, so the aliasing between `pronWords` and `finalWords` when miscue detection is off is not modelled. Nothing mutates a Word after that point, so it is not observable.
- When the handler throws part-way (`First()` or `Last()` on an empty alternative), the model keeps the state reached so far and reports `completed = false`. How the SDK treats the exception is not modelled.
- Scoring.Accuracy: has no contract of its own. It is only the mean of the non-Insertion accuracies, and its bounds are proved in `ParagraphScoresBounds`.
- Segmentation.ConvertReferenceWords: the `NoProgress` error stands for the endless loop of both segmentation passes when the longest dictionary word is empty. A negative `maxLength` cannot arise, because lengths are non-negative.
- Segmentation.LeftToRightSegmentation: requires an empty text or `maxLength >= 1`. On a non-empty text, the source loops for ever when `maxLength` is 0, and its `Substring` throws when `maxLength` is negative.
- Segmentation.RightToLeftSegmentation: requires an empty text or `maxLength >= 1`. On a non-empty text, the source loops for ever when `maxLength` is 0, and its `Substring` throws when `maxLength` is negative.
- Scoring.Pronunciation: states only the min-max sandwich, not the exact weights, which the function body gives (0.2 times the sum plus 0.2 times the minimum).
