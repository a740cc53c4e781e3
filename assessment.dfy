/** The end of the continuous assessment, once the session has stopped:
    the reference words for the language, the duration `Zip`, the walk over
    the diff and the paragraph scores. */
module Assessment {
  import opened Words
  import opened TextCleaning
  import opened Segmentation
  import opened Accumulation
  import opened Alignment
  import opened Scoring

  /** Why there are no reference words: the calibration recognition gave
      no result (`GetReferenceWords` returns null, and `ToArray` on it
      throws), or segmenting the reference text failed. */
  datatype ReferenceError = NoCalibrationResult | SegmentationFailed(error: SegmentError)

  /** The reference words. For a language written without spaces they are
      the reference text segmented with the words of a calibration
      recognition (its non-Insertion words, in order); otherwise they are
      the lower-cased text split on ' ', each piece trimmed. */
  method ReferenceWordsFor(u: CharClasses, segmented: bool, referenceText: string,
                           calibration: Option<seq<CalibrationWord>>)
    returns (r: Result<seq<string>, ReferenceError>)
    ensures !segmented ==>
      (&& r.Ok?
       && |r.value| == |SplitOnSpace(ToLower(u, referenceText))|
       && forall j :: 0 <= j < |r.value| ==>
            r.value[j] == TrimPunctuation(u, SplitOnSpace(ToLower(u, referenceText))[j]))
    ensures segmented ==> (r == Err(NoCalibrationResult) <==> calibration.None?)
    ensures segmented && calibration.Some? ==>
      (r == Err(SegmentationFailed(EmptyDictionary)) <==> NonInsertedTexts(calibration.value) == [])
    ensures segmented && calibration.Some? ==>
      (r == Err(SegmentationFailed(NoProgress)) <==>
         (&& NonInsertedTexts(calibration.value) != []
          && MaxLength(NonInsertedTexts(calibration.value)) == 0
          && RemovePunctuation(u, referenceText) != []))
    ensures segmented && calibration.Some? && r.Ok? ==>
      (var words := NonInsertedTexts(calibration.value);
       var text := RemovePunctuation(u, referenceText);
       && Concat(r.value) == text
       && GreedyFromLeft(r.value, text, Dictionary(words), MaxLength(words)))
  {
    if !segmented {
      var words := SpaceDelimitedReferenceWords(u, referenceText);
      return Ok(words);
    }
    if calibration.None? {
      return Err(NoCalibrationResult);
    }
    var referenceWords := CollectReferenceWords(calibration.value);
    var segmentation := ConvertReferenceWords(u, referenceText, referenceWords);
    if segmentation.Err? {
      return Err(SegmentationFailed(segmentation.error));
    }
    return Ok(segmentation.value);
  }

  /** Why there are no paragraph scores. */
  datatype AssessError = AlignmentFailed(alignError: AlignError) | ScoringFailed(scoreError: ScoreError)

  /** `finalWords` for a session's state: the Words after the duration
      `Zip`, walked over the diff when miscue detection is on. */
  function FinalWordsOf(t: Tally, enableMiscue: bool, deltas: seq<DiffPiece>): (r: Option<seq<Word>>)
    ensures !enableMiscue ==> r == Some(WithDurations(t.pronWords, t.durations))
  {
    var words := WithDurations(t.pronWords, t.durations);
    if enableMiscue then AlignFrom(deltas, words, 0) else Some(words)
  }

  /** The paragraph scores for a session's state. */
  function AssessmentOf(t: Tally, enableMiscue: bool, deltas: seq<DiffPiece>): (r: Result<Scores, AssessError>)
    ensures r == Err(AlignmentFailed(CursorOutOfRange)) <==> FinalWordsOf(t, enableMiscue, deltas).None?
    ensures r.Ok? ==> 0.0 <= r.value.completeness <= 100.0
  {
    var final := FinalWordsOf(t, enableMiscue, deltas);
    if final.None? then Err(AlignmentFailed(CursorOutOfRange))
    else
      var scores := ParagraphScores(final.value, t.prosodyScores, t.startOffset, t.endOffset);
      if scores.Err? then Err(ScoringFailed(scores.error)) else Ok(scores.value)
  }

  /** What follows the end of the session: the `Zip`, the walk and the scores. */
  method Assess(session: Session, enableMiscue: bool, deltas: seq<DiffPiece>)
    returns (r: Result<Scores, AssessError>)
    modifies session
    ensures r == AssessmentOf(old(session.State()), enableMiscue, deltas)
    ensures session.State() == old(session.State()).(pronWords := WithDurations(old(session.pronWords), old(session.durations)))
  {
    session.ApplyDurations();
    var finalWords := FinalWords(enableMiscue, deltas, session.pronWords);
    if finalWords.Err? {
      return Err(AlignmentFailed(finalWords.error));
    }
    var scores := ParagraphScores(finalWords.value, session.prosodyScores, session.startOffset, session.endOffset);
    if scores.Err? {
      return Err(ScoringFailed(scores.error));
    }
    return Ok(scores.value);
  }

  /** With miscue detection on, a diff that is an edit script of the
      reference words against the recognized words, and Words that carry
      the recognized words' texts without any Insertion label, the walk
      succeeds and the final words outside the Insertions are the reference
      words. */
  lemma FinalWordsRecoverReference(t: Tally, deltas: seq<DiffPiece>, reference: seq<string>)
    requires IsEditScript(deltas, reference, t.recognizedWords)
    requires |t.recognizedWords| <= |t.pronWords|
    requires forall j :: 0 <= j < |t.recognizedWords| ==> t.pronWords[j].wordText == t.recognizedWords[j]
    requires forall k :: 0 <= k < |t.pronWords| ==> t.pronWords[k].errorType != Insertion
    ensures FinalWordsOf(t, true, deltas).Some?
    ensures Texts(NotInserted(FinalWordsOf(t, true, deltas).value)) == reference
  {
    var words := WithDurations(t.pronWords, t.durations);
    forall j | 0 <= j < |t.recognizedWords|
      ensures words[0 + j].wordText == t.recognizedWords[j]
    {
      assert words[j].wordText == t.pronWords[j].wordText;
    }
    forall k | 0 <= k < |words|
      ensures words[k].errorType != Insertion
    {
      assert words[k].errorType == t.pronWords[k].errorType;
    }
    ReferenceRecovered(deltas, reference, t.recognizedWords, words, 0);
  }

  /** Under the same conditions, completeness is the share of the reference
      words that were read correctly. */
  lemma CompletenessOverReferenceWords(t: Tally, deltas: seq<DiffPiece>, reference: seq<string>)
    requires IsEditScript(deltas, reference, t.recognizedWords)
    requires |t.recognizedWords| <= |t.pronWords|
    requires forall j :: 0 <= j < |t.recognizedWords| ==> t.pronWords[j].wordText == t.recognizedWords[j]
    requires forall k :: 0 <= k < |t.pronWords| ==> t.pronWords[k].errorType != Insertion
    requires reference != [] && t.prosodyScores != [] && t.startOffset != t.endOffset
    ensures FinalWordsOf(t, true, deltas).Some?
    ensures AssessmentOf(t, true, deltas).Ok?
    ensures AssessmentOf(t, true, deltas).value.completeness
         == |Correct(FinalWordsOf(t, true, deltas).value)| as real / |reference| as real * 100.0
  {
    FinalWordsRecoverReference(t, deltas, reference);
    var final := FinalWordsOf(t, true, deltas).value;
    assert |NotInserted(final)| == |reference| by {
      assert |Texts(NotInserted(final))| == |NotInserted(final)|;
    }
    var scores := ParagraphScores(final, t.prosodyScores, t.startOffset, t.endOffset);
    assert scores.Ok?;
    assert scores.value.completeness == Completeness(final);
  }
}
