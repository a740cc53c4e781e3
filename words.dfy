/** Values shared by every stage of the continuous pronunciation assessment:
    the per-word record the stages pass along, the error labels the speech
    service and the alignment put on it, and the Option/Result wrappers that
    stand for the source's exceptions and undefined results. */
module Words {

  datatype Option<+T> = None | Some(value: T)

  datatype Result<+T, +E> = Ok(value: T) | Err(error: E)

  /** The error-type labels compared against in the source. The service may
      report other labels too (e.g. a mispronunciation), so a label is a string. */
  const NoError: string := "None"
  const Omission: string := "Omission"
  const Insertion: string := "Insertion"

  /** The `Word` class: text, error label, accuracy score and duration in
      100-nanosecond ticks. Both numbers are C# doubles, held here as reals. */
  datatype Word = Word(wordText: string, errorType: string, accuracyScore: real, duration: real)

  /** `new Word(wordText, errorType)`: the two-argument constructor leaves the
      accuracy score and the duration at zero. */
  function Unscored(wordText: string, errorType: string): (w: Word)
    ensures w.wordText == wordText && w.errorType == errorType
    ensures w.accuracyScore == 0.0 && w.duration == 0.0
  {
    Word(wordText, errorType, 0.0, 0.0)
  }

  /** `new Word(wordText, errorType, accuracyScore)`: chains to the
      two-argument constructor, so only the duration stays at zero. */
  function Scored(wordText: string, errorType: string, accuracyScore: real): (w: Word)
    ensures w.wordText == wordText && w.errorType == errorType
    ensures w.accuracyScore == accuracyScore && w.duration == 0.0
  {
    Unscored(wordText, errorType).(accuracyScore := accuracyScore)
  }

  /** `finalWords.Where(item => item.ErrorType != "Insertion")`: the words
      that take part in the accuracy and completeness averages. */
  function NotInserted(ws: seq<Word>): (r: seq<Word>)
    ensures |r| <= |ws|
  {
    if ws == [] then []
    else (if ws[0].errorType != Insertion then [ws[0]] else []) + NotInserted(ws[1..])
  }

  /** The filter keeps exactly the words not labelled Insertion. */
  lemma {:induction false} NotInsertedMembers(ws: seq<Word>)
    ensures forall w :: w in NotInserted(ws) <==> w in ws && w.errorType != Insertion
  {
    if ws != [] {
      NotInsertedMembers(ws[1..]);
      assert ws == [ws[0]] + ws[1..];
    }
  }

  lemma {:induction false} NotInsertedAppend(a: seq<Word>, b: seq<Word>)
    ensures NotInserted(a + b) == NotInserted(a) + NotInserted(b)
  {
    if a == [] {
      assert a + b == b;
    } else {
      assert (a + b)[1..] == a[1..] + b;
      NotInsertedAppend(a[1..], b);
    }
  }

  /** The texts of a word sequence, in order. */
  function Texts(ws: seq<Word>): (r: seq<string>)
    ensures |r| == |ws| && forall k :: 0 <= k < |ws| ==> r[k] == ws[k].wordText
  {
    seq(|ws|, k requires 0 <= k < |ws| => ws[k].wordText)
  }
}
