/** The paragraph-level scores recomputed from the final word list and the
    per-utterance prosody scores. The source computes in doubles; here the
    scores are reals, and the cases where a double would be NaN or infinite,
    or where `Average` throws, are errors. */
module Scoring {
  import opened Words

  /** `Sum` over doubles. */
  function Sum(xs: seq<real>): real
  {
    if xs == [] then 0.0 else Sum(xs[..|xs| - 1]) + xs[|xs| - 1]
  }

  /** Every score of `xs` lies between `lo` and `hi`. */
  predicate AllBetween(xs: seq<real>, lo: real, hi: real)
  {
    forall k :: 0 <= k < |xs| ==> lo <= xs[k] <= hi
  }

  lemma {:induction false} SumBounds(xs: seq<real>, lo: real, hi: real)
    requires AllBetween(xs, lo, hi)
    ensures lo * |xs| as real <= Sum(xs) <= hi * |xs| as real
  {
    if xs != [] {
      var init := xs[..|xs| - 1];
      SumBounds(init, lo, hi);
      var n := |init| as real;
      assert |xs| as real == n + 1.0;
      assert lo * (n + 1.0) == lo * n + lo && hi * (n + 1.0) == hi * n + hi;
      assert lo <= xs[|xs| - 1] <= hi;
    }
  }

  /** `Average()`: the arithmetic mean of a non-empty list. */
  function Mean(xs: seq<real>): (r: real)
    requires xs != []
    ensures r * |xs| as real == Sum(xs)
  {
    Sum(xs) / |xs| as real
  }

  /** The mean of scores between `lo` and `hi` lies between them too. */
  lemma MeanBounds(xs: seq<real>, lo: real, hi: real)
    requires xs != [] && AllBetween(xs, lo, hi)
    ensures lo <= Mean(xs) <= hi
  {
    SumBounds(xs, lo, hi);
    var n := |xs| as real;
    var m := Mean(xs);
    ScaleMonotone(lo, m, n);
    ScaleMonotone(m, hi, n);
  }

  /** Dividing both sides of `a * n <= b * n` by a positive `n`. */
  lemma ScaleMonotone(a: real, b: real, n: real)
    requires n > 0.0 && a * n <= b * n
    ensures a <= b
  {
  }

  /** The accuracy scores of a word list, in order. */
  function AccuracyScores(ws: seq<Word>): (r: seq<real>)
    ensures |r| == |ws| && forall k :: 0 <= k < |ws| ==> r[k] == ws[k].accuracyScore
  {
    seq(|ws|, k requires 0 <= k < |ws| => ws[k].accuracyScore)
  }

  /** The words labelled None. */
  function Correct(ws: seq<Word>): (r: seq<Word>)
    ensures |r| <= |ws|
    ensures forall w :: w in r <==> w in ws && w.errorType == NoError
  {
    if ws == [] then [] else (if ws[0].errorType == NoError then [ws[0]] else []) + Correct(ws[1..])
  }

  /** The durations of the words labelled None, summed. */
  function CorrectDuration(ws: seq<Word>): real
  {
    if ws == [] then 0.0 else (if ws[0].errorType == NoError then ws[0].duration else 0.0) + CorrectDuration(ws[1..])
  }

  lemma {:induction false} CorrectDurationNonNegative(ws: seq<Word>)
    requires forall k :: 0 <= k < |ws| ==> ws[k].duration >= 0.0
    ensures CorrectDuration(ws) >= 0.0
  {
    if ws != [] {
      CorrectDurationNonNegative(ws[1..]);
    }
  }

  /** Every word labelled None is also outside the Insertions, so there are
      never more of them than there are filtered words. */
  lemma {:induction false} CorrectAtMostFiltered(ws: seq<Word>)
    ensures |Correct(ws)| <= |NotInserted(ws)|
  {
    if ws != [] {
      CorrectAtMostFiltered(ws[1..]);
    }
  }

  /** The words labelled None are exactly the filtered words labelled None. */
  lemma {:induction false} CorrectOfFiltered(ws: seq<Word>)
    ensures Correct(NotInserted(ws)) == Correct(ws)
  {
    if ws != [] {
      CorrectOfFiltered(ws[1..]);
      var head := if ws[0].errorType != Insertion then [ws[0]] else [];
      assert NotInserted(ws) == head + NotInserted(ws[1..]);
      CorrectAppend(head, NotInserted(ws[1..]));
      if ws[0].errorType != Insertion {
        assert Correct(head) == Correct([ws[0]]);
        assert [ws[0]][1..] == [];
      }
    }
  }

  lemma {:induction false} CorrectAppend(a: seq<Word>, b: seq<Word>)
    ensures Correct(a + b) == Correct(a) + Correct(b)
  {
    if a == [] {
      assert a + b == b;
    } else {
      assert (a + b)[1..] == a[1..] + b;
      CorrectAppend(a[1..], b);
    }
  }

  /** Paragraph accuracy: the mean accuracy score of the words that are not
      Insertions. */
  function Accuracy(finalWords: seq<Word>): real
    requires NotInserted(finalWords) != []
  {
    Mean(AccuracyScores(NotInserted(finalWords)))
  }

  /** Paragraph fluency: the time spent in words labelled None, as a
      percentage of the span from the first to the last recognized word. */
  function Fluency(finalWords: seq<Word>, startOffset: int, endOffset: int): (r: real)
    requires endOffset != startOffset
    ensures r * (endOffset - startOffset) as real == CorrectDuration(finalWords) * 100.0
  {
    CorrectDuration(finalWords) / (endOffset - startOffset) as real * 100.0
  }

  /** Paragraph completeness: the words labelled None as a percentage of the
      words that are not Insertions, capped at 100. The cap never takes
      effect: there are never more words labelled None than filtered words. */
  function Completeness(finalWords: seq<Word>): (r: real)
    requires NotInserted(finalWords) != []
    ensures 0.0 <= r <= 100.0
    ensures r == |Correct(finalWords)| as real / |NotInserted(finalWords)| as real * 100.0
  {
    var correct := |Correct(finalWords)|;
    var filtered := |NotInserted(finalWords)|;
    CorrectAtMostFiltered(finalWords);
    assert correct <= filtered;
    CappedPercentage(correct, filtered)
  }

  /** `part` as a percentage of `whole`, capped at 100; the cap only bites
      when the part is larger than the whole. */
  function CappedPercentage(part: nat, whole: nat): (r: real)
    requires whole > 0
    ensures 0.0 <= r <= 100.0
    ensures part <= whole ==> r == part as real / whole as real * 100.0
  {
    var ratio := part as real / whole as real * 100.0;
    if ratio <= 100.0 then ratio else 100.0
  }

  /** `List.Min()` of the four scores. */
  function Min4(a: real, b: real, c: real, d: real): (m: real)
    ensures m <= a && m <= b && m <= c && m <= d
    ensures m == a || m == b || m == c || m == d
  {
    var ab := if a <= b then a else b;
    var cd := if c <= d then c else d;
    if ab <= cd then ab else cd
  }

  /** The largest of the four scores. */
  function Max4(a: real, b: real, c: real, d: real): (m: real)
    ensures m >= a && m >= b && m >= c && m >= d
    ensures m == a || m == b || m == c || m == d
  {
    var ab := if a >= b then a else b;
    var cd := if c >= d then c else d;
    if ab >= cd then ab else cd
  }

  /** Paragraph pronunciation: each of the four scores weighted 0.2, plus the
      lowest of them weighted 0.2 again. It lies between the lowest and the
      highest of the four. */
  function Pronunciation(accuracy: real, prosody: real, completeness: real, fluency: real): (r: real)
    ensures Min4(accuracy, prosody, completeness, fluency) <= r <= Max4(accuracy, prosody, completeness, fluency)
  {
    accuracy * 0.2 + prosody * 0.2 + completeness * 0.2 + fluency * 0.2
      + Min4(accuracy, prosody, completeness, fluency) * 0.2
  }

  /** Four scores between 0 and 100 give a pronunciation score between 0 and 100. */
  lemma PronunciationBounds(accuracy: real, prosody: real, completeness: real, fluency: real)
    requires 0.0 <= accuracy <= 100.0 && 0.0 <= prosody <= 100.0
    requires 0.0 <= completeness <= 100.0 && 0.0 <= fluency <= 100.0
    ensures 0.0 <= Pronunciation(accuracy, prosody, completeness, fluency) <= 100.0
  {
  }

  datatype Scores = Scores(accuracy: real, prosody: real, fluency: real, completeness: real, pronunciation: real)

  /** Why the source gets no number: `Average` of no prosody scores throws;
      no filtered words makes the accuracy 0/0; an empty span makes the
      fluency a division by zero. */
  datatype ScoreError = NoProsodyScores | NoAssessedWords | EmptySpan

  /** The paragraph scores, in the order the source computes them. The
      exception from `Average` is the only failure that stops the
      computation; the other two give NaN or infinite scores, which are
      errors here. */
  function ParagraphScores(finalWords: seq<Word>, prosodyScores: seq<real>, startOffset: int, endOffset: int)
    : (r: Result<Scores, ScoreError>)
    ensures r == Err(NoProsodyScores) <==> prosodyScores == []
    ensures r == Err(NoAssessedWords) <==> prosodyScores != [] && NotInserted(finalWords) == []
    ensures r == Err(EmptySpan)
      <==> prosodyScores != [] && NotInserted(finalWords) != [] && startOffset == endOffset
    ensures r.Ok? ==> 0.0 <= r.value.completeness <= 100.0
    ensures r.Ok? ==> Min4(r.value.accuracy, r.value.prosody, r.value.completeness, r.value.fluency)
                      <= r.value.pronunciation
  {
    if prosodyScores == [] then Err(NoProsodyScores)
    else if NotInserted(finalWords) == [] then Err(NoAssessedWords)
    else if startOffset == endOffset then Err(EmptySpan)
    else
      var accuracy := Accuracy(finalWords);
      var prosody := Mean(prosodyScores);
      var fluency := Fluency(finalWords, startOffset, endOffset);
      var completeness := Completeness(finalWords);
      Ok(Scores(accuracy, prosody, fluency, completeness, Pronunciation(accuracy, prosody, completeness, fluency)))
  }

  /** With accuracy and prosody scores from the service between 0 and 100,
      and a fluency between 0 and 100, every paragraph score is between 0
      and 100. */
  lemma ParagraphScoresBounds(finalWords: seq<Word>, prosodyScores: seq<real>, startOffset: int, endOffset: int)
    requires ParagraphScores(finalWords, prosodyScores, startOffset, endOffset).Ok?
    requires AllBetween(AccuracyScores(finalWords), 0.0, 100.0)
    requires AllBetween(prosodyScores, 0.0, 100.0)
    requires 0.0 <= Fluency(finalWords, startOffset, endOffset) <= 100.0
    ensures var s := ParagraphScores(finalWords, prosodyScores, startOffset, endOffset).value;
      && 0.0 <= s.accuracy <= 100.0 && 0.0 <= s.prosody <= 100.0
      && 0.0 <= s.completeness <= 100.0 && 0.0 <= s.fluency <= 100.0
      && 0.0 <= s.pronunciation <= 100.0
  {
    var filtered := NotInserted(finalWords);
    NotInsertedMembers(finalWords);
    forall k | 0 <= k < |filtered|
      ensures 0.0 <= AccuracyScores(filtered)[k] <= 100.0
    {
      assert filtered[k] in finalWords;
      var j :| 0 <= j < |finalWords| && finalWords[j] == filtered[k];
      assert AccuracyScores(finalWords)[j] == filtered[k].accuracyScore;
    }
    MeanBounds(AccuracyScores(filtered), 0.0, 100.0);
    MeanBounds(prosodyScores, 0.0, 100.0);
    var s := ParagraphScores(finalWords, prosodyScores, startOffset, endOffset).value;
    PronunciationBounds(s.accuracy, s.prosody, s.completeness, s.fluency);
  }

  /** Fluency is never negative when the durations are not and the span runs
      forward. */
  lemma FluencyNonNegative(finalWords: seq<Word>, startOffset: int, endOffset: int)
    requires startOffset < endOffset
    requires forall k :: 0 <= k < |finalWords| ==> finalWords[k].duration >= 0.0
    ensures Fluency(finalWords, startOffset, endOffset) >= 0.0
  {
    CorrectDurationNonNegative(finalWords);
  }

  /** Accuracy scores 80, 90 and 100 average to 90; prosody scores 70 and 80
      to 75; with completeness 100 and fluency 50 the pronunciation is
      0.2 * 315 + 0.2 * 50 = 73. */
  lemma ScoringExample()
    ensures Mean([80.0, 90.0, 100.0]) == 90.0
    ensures Mean([70.0, 80.0]) == 75.0
    ensures Pronunciation(90.0, 75.0, 100.0, 50.0) == 73.0
  {
    assert [80.0, 90.0, 100.0][..2] == [80.0, 90.0] && [80.0, 90.0][..1] == [80.0] && [80.0][..0] == [];
    assert [70.0, 80.0][..1] == [70.0] && [70.0][..0] == [];
  }
}
