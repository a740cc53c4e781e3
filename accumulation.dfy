/** What the session collects while utterances are recognized: the
    `Recognized` event handler, fed utterance by utterance in arrival order,
    and the duration `Zip` run once the session has stopped. */
module Accumulation {
  import opened Words

  /** Ticks added to every reported word duration. */
  const DurationPadding: int := 100000

  /** A word of a recognition alternative (`result.Words` of `Best()`). */
  datatype WordTiming = WordTiming(word: string, offset: int, duration: int)

  /** A word of the pronunciation result (`pronResult.Words`). */
  datatype AssessedWord = AssessedWord(word: string, errorType: string, accuracyScore: real)

  /** What one Recognized event delivers. */
  datatype Utterance = Utterance(
    prosodyScore: real,
    assessedWords: seq<AssessedWord>,
    alternatives: seq<seq<WordTiming>>)

  /** The session's accumulated state: `prosody_scores`, `pronWords`,
      `durations`, `recognizedWords`, `startOffset` and `endOffset`. */
  datatype Tally = Tally(
    prosodyScores: seq<real>,
    pronWords: seq<Word>,
    durations: seq<int>,
    recognizedWords: seq<string>,
    startOffset: int,
    endOffset: int)

  const EmptyTally := Tally([], [], [], [], 0, 0)

  /** `new Word(word.Word, word.ErrorType, word.AccuracyScore)`. */
  function AsWord(a: AssessedWord): (w: Word)
    ensures w.wordText == a.word && w.errorType == a.errorType
    ensures w.accuracyScore == a.accuracyScore && w.duration == 0.0
  {
    Scored(a.word, a.errorType, a.accuracyScore)
  }

  function AsWords(assessed: seq<AssessedWord>): (ws: seq<Word>)
    ensures |ws| == |assessed|
    ensures forall k :: 0 <= k < |assessed| ==> ws[k] == AsWord(assessed[k])
  {
    seq(|assessed|, k requires 0 <= k < |assessed| => AsWord(assessed[k]))
  }

  /** `result.Words.Select(item => item.Duration + 100000)`. */
  function PaddedDurations(alt: seq<WordTiming>): (ds: seq<int>)
    ensures |ds| == |alt|
    ensures forall k :: 0 <= k < |alt| ==> ds[k] == alt[k].duration + DurationPadding
  {
    seq(|alt|, k requires 0 <= k < |alt| => alt[k].duration + DurationPadding)
  }

  /** `result.Words.Select(item => item.Word)`. */
  function WordTexts(alt: seq<WordTiming>): (ws: seq<string>)
    ensures |ws| == |alt|
    ensures forall k :: 0 <= k < |alt| ==> ws[k] == alt[k].word
  {
    seq(|alt|, k requires 0 <= k < |alt| => alt[k].word)
  }

  /** All words of a list of alternatives, in order. */
  function Flatten(alts: seq<seq<WordTiming>>): seq<WordTiming>
  {
    if alts == [] then [] else Flatten(alts[..|alts| - 1]) + alts[|alts| - 1]
  }

  /** One turn of the loop over `Best()` for an alternative with words. */
  function TakeAlternative(t: Tally, alt: seq<WordTiming>): (r: Tally)
    requires alt != []
    ensures r.prosodyScores == t.prosodyScores && r.pronWords == t.pronWords
    ensures |r.durations| - |r.recognizedWords| == |t.durations| - |t.recognizedWords|
    ensures t.startOffset != 0 ==> r.startOffset == t.startOffset
  {
    var last := alt[|alt| - 1];
    t.(durations := t.durations + PaddedDurations(alt),
       recognizedWords := t.recognizedWords + WordTexts(alt),
       startOffset := if t.startOffset == 0 then alt[0].offset else t.startOffset,
       endOffset := last.offset + last.duration + DurationPadding)
  }

  /** The state after a Recognized event, and whether the handler ran to its
      end: an alternative without words makes `First()` or `Last()` throw, so
      the handler stops there, with that alternative's (empty) words added. */
  datatype Step = Step(tally: Tally, completed: bool)

  /** The loop over `Best()`: alternatives are taken in order until one has
      no words. */
  function TakeAlternatives(t: Tally, alts: seq<seq<WordTiming>>): Step
    decreases |alts|
  {
    if alts == [] then Step(t, true)
    else
      var prev := TakeAlternatives(t, alts[..|alts| - 1]);
      var alt := alts[|alts| - 1];
      if !prev.completed then prev
      else if alt == [] then Step(prev.tally, false)
      else Step(TakeAlternative(prev.tally, alt), true)
  }

  /** The `Recognized` handler: one prosody score, one Word per assessed
      word, then the alternatives. */
  function Recognized(t: Tally, u: Utterance): Step
  {
    TakeAlternatives(
      t.(prosodyScores := t.prosodyScores + [u.prosodyScore],
         pronWords := t.pronWords + AsWords(u.assessedWords)),
      u.alternatives)
  }

  /** The state after a sequence of Recognized events, in arrival order. A
      handler that throws ends only its own event. */
  function RecognizedAll(t: Tally, us: seq<Utterance>): Tally
    decreases |us|
  {
    if us == [] then t else Recognized(RecognizedAll(t, us[..|us| - 1]), us[|us| - 1]).tally
  }

  /** The prosody scores of the utterances, in order. */
  function ProsodyScores(us: seq<Utterance>): (ps: seq<real>)
    ensures |ps| == |us|
    ensures forall k :: 0 <= k < |us| ==> ps[k] == us[k].prosodyScore
  {
    seq(|us|, k requires 0 <= k < |us| => us[k].prosodyScore)
  }

  /** The assessed words of the utterances as Words, in order. */
  function AllAssessedWords(us: seq<Utterance>): seq<Word>
  {
    if us == [] then [] else AllAssessedWords(us[..|us| - 1]) + AsWords(us[|us| - 1].assessedWords)
  }

  // ---------------------------------------------------------------------
  // Properties of the loop over the alternatives

  /** The loop over the alternatives touches neither the prosody scores nor
      the Words, and adds as many durations as recognized words. */
  lemma {:induction false} TakeAlternativesFrame(t: Tally, alts: seq<seq<WordTiming>>)
    ensures var r := TakeAlternatives(t, alts).tally;
      && r.prosodyScores == t.prosodyScores
      && r.pronWords == t.pronWords
      && |r.durations| - |r.recognizedWords| == |t.durations| - |t.recognizedWords|
    decreases |alts|
  {
    if alts != [] {
      TakeAlternativesFrame(t, alts[..|alts| - 1]);
    }
  }

  /** A non-zero `startOffset` is never overwritten. */
  lemma {:induction false} TakeAlternativesKeepsStart(t: Tally, alts: seq<seq<WordTiming>>)
    requires t.startOffset != 0
    ensures TakeAlternatives(t, alts).tally.startOffset == t.startOffset
    decreases |alts|
  {
    if alts != [] {
      TakeAlternativesKeepsStart(t, alts[..|alts| - 1]);
    }
  }

  /** When every alternative has words, the durations gain every word's
      duration plus 100000 ticks and the recognized words gain every word's
      text, alternative after alternative. */
  lemma {:induction false} TakeAlternativesAppends(t: Tally, alts: seq<seq<WordTiming>>)
    requires TakeAlternatives(t, alts).completed
    ensures var r := TakeAlternatives(t, alts).tally;
      && r.durations == t.durations + PaddedDurations(Flatten(alts))
      && r.recognizedWords == t.recognizedWords + WordTexts(Flatten(alts))
    decreases |alts|
  {
    if alts == [] {
      assert t.durations + PaddedDurations([]) == t.durations;
      assert t.recognizedWords + WordTexts([]) == t.recognizedWords;
    } else {
      var init := alts[..|alts| - 1];
      var alt := alts[|alts| - 1];
      var prev := TakeAlternatives(t, init);
      assert prev.completed && alt != [];
      assert TakeAlternatives(t, alts).tally == TakeAlternative(prev.tally, alt);
      TakeAlternativesAppends(t, init);
      assert Flatten(alts) == Flatten(init) + alt;
      var r := TakeAlternatives(t, alts).tally;
      calc {
        r.durations;
        prev.tally.durations + PaddedDurations(alt);
        (t.durations + PaddedDurations(Flatten(init))) + PaddedDurations(alt);
        t.durations + (PaddedDurations(Flatten(init)) + PaddedDurations(alt));
        { PaddedDurationsAppend(Flatten(init), alt); }
        t.durations + PaddedDurations(Flatten(alts));
      }
      calc {
        r.recognizedWords;
        prev.tally.recognizedWords + WordTexts(alt);
        (t.recognizedWords + WordTexts(Flatten(init))) + WordTexts(alt);
        t.recognizedWords + (WordTexts(Flatten(init)) + WordTexts(alt));
        { WordTextsAppend(Flatten(init), alt); }
        t.recognizedWords + WordTexts(Flatten(alts));
      }
    }
  }

  lemma PaddedDurationsAppend(a: seq<WordTiming>, b: seq<WordTiming>)
    ensures PaddedDurations(a + b) == PaddedDurations(a) + PaddedDurations(b)
  {
  }

  lemma WordTextsAppend(a: seq<WordTiming>, b: seq<WordTiming>)
    ensures WordTexts(a + b) == WordTexts(a) + WordTexts(b)
  {
  }

  /** When the handler completes over at least one alternative, `endOffset`
      is where the last word of the last alternative ends, plus 100000 ticks. */
  lemma EndOffsetIsLastWord(t: Tally, alts: seq<seq<WordTiming>>)
    requires alts != [] && TakeAlternatives(t, alts).completed
    ensures var last := alts[|alts| - 1];
      && last != []
      && TakeAlternatives(t, alts).tally.endOffset
         == last[|last| - 1].offset + last[|last| - 1].duration + DurationPadding
  {
  }

  /** Once an alternative without words has stopped the handler, later
      alternatives are not looked at. */
  lemma {:induction false} TakeAlternativesStopped(t: Tally, alts: seq<seq<WordTiming>>, i: nat)
    requires i <= |alts| && !TakeAlternatives(t, alts[..i]).completed
    ensures TakeAlternatives(t, alts) == TakeAlternatives(t, alts[..i])
    decreases |alts|
  {
    if i < |alts| {
      var init := alts[..|alts| - 1];
      assert init[..i] == alts[..i];
      TakeAlternativesStopped(t, init, i);
    } else {
      assert alts[..i] == alts;
    }
  }

  // ---------------------------------------------------------------------
  // Properties of a whole session

  /** Each Recognized event appends exactly one prosody score and one Word
      per assessed word, in arrival order. */
  lemma {:induction false} RecognizedAllAppends(t: Tally, us: seq<Utterance>)
    ensures RecognizedAll(t, us).prosodyScores == t.prosodyScores + ProsodyScores(us)
    ensures RecognizedAll(t, us).pronWords == t.pronWords + AllAssessedWords(us)
    decreases |us|
  {
    if us != [] {
      var init := us[..|us| - 1];
      var u := us[|us| - 1];
      RecognizedAllAppends(t, init);
      var before := RecognizedAll(t, init);
      TakeAlternativesFrame(before.(prosodyScores := before.prosodyScores + [u.prosodyScore],
                                    pronWords := before.pronWords + AsWords(u.assessedWords)),
                            u.alternatives);
      assert ProsodyScores(us) == ProsodyScores(init) + [u.prosodyScore];
    }
  }

  /** Over a whole session, a non-zero `startOffset` is never overwritten. */
  lemma {:induction false} RecognizedAllKeepsStart(t: Tally, us: seq<Utterance>)
    requires t.startOffset != 0
    ensures RecognizedAll(t, us).startOffset == t.startOffset
    decreases |us|
  {
    if us != [] {
      var init := us[..|us| - 1];
      var u := us[|us| - 1];
      RecognizedAllKeepsStart(t, init);
      var before := RecognizedAll(t, init);
      TakeAlternativesKeepsStart(before.(prosodyScores := before.prosodyScores + [u.prosodyScore],
                                         pronWords := before.pronWords + AsWords(u.assessedWords)),
                                 u.alternatives);
    }
  }

  /** Over a whole session there are always as many durations as recognized
      words, so the duration list is parallel to the recognized-word list. */
  lemma {:induction false} RecognizedAllParallel(t: Tally, us: seq<Utterance>)
    requires |t.durations| == |t.recognizedWords|
    ensures |RecognizedAll(t, us).durations| == |RecognizedAll(t, us).recognizedWords|
    decreases |us|
  {
    if us != [] {
      var init := us[..|us| - 1];
      var u := us[|us| - 1];
      RecognizedAllParallel(t, init);
      var before := RecognizedAll(t, init);
      TakeAlternativesFrame(before.(prosodyScores := before.prosodyScores + [u.prosodyScore],
                                    pronWords := before.pronWords + AsWords(u.assessedWords)),
                            u.alternatives);
    }
  }

  /** The zero sentinel: a first word at tick 0 leaves `startOffset` at 0,
      so the next alternative's first offset is taken instead. */
  lemma ZeroStartIsNotKept()
    ensures var a := [WordTiming("a", 0, 5)];
      var b := [WordTiming("b", 20, 5)];
      TakeAlternatives(EmptyTally, [a, b]).tally.startOffset == 20
  {
    var a := [WordTiming("a", 0, 5)];
    var b := [WordTiming("b", 20, 5)];
    var ab := [a, b];
    assert ab[..|ab| - 1] == [a] && ab[|ab| - 1] == b;
    assert [a][..|[a]| - 1] == [] && [a][|[a]| - 1] == a;
    assert TakeAlternatives(EmptyTally, []) == Step(EmptyTally, true);
    var first := TakeAlternatives(EmptyTally, [a]);
    assert first == Step(TakeAlternative(EmptyTally, a), true);
    assert first.tally.startOffset == 0;
  }

  /** The Words after the duration `Zip`: the first min(|ws|, |ds|) Words
      take the duration at the same position; the others keep theirs. */
  function WithDurations(ws: seq<Word>, ds: seq<int>): (r: seq<Word>)
    ensures |r| == |ws|
    ensures forall k :: 0 <= k < |ws| ==>
      r[k] == if k < |ds| then ws[k].(duration := ds[k] as real) else ws[k]
  {
    seq(|ws|, k requires 0 <= k < |ws| => if k < |ds| then ws[k].(duration := ds[k] as real) else ws[k])
  }

  /** The `Zip` touches only durations: every Word keeps its text, label and
      accuracy score, so the words outside the Insertions stay the same in
      number and in text. */
  lemma {:induction false} WithDurationsKeepsLabels(ws: seq<Word>, ds: seq<int>)
    ensures Texts(WithDurations(ws, ds)) == Texts(ws)
    ensures |NotInserted(WithDurations(ws, ds))| == |NotInserted(ws)|
    ensures forall k :: 0 <= k < |ws| ==>
      WithDurations(ws, ds)[k].errorType == ws[k].errorType
      && WithDurations(ws, ds)[k].accuracyScore == ws[k].accuracyScore
  {
    if ws != [] {
      var r := WithDurations(ws, ds);
      WithDurationsKeepsLabels(ws[1..], if ds == [] then [] else ds[1..]);
      assert r[1..] == WithDurations(ws[1..], if ds == [] then [] else ds[1..]);
    }
  }

  // ---------------------------------------------------------------------
  // The session object

  /** The variables the event handler captures, gathered in one object. */
  class Session {
    var prosodyScores: seq<real>
    var pronWords: seq<Word>
    var durations: seq<int>
    var recognizedWords: seq<string>
    var startOffset: int
    var endOffset: int

    function State(): Tally
      reads this
    {
      Tally(prosodyScores, pronWords, durations, recognizedWords, startOffset, endOffset)
    }

    constructor ()
      ensures State() == EmptyTally
    {
      prosodyScores, pronWords, durations, recognizedWords := [], [], [], [];
      startOffset, endOffset := 0, 0;
    }

    /** The `Recognized` handler. `completed` is false when an alternative
        without words made the handler throw. */
    method OnRecognized(u: Utterance) returns (completed: bool)
      modifies this
      ensures State() == Recognized(old(State()), u).tally
      ensures completed == Recognized(old(State()), u).completed
    {
      prosodyScores := prosodyScores + [u.prosodyScore];
      AddAssessedWords(u.assessedWords);
      completed := TakeBest(u.alternatives);
    }

    /** The loop over the pronunciation result's words: one Word each. */
    method AddAssessedWords(assessed: seq<AssessedWord>)
      modifies this
      ensures State() == old(State()).(pronWords := old(pronWords) + AsWords(assessed))
    {
      for k := 0 to |assessed|
        invariant State() == old(State()).(pronWords := old(pronWords) + AsWords(assessed[..k]))
      {
        assert AsWords(assessed[..k + 1]) == AsWords(assessed[..k]) + [AsWord(assessed[k])];
        pronWords := pronWords + [AsWord(assessed[k])];
      }
      assert assessed[..|assessed|] == assessed;
    }

    /** The loop over `Best()`. */
    method TakeBest(alts: seq<seq<WordTiming>>) returns (completed: bool)
      modifies this
      ensures Step(State(), completed) == TakeAlternatives(old(State()), alts)
    {
      for i := 0 to |alts|
        invariant TakeAlternatives(old(State()), alts[..i]) == Step(State(), true)
      {
        assert alts[..i + 1][..i] == alts[..i];
        var alt := alts[i];
        durations := durations + PaddedDurations(alt);
        recognizedWords := recognizedWords + WordTexts(alt);
        if alt == [] {
          // `First()` (while startOffset is 0) or `Last()` throws
          assert TakeAlternatives(old(State()), alts[..i + 1]) == Step(State(), false);
          TakeAlternativesStopped(old(State()), alts, i + 1);
          return false;
        }
        if startOffset == 0 {
          startOffset := alt[0].offset;
        }
        endOffset := alt[|alt| - 1].offset + alt[|alt| - 1].duration + DurationPadding;
      }
      assert alts[..|alts|] == alts;
      return true;
    }

    /** The events of a whole session, delivered one at a time in order. */
    method Feed(us: seq<Utterance>)
      modifies this
      ensures State() == RecognizedAll(old(State()), us)
    {
      for i := 0 to |us|
        invariant State() == RecognizedAll(old(State()), us[..i])
      {
        assert us[..i + 1][..i] == us[..i];
        var _ := OnRecognized(us[i]);
      }
      assert us[..|us|] == us;
    }

    /** `pronWords.Zip(durations, (word, duration) => word.Duration = duration)`:
        the first min(|pronWords|, |durations|) Words get their duration;
        nothing else changes. */
    method ApplyDurations()
      modifies this
      ensures State() == old(State()).(pronWords := WithDurations(old(pronWords), old(durations)))
    {
      var n := if |pronWords| < |durations| then |pronWords| else |durations|;
      for k := 0 to n
        invariant durations == old(durations) && |pronWords| == |old(pronWords)|
        invariant forall j :: 0 <= j < |pronWords| ==>
          pronWords[j] == if j < k then old(pronWords[j]).(duration := durations[j] as real) else old(pronWords[j])
        invariant prosodyScores == old(prosodyScores)
        invariant recognizedWords == old(recognizedWords)
        invariant startOffset == old(startOffset) && endOffset == old(endOffset)
      {
        pronWords := pronWords[k := pronWords[k].(duration := durations[k] as real)];
      }
      assert pronWords == WithDurations(old(pronWords), durations);
    }
  }
}
