/** The walk over the line diff of the reference words against the
    recognized words, which puts back the omissions and insertions that the
    service does not report in continuous mode. The diff itself is computed
    by a library; here its output is an input, constrained to be an edit
    script of the two word lists. */
module Alignment {
  import opened Words

  /** DiffPlex's `ChangeType`. */
  datatype ChangeType = Unchanged | Deleted | Inserted | Imaginary | Modified

  /** One line of the inline diff model: its kind and its text. */
  datatype DiffPiece = DiffPiece(kind: ChangeType, text: string)

  /** `deltas` is an edit script turning `reference` into `recognized`: an
      Unchanged line is a word of both, a Deleted line a reference word, an
      Inserted line a recognized word, a Modified line a reference word (its
      text) replaced by a recognized word, and an Imaginary line stands for
      nothing. */
  ghost predicate IsEditScript(deltas: seq<DiffPiece>, reference: seq<string>, recognized: seq<string>)
    decreases |deltas|
  {
    if deltas == [] then reference == [] && recognized == []
    else
      var d := deltas[0];
      var rest := deltas[1..];
      match d.kind
      case Unchanged =>
        reference != [] && recognized != [] && reference[0] == d.text && recognized[0] == d.text
        && IsEditScript(rest, reference[1..], recognized[1..])
      case Deleted =>
        reference != [] && reference[0] == d.text && IsEditScript(rest, reference[1..], recognized)
      case Inserted =>
        recognized != [] && recognized[0] == d.text && IsEditScript(rest, reference, recognized[1..])
      case Modified =>
        reference != [] && recognized != [] && reference[0] == d.text
        && IsEditScript(rest, reference[1..], recognized[1..])
      case Imaginary =>
        IsEditScript(rest, reference, recognized)
  }

  /** Whether a line moves the cursor into the recognized words. */
  predicate Consumes(k: ChangeType)
  {
    k == Unchanged || k == Inserted || k == Modified
  }

  /** The number of lines that move the cursor. */
  function Consumed(deltas: seq<DiffPiece>): nat
  {
    if deltas == [] then 0 else (if Consumes(deltas[0].kind) then 1 else 0) + Consumed(deltas[1..])
  }

  /** The block for Inserted and Modified lines: a copy of the recognized
      word relabelled Insertion when the service labelled it None, nothing
      otherwise. The word itself is never changed. */
  function AsInsertion(w: Word): (r: seq<Word>)
    ensures w.errorType == NoError ==> r == [w.(errorType := Insertion)]
    ensures w.errorType != NoError ==> r == []
  {
    if w.errorType == NoError then [w.(errorType := Insertion)] else []
  }

  /** The Omission entry for a reference word that was not read. */
  function Omitted(referenceWord: string): (w: Word)
    ensures w == Word(referenceWord, Omission, 0.0, 0.0)
  {
    Unscored(referenceWord, Omission)
  }

  /** The words appended for one line when the cursor is at `i`; `None`
      when the line reads `pronWords[i]` and `i` is out of range, which
      throws in the source. */
  function StepWords(d: DiffPiece, pronWords: seq<Word>, i: nat): Option<seq<Word>>
  {
    match d.kind
    case Unchanged => if i < |pronWords| then Some([pronWords[i]]) else None
    case Deleted => Some([Omitted(d.text)])
    case Inserted => if i < |pronWords| then Some(AsInsertion(pronWords[i])) else None
    case Modified => if i < |pronWords| then Some([Omitted(d.text)] + AsInsertion(pronWords[i])) else None
    case Imaginary => Some([])
  }

  /** A line fails exactly when it reads the Word under the cursor and the
      cursor is past the end of `pronWords`. */
  lemma StepFailsIff(d: DiffPiece, pronWords: seq<Word>, i: nat)
    ensures StepWords(d, pronWords, i).None? <==> Consumes(d.kind) && i >= |pronWords|
  {
  }

  /** `prefix` followed by a walk's words; an interrupted walk stays interrupted. */
  function Then(prefix: seq<Word>, rest: Option<seq<Word>>): (r: Option<seq<Word>>)
    ensures r.Some? <==> rest.Some?
    ensures r.Some? ==> r.value == prefix + rest.value
  {
    if rest.None? then None else Some(prefix + rest.value)
  }

  lemma ThenThen(a: seq<Word>, b: seq<Word>, x: Option<seq<Word>>)
    ensures Then(a, Then(b, x)) == Then(a + b, x)
  {
    if x.Some? {
      assert a + (b + x.value) == (a + b) + x.value;
    }
  }

  lemma ThenNothing(x: Option<seq<Word>>)
    ensures Then([], x) == x
  {
    if x.Some? {
      assert [] + x.value == x.value;
    }
  }

  /** The words the walk appends from the line list `deltas` on, with the
      cursor at `i`; `None` when the cursor runs off `pronWords`. */
  function AlignFrom(deltas: seq<DiffPiece>, pronWords: seq<Word>, i: nat): Option<seq<Word>>
    decreases |deltas|
  {
    if deltas == [] then Some([])
    else
      var step := StepWords(deltas[0], pronWords, i);
      if step.None? then None
      else Then(step.value, AlignFrom(deltas[1..], pronWords, if Consumes(deltas[0].kind) then i + 1 else i))
  }

  /** One line of the walk, at position `k` of the line list. */
  lemma AlignStep(deltas: seq<DiffPiece>, pronWords: seq<Word>, k: nat, i: nat)
    requires k < |deltas|
    ensures var step := StepWords(deltas[k], pronWords, i);
      var next := if Consumes(deltas[k].kind) then i + 1 else i;
      AlignFrom(deltas[k..], pronWords, i)
      == if step.None? then None else Then(step.value, AlignFrom(deltas[k + 1..], pronWords, next))
  {
    assert deltas[k..][0] == deltas[k] && deltas[k..][1..] == deltas[k + 1..];
  }

  datatype AlignError = CursorOutOfRange

  /** The `finalWords` list: the walk over the diff lines when miscue
      detection is on, the Words as they are otherwise. */
  method FinalWords(enableMiscue: bool, deltas: seq<DiffPiece>, pronWords: seq<Word>)
    returns (r: Result<seq<Word>, AlignError>)
    ensures !enableMiscue ==> r == Ok(pronWords)
    ensures enableMiscue ==> r.Ok? == AlignFrom(deltas, pronWords, 0).Some?
    ensures enableMiscue && r.Ok? ==> r.value == AlignFrom(deltas, pronWords, 0).value
    ensures enableMiscue && r.Err? ==> r.error == CursorOutOfRange
  {
    if !enableMiscue {
      return Ok(pronWords);
    }
    var finalWords: seq<Word> := [];
    var currentIdx: nat := 0;
    ThenNothing(AlignFrom(deltas, pronWords, 0));
    for k := 0 to |deltas|
      invariant AlignFrom(deltas, pronWords, 0) == Then(finalWords, AlignFrom(deltas[k..], pronWords, currentIdx))
    {
      var delta := deltas[k];
      AlignStep(deltas, pronWords, k, currentIdx);
      ghost var idxBefore := currentIdx;
      // the words this line appends to finalWords
      var added: seq<Word> := [];
      if delta.kind == Unchanged {
        if currentIdx >= |pronWords| {
          return Err(CursorOutOfRange);
        }
        added := [pronWords[currentIdx]];
        currentIdx := currentIdx + 1;
      }
      if delta.kind == Deleted || delta.kind == Modified {
        added := [Unscored(delta.text, Omission)];
      }
      if delta.kind == Inserted || delta.kind == Modified {
        if currentIdx >= |pronWords| {
          return Err(CursorOutOfRange);
        }
        var w := pronWords[currentIdx];
        if w.errorType == NoError {
          w := w.(errorType := Insertion);
          assert [] + [w] == [w];
          added := added + [w];
        }
        currentIdx := currentIdx + 1;
      }
      if delta.kind == Modified {
        assert [Omitted(delta.text)] + [] == [Omitted(delta.text)];
      }
      assert StepWords(delta, pronWords, idxBefore) == Some(added);
      ThenThen(finalWords, added, AlignFrom(deltas[k + 1..], pronWords, currentIdx));
      finalWords := finalWords + added;
    }
    assert deltas[|deltas|..] == [];
    return Ok(finalWords);
  }

  // ---------------------------------------------------------------------
  // Properties of the walk

  /** An edit script of the reference against the recognized words moves
      the cursor once per recognized word. */
  lemma {:induction false} ConsumedIsRecognizedCount(deltas: seq<DiffPiece>, reference: seq<string>, recognized: seq<string>)
    requires IsEditScript(deltas, reference, recognized)
    ensures Consumed(deltas) == |recognized|
    decreases |deltas|
  {
    if deltas != [] {
      var d := deltas[0];
      match d.kind
      case Unchanged => ConsumedIsRecognizedCount(deltas[1..], reference[1..], recognized[1..]);
      case Deleted => ConsumedIsRecognizedCount(deltas[1..], reference[1..], recognized);
      case Inserted => ConsumedIsRecognizedCount(deltas[1..], reference, recognized[1..]);
      case Modified => ConsumedIsRecognizedCount(deltas[1..], reference[1..], recognized[1..]);
      case Imaginary => ConsumedIsRecognizedCount(deltas[1..], reference, recognized);
    }
  }

  /** The walk finishes exactly when the lines that read a Word are no
      more than the Words left after the cursor. */
  lemma {:induction false} AlignSucceedsIff(deltas: seq<DiffPiece>, pronWords: seq<Word>, i: nat)
    requires i <= |pronWords|
    ensures AlignFrom(deltas, pronWords, i).Some? <==> i + Consumed(deltas) <= |pronWords|
    decreases |deltas|
  {
    if deltas != [] && StepWords(deltas[0], pronWords, i).Some? {
      AlignSucceedsIff(deltas[1..], pronWords, if Consumes(deltas[0].kind) then i + 1 else i);
    }
  }

  /** When the diff is an edit script of the reference against the
      recognized words and there are as many Words as recognized words, the
      cursor never leaves the Words; with fewer Words it always does. */
  lemma CursorStaysInBounds(deltas: seq<DiffPiece>, reference: seq<string>, recognized: seq<string>, pronWords: seq<Word>)
    requires IsEditScript(deltas, reference, recognized)
    ensures AlignFrom(deltas, pronWords, 0).Some? <==> |recognized| <= |pronWords|
  {
    ConsumedIsRecognizedCount(deltas, reference, recognized);
    AlignSucceedsIff(deltas, pronWords, 0);
  }

  lemma TextsShift(recognized: seq<string>, pronWords: seq<Word>, i: nat)
    requires recognized != [] && i + |recognized| <= |pronWords|
    requires forall j :: 0 <= j < |recognized| ==> pronWords[i + j].wordText == recognized[j]
    ensures forall j :: 0 <= j < |recognized[1..]| ==> pronWords[(i + 1) + j].wordText == recognized[1..][j]
  {
    forall j | 0 <= j < |recognized[1..]|
      ensures pronWords[(i + 1) + j].wordText == recognized[1..][j]
    {
      assert pronWords[i + (j + 1)].wordText == recognized[j + 1];
    }
  }

  /** Whether a line stands for a reference word. */
  predicate TakesReference(k: ChangeType)
  {
    k == Unchanged || k == Deleted || k == Modified
  }

  /** The reference words a line stands for. */
  function StepReference(d: DiffPiece): seq<string>
  {
    if TakesReference(d.kind) then [d.text] else []
  }

  /** The first line of an edit script accounts for the first reference
      word, the first recognized word, both or neither, and the other lines
      are an edit script of what is left. */
  lemma EditScriptStep(deltas: seq<DiffPiece>, reference: seq<string>, recognized: seq<string>)
    requires deltas != [] && IsEditScript(deltas, reference, recognized)
    ensures TakesReference(deltas[0].kind) ==> reference != []
    ensures Consumes(deltas[0].kind) ==> recognized != []
    ensures deltas[0].kind == Unchanged ==> recognized[0] == deltas[0].text
    ensures reference == StepReference(deltas[0]) + (if TakesReference(deltas[0].kind) then reference[1..] else reference)
    ensures IsEditScript(deltas[1..], if TakesReference(deltas[0].kind) then reference[1..] else reference,
                         if Consumes(deltas[0].kind) then recognized[1..] else recognized)
  {
    if TakesReference(deltas[0].kind) {
      assert reference == [reference[0]] + reference[1..];
    }
  }

  /** The texts of the walk's entries outside the Insertions are the
      reference words: the Unchanged entries carry the recognized word that
      matched the reference word, the Omissions the reference word itself.
      This needs the Words to carry the recognized texts and none of them to
      be labelled Insertion already. */
  lemma {:induction false} ReferenceRecovered(deltas: seq<DiffPiece>, reference: seq<string>, recognized: seq<string>,
                                              pronWords: seq<Word>, i: nat)
    requires IsEditScript(deltas, reference, recognized)
    requires i + |recognized| <= |pronWords|
    requires forall j :: 0 <= j < |recognized| ==> pronWords[i + j].wordText == recognized[j]
    requires forall k :: i <= k < |pronWords| ==> pronWords[k].errorType != Insertion
    ensures AlignFrom(deltas, pronWords, i).Some?
    ensures Texts(NotInserted(AlignFrom(deltas, pronWords, i).value)) == reference
    decreases |deltas|
  {
    if deltas != [] {
      var d := deltas[0];
      EditScriptStep(deltas, reference, recognized);
      var next: nat := if Consumes(d.kind) then i + 1 else i;
      var restReference := if TakesReference(d.kind) then reference[1..] else reference;
      var restRecognized := if Consumes(d.kind) then recognized[1..] else recognized;
      if Consumes(d.kind) {
        TextsShift(recognized, pronWords, i);
      }
      ReferenceRecovered(deltas[1..], restReference, restRecognized, pronWords, next);
      StepTexts(d, pronWords, i);
      if d.kind == Unchanged {
        assert pronWords[i + 0].wordText == recognized[0];
      }
      AlignTexts(deltas, pronWords, i);
    }
  }

  /** Outside the Insertions, the walk's texts are those of its first line
      followed by those of the rest. */
  lemma AlignTexts(deltas: seq<DiffPiece>, pronWords: seq<Word>, i: nat)
    requires deltas != [] && StepWords(deltas[0], pronWords, i).Some?
    requires AlignFrom(deltas[1..], pronWords, if Consumes(deltas[0].kind) then i + 1 else i).Some?
    ensures AlignFrom(deltas, pronWords, i).Some?
    ensures Texts(NotInserted(AlignFrom(deltas, pronWords, i).value))
         == Texts(NotInserted(StepWords(deltas[0], pronWords, i).value))
            + Texts(NotInserted(AlignFrom(deltas[1..], pronWords, if Consumes(deltas[0].kind) then i + 1 else i).value))
  {
    var step := StepWords(deltas[0], pronWords, i).value;
    var tail := AlignFrom(deltas[1..], pronWords, if Consumes(deltas[0].kind) then i + 1 else i).value;
    assert AlignFrom(deltas, pronWords, i) == Some(step + tail);
    NotInsertedAppend(step, tail);
    TextsAppend(NotInserted(step), NotInserted(tail));
  }

  lemma TextsAppend(a: seq<Word>, b: seq<Word>)
    ensures Texts(a + b) == Texts(a) + Texts(b)
  {
  }

  /** The texts one line contributes outside the Insertions: the matched
      Word's text for an Unchanged line, the reference word for a Deleted or
      Modified line, nothing otherwise. */
  lemma StepTexts(d: DiffPiece, pronWords: seq<Word>, i: nat)
    requires Consumes(d.kind) ==> i < |pronWords| && pronWords[i].errorType != Insertion
    ensures StepWords(d, pronWords, i).Some?
    ensures Texts(NotInserted(StepWords(d, pronWords, i).value))
      == match d.kind
         case Unchanged => [pronWords[i].wordText]
         case Deleted => [d.text]
         case Modified => [d.text]
         case _ => []
  {
    if d.kind == Modified {
      NotInsertedAppend([Omitted(d.text)], AsInsertion(pronWords[i]));
      assert NotInserted([Omitted(d.text)]) == [Omitted(d.text)];
      assert NotInserted(AsInsertion(pronWords[i])) == [];
    } else if d.kind == Inserted {
      assert NotInserted(AsInsertion(pronWords[i])) == [];
    } else if d.kind == Unchanged {
      assert NotInserted([pronWords[i]]) == [pronWords[i]];
    } else if d.kind == Deleted {
      assert NotInserted([Omitted(d.text)]) == [Omitted(d.text)];
    }
  }

  /** When the reading matches the reference word for word, the diff is all
      Unchanged lines and the walk returns the Words as they are. */
  lemma {:induction false} AllUnchangedKeepsWords(deltas: seq<DiffPiece>, pronWords: seq<Word>, i: nat)
    requires forall k :: 0 <= k < |deltas| ==> deltas[k].kind == Unchanged
    requires i + |deltas| == |pronWords|
    ensures AlignFrom(deltas, pronWords, i) == Some(pronWords[i..])
    decreases |deltas|
  {
    if deltas == [] {
      assert pronWords[i..] == [];
    } else {
      AllUnchangedKeepsWords(deltas[1..], pronWords, i + 1);
      assert pronWords[i..] == [pronWords[i]] + pronWords[i + 1..];
    }
  }

  /** A word left out of the reading: reference a b c, recognized a c. */
  lemma OmissionExample(a: Word, c: Word)
    requires a.wordText == "a" && c.wordText == "c"
    requires a.errorType == NoError && c.errorType == NoError
    ensures var deltas := [DiffPiece(Unchanged, "a"), DiffPiece(Deleted, "b"), DiffPiece(Unchanged, "c")];
      && IsEditScript(deltas, ["a", "b", "c"], ["a", "c"])
      && AlignFrom(deltas, [a, c], 0) == Some([a, Word("b", Omission, 0.0, 0.0), c])
  {
    var deltas := [DiffPiece(Unchanged, "a"), DiffPiece(Deleted, "b"), DiffPiece(Unchanged, "c")];
    var pron := [a, c];
    var last := [DiffPiece(Unchanged, "c")];
    assert deltas[1..] == [DiffPiece(Deleted, "b")] + last && deltas[1..][1..] == last && last[1..] == [];
    assert ["a", "b", "c"][1..] == ["b", "c"] && ["b", "c"][1..] == ["c"] && ["c"][1..] == [];
    assert ["a", "c"][1..] == ["c"];
    assert IsEditScript(last, ["c"], ["c"]);
    assert IsEditScript(deltas[1..], ["b", "c"], ["c"]);
    assert [c] + [] == [c] && AlignFrom([], pron, 2) == Some([]);
    assert AlignFrom(last, pron, 1) == Some([c]);
    assert [Omitted("b")] + [c] == [Omitted("b"), c];
    assert AlignFrom(deltas[1..], pron, 1) == Some([Omitted("b"), c]);
    assert AlignFrom(deltas, pron, 0) == Some([a] + [Omitted("b"), c]);
    assert [a] + [Omitted("b"), c] == [a, Word("b", Omission, 0.0, 0.0), c];
    assert IsEditScript(deltas, ["a", "b", "c"], ["a", "c"]);
  }

  /** An extra word in the reading: reference a b, recognized a b x. */
  lemma InsertionExample(a: Word, b: Word, x: Word)
    requires a.wordText == "a" && b.wordText == "b" && x.wordText == "x"
    requires a.errorType == NoError && b.errorType == NoError && x.errorType == NoError
    ensures var deltas := [DiffPiece(Unchanged, "a"), DiffPiece(Unchanged, "b"), DiffPiece(Inserted, "x")];
      && IsEditScript(deltas, ["a", "b"], ["a", "b", "x"])
      && AlignFrom(deltas, [a, b, x], 0) == Some([a, b, x.(errorType := Insertion)])
  {
    var deltas := [DiffPiece(Unchanged, "a"), DiffPiece(Unchanged, "b"), DiffPiece(Inserted, "x")];
    var pron := [a, b, x];
    var last := [DiffPiece(Inserted, "x")];
    assert deltas[1..] == [DiffPiece(Unchanged, "b")] + last && deltas[1..][1..] == last && last[1..] == [];
    assert ["a", "b"][1..] == ["b"] && ["b"][1..] == [];
    assert ["a", "b", "x"][1..] == ["b", "x"] && ["b", "x"][1..] == ["x"] && ["x"][1..] == [];
    assert IsEditScript(last, [], ["x"]);
    assert IsEditScript(deltas[1..], ["b"], ["b", "x"]);
    var xi := x.(errorType := Insertion);
    assert [xi] + [] == [xi] && AlignFrom([], pron, 3) == Some([]);
    assert StepWords(last[0], pron, 2) == Some([xi]);
    assert AlignFrom(last, pron, 2) == Some([xi]);
    assert [a] + [b, xi] == [a, b, xi];
    assert AlignFrom(deltas[1..], pron, 1) == Some([b] + [xi]);
    assert [b] + [xi] == [b, xi];
    assert AlignFrom(deltas, pron, 0) == Some([a] + [b, x.(errorType := Insertion)]);
  }
}
