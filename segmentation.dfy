/** Segmentation of a reference text that has no spaces between its words
    (the zh-CN path): punctuation is removed, then the text is cut into
    dictionary words by greedy longest matching, from the left and from the
    right, and one of the two cuts is kept. */
module Segmentation {
  import opened Words
  import opened TextCleaning

  function Min(a: int, b: int): int
  {
    if a < b then a else b
  }

  /** What either direction may emit: a non-empty piece no longer than
      `maxLength` that is a dictionary word or a single character. */
  ghost predicate IsToken(t: string, dictionary: set<string>, maxLength: int)
  {
    1 <= |t| <= maxLength && (t in dictionary || |t| == 1)
  }

  /** `t` is what the left-to-right pass takes from the front of `text`: the
      longest prefix, of at most `maxLength` characters, that is in the
      dictionary, or the first character when there is none. */
  ghost predicate LongestPrefixMatch(t: string, text: string, dictionary: set<string>, maxLength: int)
  {
    && 1 <= |t| <= Min(maxLength, |text|)
    && t == text[..|t|]
    && (t in dictionary || |t| == 1)
    && forall j :: |t| < j <= Min(maxLength, |text|) ==> text[..j] !in dictionary
  }

  /** `t` is what the right-to-left pass takes from the end of `text`: the
      longest suffix, of at most `maxLength` characters, that is in the
      dictionary, or the last character when there is none. */
  ghost predicate LongestSuffixMatch(t: string, text: string, dictionary: set<string>, maxLength: int)
  {
    && 1 <= |t| <= Min(maxLength, |text|)
    && t == text[|text| - |t|..]
    && (t in dictionary || |t| == 1)
    && forall i :: |text| - Min(maxLength, |text|) <= i < |text| - |t| ==> text[i..] !in dictionary
  }

  /** Every token of `ts` is the longest prefix match of what is left of
      `text` once the tokens before it are consumed. */
  ghost predicate GreedyFromLeft(ts: seq<string>, text: string, dictionary: set<string>, maxLength: int)
    decreases |ts|
  {
    ts == [] ||
      (LongestPrefixMatch(ts[0], text, dictionary, maxLength)
       && GreedyFromLeft(ts[1..], text[|ts[0]|..], dictionary, maxLength))
  }

  /** Every token of `ts` is the longest suffix match of what is left of
      `text` once the tokens after it are consumed. */
  ghost predicate GreedyFromRight(ts: seq<string>, text: string, dictionary: set<string>, maxLength: int)
    decreases |ts|
  {
    ts == [] ||
      (LongestSuffixMatch(ts[|ts| - 1], text, dictionary, maxLength)
       && GreedyFromRight(ts[..|ts| - 1], text[..|text| - |ts[|ts| - 1]|], dictionary, maxLength))
  }

  lemma {:induction false} GreedyFromLeftExtend(ts: seq<string>, text: string, t: string, dictionary: set<string>, maxLength: int)
    requires GreedyFromLeft(ts, text, dictionary, maxLength)
    requires |Concat(ts)| <= |text| && Concat(ts) == text[..|Concat(ts)|]
    requires LongestPrefixMatch(t, text[|Concat(ts)|..], dictionary, maxLength)
    ensures GreedyFromLeft(ts + [t], text, dictionary, maxLength)
  {
    if ts == [] {
      assert ts + [t] == [t] && [t][1..] == [];
    } else {
      var rest := text[|ts[0]|..];
      assert Concat(ts) == ts[0] + Concat(ts[1..]);
      assert (ts + [t])[0] == ts[0];
      assert (ts + [t])[1..] == ts[1..] + [t];
      assert rest[|Concat(ts[1..])|..] == text[|Concat(ts)|..];
      GreedyFromLeftExtend(ts[1..], rest, t, dictionary, maxLength);
    }
  }

  lemma {:induction false} GreedyFromRightPrepend(t: string, ts: seq<string>, text: string, dictionary: set<string>, maxLength: int)
    requires GreedyFromRight(ts, text, dictionary, maxLength)
    requires |Concat(ts)| <= |text| && Concat(ts) == text[|text| - |Concat(ts)|..]
    requires LongestSuffixMatch(t, text[..|text| - |Concat(ts)|], dictionary, maxLength)
    ensures GreedyFromRight([t] + ts, text, dictionary, maxLength)
    decreases |ts|
  {
    if ts == [] {
      assert [t] + ts == [t] && [t][..0] == [];
      assert text[..|text| - |Concat(ts)|] == text;
    } else {
      var last := ts[|ts| - 1];
      var init := ts[..|ts| - 1];
      assert ts == init + [last];
      ConcatAppend(init, [last]);
      ConcatSingle(last);
      var shorter := text[..|text| - |last|];
      assert ([t] + ts)[|ts|] == last;
      assert ([t] + ts)[..|ts|] == [t] + init;
      assert shorter[..|shorter| - |Concat(init)|] == text[..|text| - |Concat(ts)|];
      GreedyFromRightPrepend(t, init, shorter, dictionary, maxLength);
    }
  }

  lemma LongestPrefixMatchUnique(a: string, b: string, text: string, dictionary: set<string>, maxLength: int)
    requires LongestPrefixMatch(a, text, dictionary, maxLength)
    requires LongestPrefixMatch(b, text, dictionary, maxLength)
    ensures a == b
  {
  }

  /** The left-to-right segmentation is determined by the text: two token
      sequences that both join up to `text` and are both greedy from the
      left are the same. */
  lemma {:induction false} GreedyFromLeftUnique(a: seq<string>, b: seq<string>, text: string, dictionary: set<string>, maxLength: int)
    requires GreedyFromLeft(a, text, dictionary, maxLength) && Concat(a) == text
    requires GreedyFromLeft(b, text, dictionary, maxLength) && Concat(b) == text
    ensures a == b
    decreases |a|
  {
    if text != [] {
      // neither is empty, since each joins up to a non-empty text
      LongestPrefixMatchUnique(a[0], b[0], text, dictionary, maxLength);
      assert Concat(a[1..]) == text[|a[0]|..];
      assert Concat(b[1..]) == text[|b[0]|..];
      GreedyFromLeftUnique(a[1..], b[1..], text[|a[0]|..], dictionary, maxLength);
      assert a == [a[0]] + a[1..] && b == [b[0]] + b[1..];
    }
  }

  lemma {:induction false} GreedyFromLeftTokens(ts: seq<string>, text: string, dictionary: set<string>, maxLength: int)
    requires GreedyFromLeft(ts, text, dictionary, maxLength)
    ensures forall i :: 0 <= i < |ts| ==> IsToken(ts[i], dictionary, maxLength)
    decreases |ts|
  {
    if ts != [] {
      GreedyFromLeftTokens(ts[1..], text[|ts[0]|..], dictionary, maxLength);
      assert forall i :: 1 <= i < |ts| ==> ts[i] == ts[1..][i - 1];
    }
  }

  lemma {:induction false} GreedyFromRightTokens(ts: seq<string>, text: string, dictionary: set<string>, maxLength: int)
    requires GreedyFromRight(ts, text, dictionary, maxLength)
    ensures forall i :: 0 <= i < |ts| ==> IsToken(ts[i], dictionary, maxLength)
    decreases |ts|
  {
    if ts != [] {
      GreedyFromRightTokens(ts[..|ts| - 1], text[..|text| - |ts[|ts| - 1]|], dictionary, maxLength);
      assert forall i :: 0 <= i < |ts| - 1 ==> ts[i] == ts[..|ts| - 1][i];
    }
  }

  lemma LeftStep(result: seq<string>, rest: string, text: string, t: string, dictionary: set<string>, maxLength: int)
    requires Concat(result) + rest == text
    requires GreedyFromLeft(result, text, dictionary, maxLength)
    requires LongestPrefixMatch(t, rest, dictionary, maxLength)
    ensures Concat(result + [t]) + rest[|t|..] == text
    ensures GreedyFromLeft(result + [t], text, dictionary, maxLength)
  {
    assert text[|Concat(result)|..] == rest;
    GreedyFromLeftExtend(result, text, t, dictionary, maxLength);
    ConcatAppend(result, [t]);
    ConcatSingle(t);
    assert t + rest[|t|..] == rest;
  }

  lemma RightStep(found: seq<string>, rest: string, text: string, t: string, dictionary: set<string>, maxLength: int)
    requires rest + Concat(Reversed(found)) == text
    requires GreedyFromRight(Reversed(found), text, dictionary, maxLength)
    requires LongestSuffixMatch(t, rest, dictionary, maxLength)
    ensures rest[..|rest| - |t|] + Concat(Reversed(found + [t])) == text
    ensures GreedyFromRight(Reversed(found + [t]), text, dictionary, maxLength)
  {
    assert text[..|text| - |Concat(Reversed(found))|] == rest;
    GreedyFromRightPrepend(t, Reversed(found), text, dictionary, maxLength);
    assert Reversed(found + [t]) == [t] + Reversed(found) by {
      assert (found + [t])[..|found|] == found;
    }
    ConcatAppend([t], Reversed(found));
    ConcatSingle(t);
    assert rest[..|rest| - |t|] + t == rest;
  }

  /** `LeftToRightSegmentation`: cut `text` into tokens from the front, each
      time taking the longest dictionary prefix of at most `maxLength`
      characters, or a single character. The source loops for ever when
      `maxLength` is 0 and throws when it is negative, unless the text is empty. */
  method LeftToRightSegmentation(text: string, dictionary: set<string>, maxLength: int) returns (result: seq<string>)
    requires text == [] || maxLength >= 1
    ensures Concat(result) == text
    ensures forall i :: 0 <= i < |result| ==> IsToken(result[i], dictionary, maxLength)
    ensures GreedyFromLeft(result, text, dictionary, maxLength)
  {
    result := [];
    var rest := text;
    while |rest| > 0
      invariant Concat(result) + rest == text
      invariant GreedyFromLeft(result, text, dictionary, maxLength)
      decreases |rest|
    {
      var subText := if |rest| < maxLength then rest else rest[..maxLength];
      ghost var restBefore, resultBefore := rest, result;
      while |subText| > 0
        invariant rest == restBefore && result == resultBefore
        invariant 1 <= |subText| <= Min(maxLength, |rest|)
        invariant subText == rest[..|subText|]
        invariant forall j :: |subText| < j <= Min(maxLength, |rest|) ==> rest[..j] !in dictionary
        decreases |subText|
      {
        if subText in dictionary || |subText| == 1 {
          LeftStep(result, rest, text, subText, dictionary, maxLength);
          result := result + [subText];
          rest := rest[|subText|..];
          break;
        }
        subText := subText[..|subText| - 1];
      }
    }
    GreedyFromLeftTokens(result, text, dictionary, maxLength);
  }

  /** `Reverse` on the list of tokens. */
  function Reversed<T>(s: seq<T>): (r: seq<T>)
    ensures |r| == |s|
    ensures forall i :: 0 <= i < |s| ==> r[i] == s[|s| - 1 - i]
  {
    if s == [] then [] else [s[|s| - 1]] + Reversed(s[..|s| - 1])
  }

  /** `RightToLeftSegmentation`: cut `text` into tokens from the back, each
      time taking the longest dictionary suffix of at most `maxLength`
      characters, or a single character; the tokens are collected in the
      order found and then reversed. */
  method RightToLeftSegmentation(text: string, dictionary: set<string>, maxLength: int) returns (result: seq<string>)
    requires text == [] || maxLength >= 1
    ensures Concat(result) == text
    ensures forall i :: 0 <= i < |result| ==> IsToken(result[i], dictionary, maxLength)
    ensures GreedyFromRight(result, text, dictionary, maxLength)
  {
    var found: seq<string> := [];
    var rest := text;
    while |rest| > 0
      invariant rest + Concat(Reversed(found)) == text
      invariant GreedyFromRight(Reversed(found), text, dictionary, maxLength)
      decreases |rest|
    {
      var subText := if |rest| < maxLength then rest else rest[|rest| - maxLength..];
      ghost var restBefore, foundBefore := rest, found;
      while |subText| > 0
        invariant rest == restBefore && found == foundBefore
        invariant 1 <= |subText| <= Min(maxLength, |rest|)
        invariant subText == rest[|rest| - |subText|..]
        invariant forall i :: |rest| - Min(maxLength, |rest|) <= i < |rest| - |subText| ==> rest[i..] !in dictionary
        decreases |subText|
      {
        if subText in dictionary || |subText| == 1 {
          assert LongestSuffixMatch(subText, rest, dictionary, maxLength);
          RightStep(found, rest, text, subText, dictionary, maxLength);
          found := found + [subText];
          rest := rest[..|rest| - |subText|];
          break;
        }
        subText := subText[1..];
      }
    }
    result := Reversed(found);
    GreedyFromRightTokens(result, text, dictionary, maxLength);
  }

  /** The number of one-character tokens. */
  function SingleCharacterCount(ts: seq<string>): (n: nat)
    ensures n <= |ts|
  {
    if ts == [] then 0 else (if |ts[0]| == 1 then 1 else 0) + SingleCharacterCount(ts[1..])
  }

  /** The choice at the end of `SegmentWord`: a candidate that joins back to
      the text wins, the left-to-right one first; otherwise fewer tokens
      win, then fewer one-character tokens, and a full tie goes to the
      right-to-left candidate. */
  function PickSegmentation(text: string, leftToRight: seq<string>, rightToLeft: seq<string>): (r: seq<string>)
    ensures r == leftToRight || r == rightToLeft
    ensures Concat(leftToRight) == text ==> r == leftToRight
    ensures Concat(r) == text <==> Concat(leftToRight) == text || Concat(rightToLeft) == text
    ensures Concat(leftToRight) != text && Concat(rightToLeft) != text && leftToRight != rightToLeft ==>
      (r == leftToRight <==>
         (|| |leftToRight| < |rightToLeft|
          || (|leftToRight| == |rightToLeft| && SingleCharacterCount(leftToRight) < SingleCharacterCount(rightToLeft))))
  {
    if Concat(leftToRight) == text then leftToRight
    else if Concat(rightToLeft) == text then rightToLeft
    else if |leftToRight| < |rightToLeft| then leftToRight
    else if |leftToRight| > |rightToLeft| then rightToLeft
    else if SingleCharacterCount(leftToRight) < SingleCharacterCount(rightToLeft) then leftToRight
    else rightToLeft
  }

  /** `SegmentWord`: runs both passes and picks one. Since the left-to-right
      pass always joins back to the text, the pick is always the
      left-to-right segmentation, the unique greedy one. */
  method SegmentWord(referenceText: string, dictionary: set<string>, maxLength: int) returns (r: seq<string>)
    requires referenceText == [] || maxLength >= 1
    ensures Concat(r) == referenceText
    ensures forall i :: 0 <= i < |r| ==> IsToken(r[i], dictionary, maxLength)
    ensures GreedyFromLeft(r, referenceText, dictionary, maxLength)
  {
    var leftToRight := LeftToRightSegmentation(referenceText, dictionary, maxLength);
    var rightToLeft := RightToLeftSegmentation(referenceText, dictionary, maxLength);
    r := PickSegmentation(referenceText, leftToRight, rightToLeft);
  }

  /** `dictionary.Max(word => word.Length)` over a non-empty word list. */
  function MaxLength(words: seq<string>): (m: nat)
    requires words != []
    ensures forall i :: 0 <= i < |words| ==> |words[i]| <= m
    ensures exists i :: 0 <= i < |words| && |words[i]| == m
  {
    if |words| == 1 then |words[0]|
    else
      var m := MaxLength(words[1..]);
      var i :| 0 <= i < |words[1..]| && |words[1..][i]| == m;
      assert |words[i + 1]| == m;
      if |words[0]| > m then |words[0]| else m
  }

  /** `new HashSet<string>(referenceWords)`. */
  function Dictionary(words: seq<string>): set<string>
  {
    set w | w in words
  }

  datatype SegmentError =
    | EmptyDictionary  // `Max` over an empty dictionary throws
    | NoProgress       // every dictionary word is empty: both passes loop for ever

  /** `ConvertReferenceWords`: the dictionary is the set of calibration
      words and `maxLength` the length of the longest one; the reference
      text is stripped of punctuation and segmented. */
  method ConvertReferenceWords(u: CharClasses, referenceText: string, referenceWords: seq<string>)
    returns (r: Result<seq<string>, SegmentError>)
    ensures referenceWords == [] <==> r == Err(EmptyDictionary)
    ensures r == Err(NoProgress) <==>
      referenceWords != [] && MaxLength(referenceWords) == 0 && RemovePunctuation(u, referenceText) != []
    ensures r.Ok? ==> (referenceWords != [] &&
      var text := RemovePunctuation(u, referenceText);
      && Concat(r.value) == text
      && GreedyFromLeft(r.value, text, Dictionary(referenceWords), MaxLength(referenceWords))
      && forall i :: 0 <= i < |r.value| ==> IsToken(r.value[i], Dictionary(referenceWords), MaxLength(referenceWords)))
  {
    if referenceWords == [] {
      return Err(EmptyDictionary);
    }
    var dictionary := Dictionary(referenceWords);
    var maxLength := MaxLength(referenceWords);
    var text := RemovePunctuation(u, referenceText);
    if maxLength == 0 && text != [] {
      return Err(NoProgress);
    }
    var tokens := SegmentWord(text, dictionary, maxLength);
    return Ok(tokens);
  }

  /** One word of the calibration recognition: its text and error label. */
  datatype CalibrationWord = CalibrationWord(word: string, errorType: string)

  /** The calibration words that are not labelled Insertion, in order. */
  function NonInsertedTexts(items: seq<CalibrationWord>): (ws: seq<string>)
  {
    if items == [] then []
    else
      var init := NonInsertedTexts(items[..|items| - 1]);
      var last := items[|items| - 1];
      if last.errorType != Insertion then init + [last.word] else init
  }

  /** The number of calibration words labelled Insertion. */
  function InsertedCount(items: seq<CalibrationWord>): nat
  {
    if items == [] then 0
    else InsertedCount(items[..|items| - 1]) + (if items[|items| - 1].errorType == Insertion then 1 else 0)
  }

  /** Dropping the Insertions drops exactly them: every other word is kept. */
  lemma {:induction false} NonInsertedTextsCount(items: seq<CalibrationWord>)
    ensures |NonInsertedTexts(items)| + InsertedCount(items) == |items|
  {
    if items != [] {
      NonInsertedTextsCount(items[..|items| - 1]);
    }
  }

  /** The loop that collects the calibration words into the dictionary,
      skipping words labelled Insertion. */
  method CollectReferenceWords(items: seq<CalibrationWord>) returns (referenceWords: seq<string>)
    ensures referenceWords == NonInsertedTexts(items)
    ensures forall w :: w in referenceWords ==> exists i :: 0 <= i < |items| && items[i].word == w && items[i].errorType != Insertion
  {
    referenceWords := [];
    for i := 0 to |items|
      invariant referenceWords == NonInsertedTexts(items[..i])
      invariant forall w :: w in referenceWords ==> exists k :: 0 <= k < i && items[k].word == w && items[k].errorType != Insertion
    {
      assert items[..i + 1][..i] == items[..i];
      if items[i].errorType != Insertion {
        referenceWords := referenceWords + [items[i].word];
      }
    }
    assert items[..|items|] == items;
  }
}
