/** Cleaning of the reference text before it is compared with what was
    recognized: punctuation removal before segmentation, and the lower-case /
    split-on-space / trim path used for space-delimited languages. */
module TextCleaning {

  /** The Unicode character classes and case mapping the source relies on
      (`char.IsLetterOrDigit`, `char.IsWhiteSpace`, the regex class `\p{P}`
      and lower-casing). The model does not interpret Unicode; every
      operation takes them as given. */
  datatype CharClasses = CharClasses(
    isLetterOrDigit: char -> bool,
    isWhiteSpace: char -> bool,
    isPunctuation: char -> bool,
    toLower: char -> char)

  /** `string.Join("", tokens)`. */
  function Concat(ts: seq<string>): string
  {
    if ts == [] then [] else ts[0] + Concat(ts[1..])
  }

  lemma {:induction false} ConcatAppend(a: seq<string>, b: seq<string>)
    ensures Concat(a + b) == Concat(a) + Concat(b)
  {
    if a == [] {
      assert a + b == b;
    } else {
      assert (a + b)[1..] == a[1..] + b;
      ConcatAppend(a[1..], b);
    }
  }

  lemma ConcatSingle(t: string)
    ensures Concat([t]) == t
  {
    assert [t][1..] == [];
  }

  // ---------------------------------------------------------------------
  // RemovePunctuation

  /** A character survives punctuation removal when it is a letter, a digit
      or white space. */
  predicate KeptBySegmenter(u: CharClasses, c: char)
  {
    u.isLetterOrDigit(c) || u.isWhiteSpace(c)
  }

  /** `RemovePunctuation`: the characters of `text` that are letters, digits
      or white space, in their original order. */
  function RemovePunctuation(u: CharClasses, text: string): (r: string)
    ensures |r| <= |text|
    ensures forall i :: 0 <= i < |r| ==> KeptBySegmenter(u, r[i])
    ensures forall i :: 0 <= i < |text| && KeptBySegmenter(u, text[i]) ==> text[i] in r
  {
    if text == [] then []
    else (if KeptBySegmenter(u, text[0]) then [text[0]] else []) + RemovePunctuation(u, text[1..])
  }

  /** Removal works character by character: it distributes over concatenation. */
  lemma {:induction false} RemovePunctuationAppend(u: CharClasses, a: string, b: string)
    ensures RemovePunctuation(u, a + b) == RemovePunctuation(u, a) + RemovePunctuation(u, b)
  {
    if a == [] {
      assert a + b == b;
    } else {
      assert (a + b)[0] == a[0];
      assert (a + b)[1..] == a[1..] + b;
      RemovePunctuationAppend(u, a[1..], b);
    }
  }

  /** A text without punctuation is left as it is. */
  lemma {:induction false} RemovePunctuationOfClean(u: CharClasses, text: string)
    requires forall i :: 0 <= i < |text| ==> KeptBySegmenter(u, text[i])
    ensures RemovePunctuation(u, text) == text
  {
    if text != [] {
      assert KeptBySegmenter(u, text[0]);
      RemovePunctuationOfClean(u, text[1..]);
    }
  }

  /** Removing punctuation twice is the same as removing it once. */
  lemma RemovePunctuationIdempotent(u: CharClasses, text: string)
    ensures RemovePunctuation(u, RemovePunctuation(u, text)) == RemovePunctuation(u, text)
  {
    RemovePunctuationOfClean(u, RemovePunctuation(u, text));
  }

  /** `s` can be obtained from `t` by deleting characters. */
  ghost predicate IsSubsequence(s: string, t: string)
    decreases |t|
  {
    if t == [] then s == []
    else (s != [] && s[0] == t[0] && IsSubsequence(s[1..], t[1..])) || IsSubsequence(s, t[1..])
  }

  /** The result keeps the order of the input: it is a subsequence of it. */
  lemma {:induction false} RemovePunctuationIsSubsequence(u: CharClasses, text: string)
    ensures IsSubsequence(RemovePunctuation(u, text), text)
  {
    if text != [] {
      RemovePunctuationIsSubsequence(u, text[1..]);
      var r := RemovePunctuation(u, text);
      if KeptBySegmenter(u, text[0]) {
        assert r == [text[0]] + RemovePunctuation(u, text[1..]);
        assert r != [] && r[0] == text[0] && r[1..] == RemovePunctuation(u, text[1..]);
      } else {
        assert r == RemovePunctuation(u, text[1..]);
      }
    }
  }

  // ---------------------------------------------------------------------
  // Lower-casing and splitting on ' '

  /** `ToLower`, character by character. */
  function ToLower(u: CharClasses, s: string): (r: string)
    ensures |r| == |s|
    ensures forall i :: 0 <= i < |s| ==> r[i] == u.toLower(s[i])
  {
    seq(|s|, i requires 0 <= i < |s| => u.toLower(s[i]))
  }

  /** `string.Join(" ", pieces)`. */
  function JoinWithSpace(pieces: seq<string>): string
    requires pieces != []
  {
    if |pieces| == 1 then pieces[0] else pieces[0] + [' '] + JoinWithSpace(pieces[1..])
  }

  /** `s.Split(' ')`: the pieces between single spaces, empty pieces included,
      so that there is always one more piece than there are spaces. */
  function SplitOnSpace(s: string): (r: seq<string>)
    ensures r != []
    ensures forall k :: 0 <= k < |r| ==> ' ' !in r[k]
    ensures JoinWithSpace(r) == s
  {
    if s == [] then [[]]
    else
      var rest := SplitOnSpace(s[1..]);
      if s[0] == ' ' then
        assert ([[]] + rest)[1..] == rest;
        [[]] + rest
      else
        var r := [[s[0]] + rest[0]] + rest[1..];
        assert r[1..] == rest[1..];
        assert |rest| > 1 ==> JoinWithSpace(rest) == rest[0] + [' '] + JoinWithSpace(rest[1..]);
        r
  }

  lemma {:induction false} SplitWithoutSpace(w: string)
    requires ' ' !in w
    ensures SplitOnSpace(w) == [w]
  {
    if w != [] {
      SplitWithoutSpace(w[1..]);
      assert [w[0]] + w[1..] == w;
    }
  }

  lemma {:induction false} SplitAfterWord(w: string, t: string)
    requires ' ' !in w
    ensures SplitOnSpace(w + [' '] + t) == [w] + SplitOnSpace(t)
  {
    var s := w + [' '] + t;
    if w == [] {
      assert s[0] == ' ' && s[1..] == t;
    } else {
      assert s[0] == w[0] && s[1..] == w[1..] + [' '] + t;
      SplitAfterWord(w[1..], t);
      assert [w[0]] + w[1..] == w;
    }
  }

  /** Splitting undoes joining: pieces without spaces, joined by single
      spaces, split back into exactly those pieces. */
  lemma {:induction false} SplitJoinRoundTrip(pieces: seq<string>)
    requires pieces != []
    requires forall k :: 0 <= k < |pieces| ==> ' ' !in pieces[k]
    ensures SplitOnSpace(JoinWithSpace(pieces)) == pieces
  {
    if |pieces| == 1 {
      SplitWithoutSpace(pieces[0]);
    } else {
      SplitJoinRoundTrip(pieces[1..]);
      SplitAfterWord(pieces[0], JoinWithSpace(pieces[1..]));
      assert [pieces[0]] + pieces[1..] == pieces;
    }
  }

  // ---------------------------------------------------------------------
  // Trimming punctuation and white space from the ends of a token

  /** The regex class `[\p{P}\s]`. */
  predicate Trimmable(u: CharClasses, c: char)
  {
    u.isPunctuation(c) || u.isWhiteSpace(c)
  }

  /** The end of the run of punctuation and white space that starts at `i`. */
  function RunEnd(u: CharClasses, s: string, i: nat): (n: nat)
    requires i <= |s|
    ensures i <= n <= |s|
    ensures forall k :: i <= k < n ==> Trimmable(u, s[k])
    ensures n == |s| || !Trimmable(u, s[n])
    decreases |s| - i
  {
    if i < |s| && Trimmable(u, s[i]) then RunEnd(u, s, i + 1) else i
  }

  /** The start of the run of punctuation and white space that ends at `j`,
      not reaching below `lo`. */
  function RunStart(u: CharClasses, s: string, lo: nat, j: nat): (m: nat)
    requires lo <= j <= |s|
    ensures lo <= m <= j
    ensures forall k :: m <= k < j ==> Trimmable(u, s[k])
    ensures m == lo || !Trimmable(u, s[m - 1])
    decreases j
  {
    if lo < j && Trimmable(u, s[j - 1]) then RunStart(u, s, lo, j - 1) else j
  }

  /** The length of the leading run of punctuation and white space: the
      part `^[\p{P}\s]+` matches. */
  function LeadingRun(u: CharClasses, s: string): (n: nat)
    ensures n <= |s|
  {
    RunEnd(u, s, 0)
  }

  /** `Regex.Replace(token, "^[\\p{P}\\s]+|[\\p{P}\\s]+$", "")`: the token
      without its leading and trailing run of punctuation and white space.
      The result is the piece of the token between the two runs, and it
      neither starts nor ends with such a character. */
  function TrimPunctuation(u: CharClasses, s: string): (r: string)
    ensures r == [] || (!Trimmable(u, r[0]) && !Trimmable(u, r[|r| - 1]))
    ensures var i := LeadingRun(u, s);
      && i + |r| <= |s|
      && r == s[i..i + |r|]
      && (forall k :: 0 <= k < i ==> Trimmable(u, s[k]))
      && (forall k :: i + |r| <= k < |s| ==> Trimmable(u, s[k]))
  {
    var i := RunEnd(u, s, 0);
    var j := RunStart(u, s, i, |s|);
    s[i..j]
  }

  /** Trimming a trimmed token changes nothing. */
  lemma TrimPunctuationIdempotent(u: CharClasses, s: string)
    ensures TrimPunctuation(u, TrimPunctuation(u, s)) == TrimPunctuation(u, s)
  {
  }

  /** The loop at the end of the space-delimited branch: every reference
      token is trimmed in place. */
  method TrimReferenceWords(u: CharClasses, referenceWords: array<string>)
    modifies referenceWords
    ensures forall j :: 0 <= j < referenceWords.Length ==>
      referenceWords[j] == TrimPunctuation(u, old(referenceWords[j]))
  {
    for j := 0 to referenceWords.Length
      invariant forall k :: 0 <= k < j ==> referenceWords[k] == TrimPunctuation(u, old(referenceWords[k]))
      invariant forall k :: j <= k < referenceWords.Length ==> referenceWords[k] == old(referenceWords[k])
    {
      referenceWords[j] := TrimPunctuation(u, referenceWords[j]);
    }
  }

  /** The reference words of a space-delimited language: the lower-cased
      reference text split on ' ', each piece trimmed of its leading and
      trailing punctuation and white space. */
  method SpaceDelimitedReferenceWords(u: CharClasses, referenceText: string) returns (words: seq<string>)
    ensures |words| == |SplitOnSpace(ToLower(u, referenceText))|
    ensures forall j :: 0 <= j < |words| ==>
      words[j] == TrimPunctuation(u, SplitOnSpace(ToLower(u, referenceText))[j])
  {
    var pieces := SplitOnSpace(ToLower(u, referenceText));
    var referenceWords := new string[|pieces|](j requires 0 <= j < |pieces| => pieces[j]);
    TrimReferenceWords(u, referenceWords);
    words := referenceWords[..];
  }
}
