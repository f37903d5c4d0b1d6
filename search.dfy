/**
 * The two transcript helpers the pipeline uses before a web search:
 * clean_for_search (drop filler words, fall back to the stripped transcript
 * when too little is left) and query_similarity (word-set overlap between
 * a speculative and a final query).
 */
module Search {
  import opened Text

  /** FILLER_WORDS: the words (and a few phrases) that never make a search
      query better. */
  const FillerWords: set<string> := {
    "hmm", "hm", "um", "uh", "ah", "okay", "ok", "like", "yeah", "yes", "no",
    "right", "so", "well", "actually", "basically", "you know", "i mean",
    "let me think", "wait", "hold on", "alla", "adu", "ennu", "aanu",
    "hmm.", "okay.", "yeah.", "yes.", "no.", "super", "super."
  }

  /** The entries of FILLER_WORDS that contain a space. */
  const MultiWordFillers: set<string> := {"you know", "i mean", "let me think", "hold on"}

  /** The characters `strip('.,!?')` removes. */
  const QueryPunctuation: set<char> := {'.', ',', '!', '?'}

  /** The filter test of clean_for_search: lower-cased and stripped of
      surrounding `.,!?`, the word is one of `fillers`. */
  predicate IsFiller(w: string, fillers: set<string>) {
    StripChars(Lower(w), QueryPunctuation) in fillers
  }

  /** The words clean_for_search keeps: every non-filler, in order. */
  function KeptWords(ws: seq<string>, fillers: set<string>): (kept: seq<string>)
    ensures |kept| <= |ws|
  {
    if ws == [] then []
    else if IsFiller(ws[0], fillers) then KeptWords(ws[1..], fillers)
    else [ws[0]] + KeptWords(ws[1..], fillers)
  }

  /** What clean_for_search returns. */
  function CleanedQuery(transcript: string): string {
    var result := Strip(Join(KeptWords(Words(transcript), FillerWords)));
    if |result| < 5 then Strip(transcript) else result
  }

  /** clean_for_search: split the transcript, keep the non-filler words,
      join them, and fall back to the stripped transcript when fewer than 5
      characters are left. */
  method CleanForSearch(transcript: string) returns (r: string)
    ensures r == CleanedQuery(transcript)
  {
    var cleaned := KeepNonFillers(Words(transcript), FillerWords);
    var result := Strip(Join(cleaned));
    if |result| < 5 {
      return Strip(transcript);
    }
    return result;
  }

  /** The filter loop of clean_for_search: each word that is not a filler
      is appended to the list `cleaned`. */
  method KeepNonFillers(words: seq<string>, fillers: set<string>) returns (cleaned: seq<string>)
    ensures cleaned == KeptWords(words, fillers)
  {
    cleaned := [];
    for i := 0 to |words|
      invariant cleaned == KeptWords(words[..i], fillers)
    {
      var w := words[i];
      KeptWordsAppend(words[..i], [w], fillers);
      KeptWordsOne(w, fillers);
      assert words[..i + 1] == words[..i] + [w];
      if IsFiller(w, fillers) {
        continue;
      }
      cleaned := cleaned + [w];
    }
    assert words[..|words|] == words;
  }

  lemma KeptWordsOne(w: string, fillers: set<string>)
    ensures KeptWords([w], fillers) == if IsFiller(w, fillers) then [] else [w]
  {
    assert [w][1..] == [];
  }

  lemma {:induction false} KeptWordsAppend(a: seq<string>, b: seq<string>, fillers: set<string>)
    ensures KeptWords(a + b, fillers) == KeptWords(a, fillers) + KeptWords(b, fillers)
  {
    if a == [] {
      assert a + b == b;
    } else {
      assert (a + b)[0] == a[0];
      assert (a + b)[1..] == a[1..] + b;
      KeptWordsAppend(a[1..], b, fillers);
    }
  }

  /** A word is kept exactly when it is not a filler; the kept words keep
      their order because the filter distributes over concatenation. */
  lemma {:induction false} KeptWordsMembers(ws: seq<string>, fillers: set<string>)
    ensures forall w :: w in KeptWords(ws, fillers) <==> w in ws && !IsFiller(w, fillers)
  {
    if ws != [] {
      KeptWordsMembers(ws[1..], fillers);
      assert ws == [ws[0]] + ws[1..];
    }
  }

  lemma {:induction false} KeptWordsAreWords(ws: seq<string>, fillers: set<string>)
    requires forall k :: 0 <= k < |ws| ==> IsWord(ws[k])
    ensures forall k :: 0 <= k < |KeptWords(ws, fillers)| ==> IsWord(KeptWords(ws, fillers)[k])
  {
    if ws != [] {
      KeptWordsAreWords(ws[1..], fillers);
    }
  }

  /** What clean_for_search returns: the stripped transcript when the kept
      words join to fewer than 5 characters, and otherwise the kept words
      joined by single spaces, which is then at least 5 characters long and
      has no leading, trailing or doubled whitespace. */
  lemma CleanedQueryCases(transcript: string)
    ensures var joined := Join(KeptWords(Words(transcript), FillerWords));
      && (|joined| < 5 ==> CleanedQuery(transcript) == Strip(transcript))
      && (|joined| >= 5 ==> CleanedQuery(transcript) == joined && Normalized(joined))
  {
    var kept := KeptWords(Words(transcript), FillerWords);
    KeptWordsAreWords(Words(transcript), FillerWords);
    JoinNormalized(kept);
    StripNormalized(Join(kept));
  }

  /** The multi-word entries of FILLER_WORDS never cause a drop: what the
      filter compares is a split word, which has no whitespace. */
  lemma MultiWordFillersNeverMatch(w: string)
    requires IsWord(w)
    ensures IsFiller(w, FillerWords) <==> IsFiller(w, FillerWords - MultiWordFillers)
  {
    var s := StripChars(Lower(w), QueryPunctuation);
    StripCharsNoSpace(Lower(w), QueryPunctuation);
    NoSpaceNotMultiWord(s);
  }

  lemma NoSpaceNotMultiWord(s: string)
    requires forall i :: 0 <= i < |s| ==> !IsSpace(s[i])
    ensures s !in MultiWordFillers
  {
    assert "you know"[3] == ' ';
    assert "i mean"[1] == ' ';
    assert "let me think"[3] == ' ';
    assert "hold on"[4] == ' ';
  }

  /** Stripping characters from the ends adds no whitespace. */
  lemma {:induction false} StripCharsNoSpace(s: string, chars: set<char>)
    requires forall i :: 0 <= i < |s| ==> !IsSpace(s[i])
    ensures forall i :: 0 <= i < |StripChars(s, chars)| ==> !IsSpace(StripChars(s, chars)[i])
    decreases |s|
  {
    if s != [] && s[0] in chars {
      StripCharsNoSpace(s[1..], chars);
    } else if s != [] && s[|s| - 1] in chars {
      StripCharsNoSpace(s[..|s| - 1], chars);
    }
  }

  // -----------------------------------------------------------------------
  // query_similarity
  // -----------------------------------------------------------------------

  /** `set(q.lower().split())`. */
  function WordSet(q: string): set<string> {
    set w | w in Words(Lower(q))
  }

  function Max(a: nat, b: nat): nat {
    if a >= b then a else b
  }

  /** A fraction `num / den`; query_similarity's float is one of these,
      computed exactly. */
  datatype Ratio = Ratio(num: nat, den: nat)

  /** The pipeline's reuse test `similarity >= 0.4`, by cross-multiplication. */
  predicate AtLeastTwoFifths(r: Ratio) {
    5 * r.num >= 2 * r.den
  }

  /** query_similarity: the size of the common word set over the size of
      the larger one, or 0 when either query has no words. */
  function QuerySimilarity(q1: string, q2: string): Ratio {
    var w1 := WordSet(q1);
    var w2 := WordSet(q2);
    if w1 == {} || w2 == {} then Ratio(0, 1)
    else Ratio(|w1 * w2|, Max(|w1|, |w2|))
  }

  /** The ratio is a well-formed fraction between 0 and 1, and is 0 when
      either query has no words. */
  lemma SimilarityRange(q1: string, q2: string)
    ensures var r := QuerySimilarity(q1, q2); r.den > 0 && r.num <= r.den
    ensures WordSet(q1) == {} || WordSet(q2) == {} ==> QuerySimilarity(q1, q2).num == 0
  {
    var w1, w2 := WordSet(q1), WordSet(q2);
    if w1 != {} && w2 != {} {
      SubsetCard(w1 * w2, w1);
      SubsetCard(w1 * w2, w2);
    }
  }

  lemma SimilaritySymmetric(q1: string, q2: string)
    ensures QuerySimilarity(q1, q2) == QuerySimilarity(q2, q1)
  {
    assert WordSet(q1) * WordSet(q2) == WordSet(q2) * WordSet(q1);
  }

  /** The similarity is 1 exactly when both queries have the same, non-empty,
      lower-case word set. */
  lemma SimilarityOne(q1: string, q2: string)
    ensures var r := QuerySimilarity(q1, q2);
      r.num == r.den <==> WordSet(q1) == WordSet(q2) && WordSet(q1) != {}
  {
    var w1, w2 := WordSet(q1), WordSet(q2);
    if w1 != {} && w2 != {} {
      var c := w1 * w2;
      SubsetCard(c, w1);
      SubsetCard(c, w2);
      if |c| == Max(|w1|, |w2|) {
        SubsetSameCard(c, w1);
        SubsetSameCard(c, w2);
      }
      if w1 == w2 {
        assert c == w1;
      }
    }
  }

  /** Speculative results are reused only when the two queries share a word,
      and always when their word sets are equal. */
  lemma SimilarityThreshold(q1: string, q2: string)
    ensures AtLeastTwoFifths(QuerySimilarity(q1, q2)) ==> WordSet(q1) * WordSet(q2) != {}
    ensures WordSet(q1) == WordSet(q2) && WordSet(q1) != {} ==> AtLeastTwoFifths(QuerySimilarity(q1, q2))
  {
    SimilarityOne(q1, q2);
  }

  /** Case does not matter: lower-casing a query first changes nothing. */
  lemma SimilarityIgnoresCase(q1: string, q2: string)
    ensures QuerySimilarity(Lower(q1), q2) == QuerySimilarity(q1, q2)
  {
    LowerLower(q1);
  }

  /** Word order does not matter. */
  lemma SimilarityIgnoresOrder(a: string, b: string, q: string)
    ensures QuerySimilarity(a + " " + b, q) == QuerySimilarity(b + " " + a, q)
  {
    WordSetAroundSpace(a, b);
    WordSetAroundSpace(b, a);
    assert WordSet(a) + WordSet(b) == WordSet(b) + WordSet(a);
    SameWordSets(a + " " + b, b + " " + a, q);
  }

  /** Repeated words do not matter. */
  lemma SimilarityIgnoresRepeats(a: string, q: string)
    ensures QuerySimilarity(a + " " + a, q) == QuerySimilarity(a, q)
  {
    WordSetAroundSpace(a, a);
    assert WordSet(a) + WordSet(a) == WordSet(a);
    SameWordSets(a + " " + a, a, q);
  }

  /** The similarity depends on a query only through its word set. */
  lemma SameWordSets(x: string, y: string, q: string)
    requires WordSet(x) == WordSet(y)
    ensures QuerySimilarity(x, q) == QuerySimilarity(y, q)
  {
  }

  lemma WordSetAroundSpace(a: string, b: string)
    ensures WordSet(a + " " + b) == WordSet(a) + WordSet(b)
  {
    LowerAppend(a + " ", b);
    LowerAppend(a, " ");
    assert Lower(" ") == " ";
    WordsAroundSpace(Lower(a), Lower(b));
    assert Lower(a + " " + b) == Lower(a) + " " + Lower(b);
  }

  lemma {:induction false} SubsetCard<T>(a: set<T>, b: set<T>)
    requires a <= b
    ensures |a| <= |b|
    decreases |b|
  {
    if a != {} {
      var x :| x in a;
      SubsetCard(a - {x}, b - {x});
    }
  }

  lemma {:induction false} SubsetSameCard<T>(a: set<T>, b: set<T>)
    requires a <= b && |a| == |b|
    ensures a == b
    decreases |b|
  {
    if a != {} {
      var x :| x in a;
      SubsetSameCard(a - {x}, b - {x});
      assert a == (a - {x}) + {x};
      assert b == (b - {x}) + {x};
    }
  }
}
