/**
 * app/llm.py: preparing the language model's streamed reply for speech.
 * clean_for_tts strips emoji and markdown from a sentence, extract_sentences
 * cuts complete sentences off a growing buffer and queues them for the
 * speech synthesiser, and stream_tokens filters the server-sent-event lines
 * of the chat-completion response (HTTP transport and JSON decoding are
 * parameters).
 */
module Llm {
  import opened Wrappers
  import opened Text
  import opened Config

  // -----------------------------------------------------------------------
  // clean_for_tts
  // -----------------------------------------------------------------------

  /** The markdown characters removed by the three `str.replace` calls. */
  predicate IsMarkup(c: char) {
    c == '*' || c == '#' || c == '`'
  }

  /** `EMOJI_PATTERN.sub('', text)`: every emoji-class character deleted. */
  function RemoveEmoji(s: string): (r: string)
    ensures forall i :: 0 <= i < |r| ==> !IsEmoji(r[i])
  {
    if s == [] then []
    else if IsEmoji(s[0]) then RemoveEmoji(s[1..])
    else [s[0]] + RemoveEmoji(s[1..])
  }

  /** The three `str.replace(c, '')` calls: every `*`, `#` and backtick deleted
      (they delete distinct characters, so one pass does the same). */
  function RemoveMarkup(s: string): (r: string)
    ensures forall i :: 0 <= i < |r| ==> !IsMarkup(r[i])
  {
    if s == [] then []
    else if IsMarkup(s[0]) then RemoveMarkup(s[1..])
    else [s[0]] + RemoveMarkup(s[1..])
  }

  /** clean_for_tts: delete EMOJI_PATTERN characters, then markdown
      characters, then strip surrounding whitespace. */
  function CleanForTts(text: string): (r: string)
    ensures r == [] || (!IsSpace(r[0]) && !IsSpace(r[|r| - 1]))
  {
    Strip(RemoveMarkup(RemoveEmoji(text)))
  }

  /** No emoji-class or markdown character survives cleaning. */
  lemma CleanForTtsRemovesAll(text: string)
    ensures forall i :: 0 <= i < |CleanForTts(text)| ==> !IsEmoji(CleanForTts(text)[i]) && !IsMarkup(CleanForTts(text)[i])
  {
    var plain := RemoveMarkup(RemoveEmoji(text));
    MarkupRemovalKeepsNoEmoji(RemoveEmoji(text));
    var r := Strip(plain);
    StripSlice(plain);
    assert forall i :: 0 <= i < |r| ==> r[i] == plain[StripFront(plain) + i];
  }

  lemma {:induction false} MarkupRemovalKeepsNoEmoji(s: string)
    requires forall i :: 0 <= i < |s| ==> !IsEmoji(s[i])
    ensures forall i :: 0 <= i < |RemoveMarkup(s)| ==> !IsEmoji(RemoveMarkup(s)[i])
  {
    if s != [] {
      MarkupRemovalKeepsNoEmoji(s[1..]);
    }
  }

  /** Deleting characters that do not occur changes nothing. */
  lemma {:induction false} RemoveNothing(s: string)
    requires forall i :: 0 <= i < |s| ==> !IsEmoji(s[i]) && !IsMarkup(s[i])
    ensures RemoveEmoji(s) == s && RemoveMarkup(s) == s
  {
    if s != [] {
      RemoveNothing(s[1..]);
    }
  }

  /** Cleaning an already clean text changes nothing. */
  lemma CleanForTtsIdempotent(text: string)
    ensures CleanForTts(CleanForTts(text)) == CleanForTts(text)
  {
    var r := CleanForTts(text);
    CleanForTtsRemovesAll(text);
    RemoveNothing(r);
  }

  /** Every character of `s` is one clean_for_tts deletes. */
  predicate AllRemovable(s: string) {
    forall i :: 0 <= i < |s| ==> IsEmoji(s[i]) || IsMarkup(s[i]) || IsSpace(s[i])
  }

  predicate AllMarkupOrSpace(s: string) {
    forall i :: 0 <= i < |s| ==> IsMarkup(s[i]) || IsSpace(s[i])
  }

  /** The cleaned text is empty exactly when the input holds nothing but
      emoji-class, markdown and whitespace characters; so a sentence made
      only of those is never spoken. */
  lemma CleanForTtsEmpty(text: string)
    ensures CleanForTts(text) == [] <==> AllRemovable(text)
  {
    RemoveEmojiAllSpace(text);
    RemoveMarkupAllSpace(RemoveEmoji(text));
    StripEmpty(RemoveMarkup(RemoveEmoji(text)));
  }

  lemma {:induction false} RemoveEmojiAllSpace(s: string)
    ensures AllMarkupOrSpace(RemoveEmoji(s)) <==> AllRemovable(s)
  {
    if s != [] {
      var t := RemoveEmoji(s[1..]);
      RemoveEmojiAllSpace(s[1..]);
      assert AllRemovable(s) <==> (IsEmoji(s[0]) || IsMarkup(s[0]) || IsSpace(s[0])) && AllRemovable(s[1..]) by {
        assert forall i :: 1 <= i < |s| ==> s[i] == s[1..][i - 1];
      }
      if IsEmoji(s[0]) {
        assert RemoveEmoji(s) == t;
      } else {
        var u := [s[0]] + t;
        assert RemoveEmoji(s) == u;
        assert forall i :: 1 <= i < |u| ==> u[i] == t[i - 1];
        assert forall j :: 0 <= j < |t| ==> t[j] == u[j + 1];
        assert AllMarkupOrSpace(u) <==> u[0] == s[0] && (IsMarkup(s[0]) || IsSpace(s[0])) && AllMarkupOrSpace(t);
      }
    } else {
      assert RemoveEmoji(s) == [];
    }
  }

  lemma {:induction false} RemoveMarkupAllSpace(s: string)
    ensures AllSpace(RemoveMarkup(s)) <==> AllMarkupOrSpace(s)
  {
    if s != [] {
      var t := RemoveMarkup(s[1..]);
      RemoveMarkupAllSpace(s[1..]);
      assert AllMarkupOrSpace(s) <==> (IsMarkup(s[0]) || IsSpace(s[0])) && AllMarkupOrSpace(s[1..]) by {
        assert forall i :: 1 <= i < |s| ==> s[i] == s[1..][i - 1];
      }
      if IsMarkup(s[0]) {
        assert RemoveMarkup(s) == t;
      } else {
        var u := [s[0]] + t;
        assert RemoveMarkup(s) == u;
        assert forall i :: 1 <= i < |u| ==> u[i] == t[i - 1];
        assert forall j :: 0 <= j < |t| ==> t[j] == u[j + 1];
        assert AllSpace(u) <==> u[0] == s[0] && IsSpace(s[0]) && AllSpace(t);
      }
    } else {
      assert RemoveMarkup(s) == [];
    }
  }

  // -----------------------------------------------------------------------
  // extract_sentences
  // -----------------------------------------------------------------------

  /** What sentences_queue carries: a sentence for the synthesiser, or the
      `None` sentinel that ends the stream. */
  datatype Item = Sentence(text: string) | EndOfStream

  /** The asyncio.Queue between the reply producer and the synthesiser; only
      its producer side is modelled, so it is the list of items put so far. */
  class SentenceQueue {
    var items: seq<Item>

    constructor ()
      ensures items == []
    {
      items := [];
    }

    /** `queue.put_nowait(item)`. */
    method PutNowait(it: Item)
      modifies this
      ensures items == old(items) + [it]
    {
      items := items + [it];
    }
  }

  /** The cut of a buffer into its complete sentences (each raw piece
      `buffer[:end_pos]`, in textual order) and the unfinished remainder. */
  datatype Cut = Cut(pieces: seq<string>, rest: string)

  function CutSentences(buffer: string): Cut
    decreases |buffer|
  {
    match FindSentenceEnd(buffer, 0)
    case None => Cut([], buffer)
    case Some(m) =>
      var c := CutSentences(buffer[m.end..]);
      Cut([buffer[..m.end]] + c.pieces, c.rest)
  }

  function Concat(pieces: seq<string>): string {
    if pieces == [] then "" else pieces[0] + Concat(pieces[1..])
  }

  /** The queue items produced by a sequence of raw pieces: each one stripped
      and cleaned, the empty ones dropped. */
  function Queued(pieces: seq<string>): (q: seq<Item>)
    ensures forall it :: it in q ==> it.Sentence? && it.text != []
    ensures |q| <= |pieces|
  {
    if pieces == [] then []
    else
      var clean := CleanForTts(Strip(pieces[0]));
      var tail := Queued(pieces[1..]);
      if clean != [] then [Sentence(clean)] + tail else tail
  }

  /** extract_sentences: repeatedly cut the buffer at the leftmost
      SENTENCE_END match, queue each cleaned non-empty piece, and return the
      unmatched tail. */
  method ExtractSentences(buffer: string, queue: SentenceQueue) returns (rest: string)
    modifies queue
    ensures rest == CutSentences(buffer).rest
    ensures queue.items == old(queue.items) + Queued(CutSentences(buffer).pieces)
  {
    var buf := buffer;
    ghost var done: seq<string> := [];
    while true
      invariant CutSentences(buffer).pieces == done + CutSentences(buf).pieces
      invariant CutSentences(buffer).rest == CutSentences(buf).rest
      invariant queue.items == old(queue.items) + Queued(done)
      decreases |buf|
    {
      var match_ := FindSentenceEnd(buf, 0);
      if match_.None? {
        assert CutSentences(buf) == Cut([], buf);
        assert done + [] == done;
        break;
      }
      var endPos := match_.value.end;
      var piece := buf[..endPos];
      CutSentencesStep(buf);
      buf := buf[endPos..];
      QueuePiece(piece, queue);
      QueuedAppend(done, [piece]);
      AppendAssoc(old(queue.items), Queued(done), Queued([piece]));
      AppendAssoc(done, [piece], CutSentences(buf).pieces);
      done := done + [piece];
    }
    rest := buf;
  }

  lemma AppendAssoc<T>(a: seq<T>, b: seq<T>, c: seq<T>)
    ensures (a + b) + c == a + (b + c)
  {
  }

  /** One round of the loop: the first piece is cut off, the rest is cut the same way. */
  lemma CutSentencesStep(buf: string)
    requires FindSentenceEnd(buf, 0).Some?
    ensures CutSentences(buf).pieces == [buf[..FindSentenceEnd(buf, 0).value.end]] + CutSentences(buf[FindSentenceEnd(buf, 0).value.end..]).pieces
    ensures CutSentences(buf).rest == CutSentences(buf[FindSentenceEnd(buf, 0).value.end..]).rest
  {
  }

  /** The body of the loop for one piece: strip it, clean it, and queue it
      unless nothing is left. */
  method QueuePiece(piece: string, queue: SentenceQueue)
    modifies queue
    ensures queue.items == old(queue.items) + Queued([piece])
  {
    var sentence := Strip(piece);
    var clean := CleanForTts(sentence);
    QueuedOne(piece);
    if clean != [] {
      queue.PutNowait(Sentence(clean));
    }
  }

  lemma QueuedOne(piece: string)
    ensures Queued([piece]) == if CleanForTts(Strip(piece)) != [] then [Sentence(CleanForTts(Strip(piece)))] else []
  {
    assert [piece][1..] == [];
  }

  lemma {:induction false} QueuedAppend(a: seq<string>, b: seq<string>)
    ensures Queued(a + b) == Queued(a) + Queued(b)
  {
    if a == [] {
      assert a + b == b;
    } else {
      assert (a + b)[0] == a[0];
      assert (a + b)[1..] == a[1..] + b;
      QueuedAppend(a[1..], b);
    }
  }

  lemma {:induction false} ConcatAppend(a: seq<string>, b: seq<string>)
    ensures Concat(a + b) == Concat(a) + Concat(b)
  {
    if a == [] {
      assert a + b == b;
    } else {
      assert (a + b)[0] == a[0];
      assert (a + b)[1..] == a[1..] + b;
      ConcatAppend(a[1..], b);
    }
  }

  /** Nothing is lost or reordered: the raw pieces followed by the remainder
      spell out the buffer. */
  lemma {:induction false} CutSentencesConcat(buffer: string)
    ensures Concat(CutSentences(buffer).pieces) + CutSentences(buffer).rest == buffer
    decreases |buffer|
  {
    match FindSentenceEnd(buffer, 0)
    case None =>
    case Some(m) =>
      CutSentencesConcat(buffer[m.end..]);
      assert buffer == buffer[..m.end] + buffer[m.end..];
  }

  /** The remainder holds no SENTENCE_END match: the loop stops only when
      the search fails. */
  lemma {:induction false} CutSentencesRest(buffer: string)
    ensures !HasSentenceEnd(CutSentences(buffer).rest)
    decreases |buffer|
  {
    match FindSentenceEnd(buffer, 0)
    case None =>
    case Some(m) =>
      CutSentencesRest(buffer[m.end..]);
  }

  /** Every raw piece ends exactly where the first SENTENCE_END match inside
      it ends: in a sentence mark and whitespace, or in a newline. */
  lemma {:induction false} CutSentencesPieces(buffer: string)
    ensures forall k :: 0 <= k < |CutSentences(buffer).pieces| ==> EndsSentence(CutSentences(buffer).pieces[k])
    decreases |buffer|
  {
    match FindSentenceEnd(buffer, 0)
    case None =>
    case Some(m) =>
      CutSentencesPieces(buffer[m.end..]);
      FirstMatchPrefix(buffer, m);
  }

  /** `SENTENCE_END.search(p)` finds a match, and it ends where `p` ends. */
  predicate EndsSentence(p: string) {
    FindSentenceEnd(p, 0).Some? && FindSentenceEnd(p, 0).value.end == |p|
  }

  /** The prefix that ends with the leftmost match has that match as its own
      leftmost one. */
  lemma FirstMatchPrefix(s: string, m: Match)
    requires FindSentenceEnd(s, 0) == Some(m)
    ensures EndsSentence(s[..m.end])
  {
    var p := s[..m.end];
    MatchAtPrefix(s, m.start, m.end);
    forall q | 0 <= q < m.start
      ensures MatchAt(p, q).None?
    {
      NoMatchInPrefix(s, q, m.end);
    }
  }

  /** A position with no match has none in any prefix either. */
  lemma NoMatchInPrefix(s: string, q: nat, e: nat)
    requires MatchAt(s, q).None? && e <= |s|
    ensures MatchAt(s[..e], q).None?
  {
    if q + 1 < e {
      assert s[..e][q] == s[q] && s[..e][q + 1] == s[q + 1];
    } else if q < e {
      assert s[..e][q] == s[q];
    }
  }

  /** A match stays a match, with the same end, in the prefix it ends. */
  lemma MatchAtPrefix(s: string, start: nat, end: nat)
    requires MatchAt(s, start) == Some(end)
    ensures MatchAt(s[..end], start) == Some(end)
  {
    var p := s[..end];
    MatchAtShape(s, start);
    if s[start] != '\n' {
      assert p[start + 1..] == s[start + 1..end];
      SpaceLenAllSpace(p[start + 1..]);
    }
  }

  lemma {:induction false} SpaceLenAllSpace(s: string)
    requires AllSpace(s)
    ensures SpaceLen(s) == |s|
  {
    if s != [] {
      SpaceLenAllSpace(s[1..]);
    }
  }

  /** Every queued item is a non-empty sentence already in cleaned form. */
  lemma {:induction false} QueuedAreClean(pieces: seq<string>)
    ensures forall it :: it in Queued(pieces) ==> it.Sentence? && it.text != [] && CleanForTts(it.text) == it.text
  {
    if pieces == [] {
      assert Queued(pieces) == [];
    } else {
      var clean := CleanForTts(Strip(pieces[0]));
      CleanForTtsIdempotent(Strip(pieces[0]));
      QueuedAreClean(pieces[1..]);
      if clean != [] {
        assert Queued(pieces) == [Sentence(clean)] + Queued(pieces[1..]);
      } else {
        assert Queued(pieces) == Queued(pieces[1..]);
      }
    }
  }

  // -----------------------------------------------------------------------
  // stream_tokens: the `data:` line filter
  // -----------------------------------------------------------------------

  const DataPrefix: string := "data: "
  const DoneLine: string := "data: [DONE]"

  /** What parsing a `data:` payload gives: `json.loads` followed by the
      lookup of `choices[0].delta.content`. `Content` holds the content
      (empty when the delta or the content is missing); `Skipped` is a
      JSONDecodeError, KeyError or IndexError, which the per-line handler
      catches; `Raised` is any other exception, such as the TypeError or
      AttributeError of a payload that is valid JSON of another shape,
      which escapes to the handler around the whole stream and ends it. */
  datatype Decoded = Content(text: string) | Skipped | Raised

  /** A line after which nothing more is yielded: the end marker, or a
      payload whose parsing raises an exception the line handler does not
      catch. */
  predicate EndsStream(line: string, decode: string -> Decoded) {
    line == DoneLine || (StartsWith(line, DataPrefix) && decode(line[|DataPrefix|..]).Raised?)
  }

  /** The tokens a list of response lines yields: lines that do not start
      with "data: " are skipped, the first line that ends the stream ends
      it, and any other payload yields its content when that is non-empty.
      `decode` stands for json.loads and the lookups. */
  function DataTokens(lines: seq<string>, decode: string -> Decoded): (tokens: seq<string>)
    ensures forall k :: 0 <= k < |tokens| ==> tokens[k] != []
  {
    if lines == [] then []
    else
      var line := lines[0];
      if !StartsWith(line, DataPrefix) then DataTokens(lines[1..], decode)
      else if EndsStream(line, decode) then []
      else Payload(line, decode) + DataTokens(lines[1..], decode)
  }

  /** The token one `data:` line carries, if any. */
  function Payload(line: string, decode: string -> Decoded): (p: seq<string>)
    requires StartsWith(line, DataPrefix)
    ensures |p| <= 1 && forall k :: 0 <= k < |p| ==> p[k] != []
  {
    match decode(line[|DataPrefix|..])
    case Content(content) => if content != [] then [content] else []
    case Skipped => []
    case Raised => []
  }

  /** One line of the filter. */
  lemma DataTokensStep(lines: seq<string>, i: nat, n: nat, decode: string -> Decoded)
    requires i < n <= |lines|
    ensures !StartsWith(lines[i], DataPrefix) ==> DataTokens(lines[i..n], decode) == DataTokens(lines[i + 1..n], decode)
    ensures StartsWith(lines[i], DataPrefix) && EndsStream(lines[i], decode) ==> DataTokens(lines[i..n], decode) == []
    ensures StartsWith(lines[i], DataPrefix) && !EndsStream(lines[i], decode) ==>
      DataTokens(lines[i..n], decode) == Payload(lines[i], decode) + DataTokens(lines[i + 1..n], decode)
  {
    assert lines[i..n][0] == lines[i];
    assert lines[i..n][1..] == lines[i + 1..n];
  }

  /** stream_tokens, once the response is open: a non-200 status yields
      nothing; otherwise the lines are filtered until the cancel event,
      which is seen set from line `cancelFrom` on, the end marker, or an
      exception that escapes the line handler. */
  method StreamTokens(status: int, lines: seq<string>, cancelFrom: nat, decode: string -> Decoded)
    returns (tokens: seq<string>)
    ensures status != 200 ==> tokens == []
    ensures status == 200 ==> tokens == DataTokens(lines[..if cancelFrom < |lines| then cancelFrom else |lines|], decode)
  {
    tokens := [];
    if status != 200 {
      return;
    }
    var n := if cancelFrom < |lines| then cancelFrom else |lines|;
    var i := 0;
    while i < |lines|
      invariant 0 <= i <= n
      invariant tokens + DataTokens(lines[i..n], decode) == DataTokens(lines[..n], decode)
    {
      if i >= cancelFrom {
        break;
      }
      var line := lines[i];
      DataTokensStep(lines, i, n, decode);
      if !StartsWith(line, DataPrefix) {
        i := i + 1;
        continue;
      }
      if line == DoneLine {
        break;
      }
      var chunk := decode(line[|DataPrefix|..]);
      if chunk.Raised? {
        break;
      }
      var got := if chunk.Content? && chunk.text != [] then [chunk.text] else [];
      assert got == Payload(line, decode);
      AppendAssoc(tokens, got, DataTokens(lines[i + 1..n], decode));
      tokens := tokens + got;
      i := i + 1;
    }
    assert i < n ==> EndsStream(lines[i], decode) || i >= cancelFrom;
  }

  /** Lines before the end of the stream contribute independently of what
      follows. */
  lemma {:induction false} DataTokensAppend(a: seq<string>, b: seq<string>, decode: string -> Decoded)
    requires forall k :: 0 <= k < |a| ==> !EndsStream(a[k], decode)
    ensures DataTokens(a + b, decode) == DataTokens(a, decode) + DataTokens(b, decode)
  {
    if a == [] {
      assert a + b == b;
    } else {
      assert (a + b)[0] == a[0];
      assert (a + b)[1..] == a[1..] + b;
      DataTokensAppend(a[1..], b, decode);
    }
  }

  /** Nothing after the first "data: [DONE]", or after the first payload
      whose exception escapes the line handler, is ever yielded. */
  lemma DataTokensStopAtEnd(a: seq<string>, line: string, b: seq<string>, decode: string -> Decoded)
    requires forall k :: 0 <= k < |a| ==> !EndsStream(a[k], decode)
    requires EndsStream(line, decode)
    ensures DataTokens(a + [line] + b, decode) == DataTokens(a, decode)
  {
    DataTokensAppend(a, [line] + b, decode);
    assert a + [line] + b == a + ([line] + b);
    assert ([line] + b)[0] == line;
  }

  /** A line without the "data: " prefix yields nothing, wherever it is. */
  lemma DataTokensSkipsOtherLines(a: seq<string>, line: string, b: seq<string>, decode: string -> Decoded)
    requires forall k :: 0 <= k < |a| ==> !EndsStream(a[k], decode)
    requires !StartsWith(line, DataPrefix)
    ensures DataTokens(a + [line] + b, decode) == DataTokens(a + b, decode)
  {
    DataTokensAppend(a, [line] + b, decode);
    DataTokensAppend(a, b, decode);
    assert a + [line] + b == a + ([line] + b);
  }
}
