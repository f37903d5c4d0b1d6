/**
 * app/pipeline.py: one user turn. The first LLM reply is streamed token by
 * token through a classifier that decides whether it is a search command
 * (`[SEARCH: ...]`) or a normal spoken reply; a normal reply is cut into
 * sentences for text-to-speech as it arrives, a search command triggers a
 * web search and a second, spoken LLM reply. Around it, `run` keeps the
 * shared conversation history and sends the browser its status messages.
 */
module Pipeline {
  import opened Wrappers
  import opened Text
  import opened Config
  import opened Llm
  import opened Search
  import opened Wire

  // -----------------------------------------------------------------------
  // The token classifier of llm_producer
  // -----------------------------------------------------------------------

  /** The marker whose appearance makes the reply a search command. */
  const SearchTag: string := "[SEARCH:"

  /** The nonlocal state of llm_producer: `full_response`,
      `sentence_buffer`, `is_search` and whether `search_detected` is set. */
  datatype Classifier = Classifier(fullResponse: string, sentenceBuffer: string, isSearch: bool, searchDetected: bool)

  /** The state after one token, and the raw sentence pieces cut from the
      buffer at that token (queued, cleaned, by extract_sentences). */
  datatype StepOut = StepOut(next: Classifier, cut: seq<string>)

  /** The state run's producer starts in: nothing received, undecided. */
  const Undecided: Classifier := Classifier("", "", false, false)

  /** The state _search_llm_tts's producer works in throughout: it never
      classifies and feeds every token to the sentence buffer. */
  const Spoken: Classifier := Classifier("", "", false, true)

  /** The reply is long enough, or has a sentence end, to be classified as
      a normal reply. */
  predicate Decides(full: string) {
    |full| > 80 || HasSentenceEnd(full)
  }

  /** One iteration of llm_producer's `async for` body. */
  function Step(c: Classifier, content: string): StepOut {
    var full := c.fullResponse + content;
    if !c.searchDetected && Contains(full, SearchTag) then
      StepOut(Classifier(full, c.sentenceBuffer, true, true), [])
    else if !c.searchDetected && Decides(full) then
      var cut := CutSentences(full);
      StepOut(Classifier(full, cut.rest, false, true), cut.pieces)
    else if c.searchDetected && !c.isSearch then
      var cut := CutSentences(c.sentenceBuffer + content);
      StepOut(Classifier(full, cut.rest, false, true), cut.pieces)
    else
      StepOut(c.(fullResponse := full), [])
  }

  /** The state after a whole token stream, and every raw piece cut on the
      way, in order. */
  function Feed(start: Classifier, tokens: seq<string>): StepOut
    decreases |tokens|
  {
    if tokens == [] then StepOut(start, [])
    else
      var before := Feed(start, tokens[..|tokens| - 1]);
      var step := Step(before.next, tokens[|tokens| - 1]);
      StepOut(step.next, before.cut + step.cut)
  }

  /** What the producer's `finally` block queues: the stripped, cleaned
      remainder of the sentence buffer when there is one and the reply is
      not a search command, then the end-of-stream sentinel `None`. */
  function FinalItems(c: Classifier): seq<Item> {
    (if c.isSearch then [] else Queued([c.sentenceBuffer])) + [EndOfStream]
  }

  /** The sentence buffer is only used by a normal reply. */
  predicate Coherent(c: Classifier) {
    && (!c.searchDetected ==> !c.isSearch && c.sentenceBuffer == "")
    && (c.isSearch ==> c.sentenceBuffer == "")
  }

  /** A normal reply is accounted for exactly once: the pieces cut so far,
      followed by the buffer, spell out the whole reply; nothing is cut from
      any other reply. */
  predicate Accounted(c: Classifier, cut: seq<string>) {
    if c.searchDetected && !c.isSearch then Concat(cut) + c.sentenceBuffer == c.fullResponse
    else cut == []
  }

  /** Once search_detected is set, is_search never changes again. */
  lemma {:induction false} DecisionIsFinal(start: Classifier, a: seq<string>, b: seq<string>)
    requires Feed(start, a).next.searchDetected
    ensures Feed(start, a + b).next.searchDetected
    ensures Feed(start, a + b).next.isSearch == Feed(start, a).next.isSearch
    decreases |b|
  {
    if b == [] {
      assert a + b == a;
    } else {
      var b' := b[..|b| - 1];
      assert (a + b)[..|a + b| - 1] == a + b';
      DecisionIsFinal(start, a, b');
    }
  }

  /** `[SEARCH:` takes precedence over the length and sentence-end rule at
      the same token, and nothing is queued for speech then. */
  lemma SearchTakesPrecedence(c: Classifier, content: string)
    requires !c.searchDetected && Contains(c.fullResponse + content, SearchTag)
    ensures Step(c, content).next.isSearch && Step(c, content).next.searchDetected
    ensures Step(c, content).cut == []
  {
  }

  /** A stream stays unclassified only while the reply has no `[SEARCH:`,
      at most 80 characters and no sentence end. */
  lemma UndecidedMeans(tokens: seq<string>)
    requires !Feed(Undecided, tokens).next.searchDetected
    ensures var full := Feed(Undecided, tokens).next.fullResponse;
      !Contains(full, SearchTag) && !Decides(full)
  {
    if tokens == [] {
      assert !HasSentenceEnd("") by {
        assert MatchAt("", 0).None?;
      }
    }
  }

  /** Feeding one more token is one more Step. */
  lemma FeedSnoc(start: Classifier, a: seq<string>, t: string)
    ensures Feed(start, a + [t]) == StepOut(Step(Feed(start, a).next, t).next, Feed(start, a).cut + Step(Feed(start, a).next, t).cut)
  {
    assert (a + [t])[..|a + [t]| - 1] == a;
  }

  /** One token keeps the classifier coherent and the reply accounted for. */
  lemma StepAccounts(c: Classifier, cut: seq<string>, t: string)
    requires Coherent(c) && Accounted(c, cut)
    ensures Coherent(Step(c, t).next)
    ensures Accounted(Step(c, t).next, cut + Step(c, t).cut)
    ensures Step(c, t).next.fullResponse == c.fullResponse + t
  {
    var step := Step(c, t);
    if !c.searchDetected && Contains(c.fullResponse + t, SearchTag) {
    } else if !c.searchDetected && Decides(c.fullResponse + t) {
      CutSentencesConcat(c.fullResponse + t);
      assert cut + step.cut == step.cut;
    } else if c.searchDetected && !c.isSearch {
      var pieces := CutSentences(c.sentenceBuffer + t).pieces;
      var rest := CutSentences(c.sentenceBuffer + t).rest;
      CutSentencesConcat(c.sentenceBuffer + t);
      ConcatAppend(cut, pieces);
      AppendAssoc(Concat(cut), Concat(pieces), rest);
      AppendAssoc(Concat(cut), c.sentenceBuffer, t);
    }
  }

  /** The classifier state stays coherent, the reply is the concatenation
      of the tokens, and a normal reply is accounted for exactly once:
      seeding the buffer with the whole reply at classification does not
      add the classifying token a second time. */
  lemma {:induction false} FeedAccounts(start: Classifier, tokens: seq<string>)
    requires Coherent(start) && Accounted(start, [])
    ensures Coherent(Feed(start, tokens).next)
    ensures Accounted(Feed(start, tokens).next, Feed(start, tokens).cut)
    ensures Feed(start, tokens).next.fullResponse == start.fullResponse + Concat(tokens)
    decreases |tokens|
  {
    if tokens != [] {
      var init, t := tokens[..|tokens| - 1], tokens[|tokens| - 1];
      assert tokens == init + [t];
      FeedAccounts(start, init);
      FeedSnoc(start, init, t);
      var before := Feed(start, init);
      StepAccounts(before.next, before.cut, t);
      ConcatAppend(init, [t]);
      assert Concat([t]) == t;
    }
  }

  /** The end of the stream queues exactly one sentinel, last; before
      classification or on a search command nothing else. */
  lemma FinalItemsShape(c: Classifier)
    requires Coherent(c)
    ensures |FinalItems(c)| >= 1 && FinalItems(c)[|FinalItems(c)| - 1] == EndOfStream
    ensures forall k :: 0 <= k < |FinalItems(c)| - 1 ==> FinalItems(c)[k].Sentence?
    ensures !c.searchDetected || c.isSearch ==> FinalItems(c) == [EndOfStream]
  {
    var q := if c.isSearch then [] else Queued([c.sentenceBuffer]);
    assert FinalItems(c) == q + [EndOfStream];
    assert forall k :: 0 <= k < |q| ==> q[k] in q;
    if !c.searchDetected {
      QueuedOne("");
      assert Strip("") == "";
      assert CleanForTts("") == "";
    }
  }

  /** Every piece one token cuts ends at its first sentence end. */
  lemma StepCutsSentences(c: Classifier, t: string)
    ensures forall k :: 0 <= k < |Step(c, t).cut| ==> EndsSentence(Step(c, t).cut[k])
  {
    CutSentencesPieces(c.fullResponse + t);
    CutSentencesPieces(c.sentenceBuffer + t);
  }

  /** Every piece a token stream cuts ends at its first sentence end. */
  lemma {:induction false} FeedCutsSentences(start: Classifier, tokens: seq<string>)
    ensures forall k :: 0 <= k < |Feed(start, tokens).cut| ==> EndsSentence(Feed(start, tokens).cut[k])
    decreases |tokens|
  {
    if tokens != [] {
      var init := tokens[..|tokens| - 1];
      FeedCutsSentences(start, init);
      StepCutsSentences(Feed(start, init).next, tokens[|tokens| - 1]);
    }
  }

  /** Everything a normal reply queues for speech is, in order, the
      cleaned pieces of a segmentation of the whole reply, followed by one
      sentinel; every piece but the last ends at its first sentence end. */
  lemma SpokenReply(start: Classifier, tokens: seq<string>)
    requires Coherent(start) && Accounted(start, [])
    requires Feed(start, tokens).next.searchDetected && !Feed(start, tokens).next.isSearch
    ensures var f := Feed(start, tokens);
      && Queued(f.cut) + FinalItems(f.next) == Queued(f.cut + [f.next.sentenceBuffer]) + [EndOfStream]
      && Concat(f.cut + [f.next.sentenceBuffer]) == start.fullResponse + Concat(tokens)
      && (forall k :: 0 <= k < |f.cut| ==> EndsSentence(f.cut[k]))
  {
    var f := Feed(start, tokens);
    FeedAccounts(start, tokens);
    FeedCutsSentences(start, tokens);
    QueuedAppend(f.cut, [f.next.sentenceBuffer]);
    ConcatAppend(f.cut, [f.next.sentenceBuffer]);
    assert Concat([f.next.sentenceBuffer]) == f.next.sentenceBuffer;
  }

  /** A search command queues nothing but the sentinel. */
  lemma SearchReplyQueuesNothing(tokens: seq<string>)
    requires Feed(Undecided, tokens).next.isSearch
    ensures Queued(Feed(Undecided, tokens).cut) + FinalItems(Feed(Undecided, tokens).next) == [EndOfStream]
  {
    FeedAccounts(Undecided, tokens);
    assert Feed(Undecided, tokens).cut == [];
  }

  /** llm_producer's nonlocals, the sentence queue it feeds and the socket
      it echoes every token to. */
  class Producer {
    var fullResponse: string
    var sentenceBuffer: string
    var isSearch: bool
    var searchDetected: bool
    const queue: SentenceQueue
    const ws: Channel

    function State(): Classifier
      reads this
    {
      Classifier(fullResponse, sentenceBuffer, isSearch, searchDetected)
    }

    /** run's producer: nothing received yet, not classified. */
    constructor (queue: SentenceQueue, ws: Channel)
      ensures State() == Undecided
      ensures this.queue == queue && this.ws == ws
    {
      fullResponse := "";
      sentenceBuffer := "";
      isSearch := false;
      searchDetected := false;
      this.queue := queue;
      this.ws := ws;
    }

    /** _search_llm_tts's producer: every token goes to the sentence buffer. */
    constructor ForSearchReply(queue: SentenceQueue, ws: Channel)
      ensures State() == Spoken
      ensures this.queue == queue && this.ws == ws
    {
      fullResponse := "";
      sentenceBuffer := "";
      isSearch := false;
      searchDetected := true;
      this.queue := queue;
      this.ws := ws;
    }

    /** One token of the stream: accumulate it, echo it as an `llm_chunk`,
        classify the reply if that has not happened yet, and otherwise feed
        a normal reply's buffer to extract_sentences. */
    method OnToken(content: string)
      modifies this, queue, ws
      ensures State() == Step(old(State()), content).next
      ensures queue.items == old(queue.items) + Queued(Step(old(State()), content).cut)
      ensures ws.sent == old(ws.sent) + [LlmChunk(content)]
    {
      fullResponse := fullResponse + content;
      ws.Send(LlmChunk(content));
      if !searchDetected {
        if Contains(fullResponse, SearchTag) {
          isSearch := true;
          searchDetected := true;
          return;
        } else if |fullResponse| > 80 || HasSentenceEnd(fullResponse) {
          isSearch := false;
          sentenceBuffer := fullResponse;
          sentenceBuffer := ExtractSentences(sentenceBuffer, queue);
          searchDetected := true;
          return;
        }
      }
      if searchDetected && !isSearch {
        sentenceBuffer := sentenceBuffer + content;
        sentenceBuffer := ExtractSentences(sentenceBuffer, queue);
      }
    }

    /** The `finally` block: queue the final fragment of a normal reply,
        then the sentinel, and set search_detected. */
    method Finish()
      modifies this, queue
      ensures State() == old(State()).(searchDetected := true)
      ensures queue.items == old(queue.items) + FinalItems(old(State()))
    {
      if !isSearch && Strip(sentenceBuffer) != [] {
        var clean := CleanForTts(Strip(sentenceBuffer));
        QueuedOne(sentenceBuffer);
        if clean != [] {
          queue.PutNowait(Sentence(clean));
        }
      } else if !isSearch {
        QueuedOne(sentenceBuffer);
        assert CleanForTts("") == "";
      }
      queue.PutNowait(EndOfStream);
      if !searchDetected {
        searchDetected := true;
      }
    }
  }

  /** The messages that echo a token stream to the browser. */
  function Chunks(tokens: seq<string>): (ms: seq<Outbound>)
    ensures |ms| == |tokens|
    ensures forall k :: 0 <= k < |tokens| ==> ms[k] == LlmChunk(tokens[k])
  {
    if tokens == [] then [] else Chunks(tokens[..|tokens| - 1]) + [LlmChunk(tokens[|tokens| - 1])]
  }

  lemma ChunksSnoc(a: seq<string>, t: string)
    ensures Chunks(a + [t]) == Chunks(a) + [LlmChunk(t)]
  {
    assert (a + [t])[..|a + [t]| - 1] == a;
  }

  /** A whole producer run: every token through OnToken, then the
      `finally` block. */
  method Produce(p: Producer, tokens: seq<string>)
    modifies p, p.queue, p.ws
    ensures p.State() == Feed(old(p.State()), tokens).next.(searchDetected := true)
    ensures p.queue.items == old(p.queue.items) + Queued(Feed(old(p.State()), tokens).cut) + FinalItems(Feed(old(p.State()), tokens).next)
    ensures p.ws.sent == old(p.ws.sent) + Chunks(tokens)
  {
    ghost var start := p.State();
    for i := 0 to |tokens|
      invariant p.State() == Feed(start, tokens[..i]).next
      invariant p.queue.items == old(p.queue.items) + Queued(Feed(start, tokens[..i]).cut)
      invariant p.ws.sent == old(p.ws.sent) + Chunks(tokens[..i])
    {
      ghost var before := Feed(start, tokens[..i]);
      assert tokens[..i + 1] == tokens[..i] + [tokens[i]];
      FeedSnoc(start, tokens[..i], tokens[i]);
      ghost var step := Step(before.next, tokens[i]);
      p.OnToken(tokens[i]);
      QueuedAppend(before.cut, step.cut);
      AppendAssoc(old(p.queue.items), Queued(before.cut), Queued(step.cut));
      ChunksSnoc(tokens[..i], tokens[i]);
      AppendAssoc(old(p.ws.sent), Chunks(tokens[..i]), [LlmChunk(tokens[i])]);
    }
    assert tokens[..|tokens|] == tokens;
    p.Finish();
  }

  // -----------------------------------------------------------------------
  // The search query: re.search(r'\[SEARCH:\s*(.+?)\]', full_response)
  // -----------------------------------------------------------------------

  /** Where a match was found: the `[SEARCH:` marker and the captured group
      `text[start..end]`, with the closing `]` at `end`. */
  datatype SearchHit = SearchHit(tag: nat, start: nat, end: nat)

  /** `(.+?)\]` from position `k` on, after the group's first character:
      the first `]` that comes before any line break (`.` matches anything
      but a line break). */
  function CloseAt(s: string, k: nat): (e: Option<nat>)
    ensures e.Some? ==> k <= e.value < |s| && s[e.value] == ']'
    ensures e.Some? ==> forall j :: k <= j < e.value ==> s[j] != '\n' && s[j] != ']'
    decreases |s| - k
  {
    if k >= |s| then None
    else if s[k] == ']' then Some(k)
    else if s[k] == '\n' then None
    else CloseAt(s, k + 1)
  }

  /** `(.+?)\]` at `q`: the group takes at least one character, then as few
      more as it can. */
  function LazyGroup(s: string, q: nat): (e: Option<nat>)
    ensures e.Some? ==> q < e.value < |s| && s[e.value] == ']'
    ensures e.Some? ==> forall j :: q <= j < e.value ==> s[j] != '\n'
    ensures e.Some? ==> forall j :: q < j < e.value ==> s[j] != ']'
  {
    if q < |s| && s[q] != '\n' then CloseAt(s, q + 1) else None
  }

  /** `\s*(.+?)\]` at `from`: `\s*` first takes all `n` whitespace
      characters there and gives them back one at a time until the rest
      matches. */
  function Backtrack(s: string, from: nat, n: nat): (m: Option<Match>)
    requires from + n <= |s|
    ensures m.Some? ==> from <= m.value.start <= from + n && m.value.start < m.value.end < |s|
    ensures m.Some? ==> LazyGroup(s, m.value.start) == Some(m.value.end)
  {
    match LazyGroup(s, from + n)
    case Some(e) => Some(Match(from + n, e))
    case None => if n == 0 then None else Backtrack(s, from, n - 1)
  }

  /** `\s*` gives back as little as it can: the group starts at the last
      position at which `(.+?)\]` matches, and when there is none the
      pattern fails at `from`. */
  lemma {:induction false} BacktrackLatest(s: string, from: nat, n: nat)
    requires from + n <= |s|
    ensures var m := Backtrack(s, from, n);
      && (m.Some? ==> forall j :: m.value.start < j <= from + n ==> LazyGroup(s, j).None?)
      && (m.None? ==> forall j :: from <= j <= from + n ==> LazyGroup(s, j).None?)
    decreases n
  {
    if LazyGroup(s, from + n).None? && n > 0 {
      BacktrackLatest(s, from, n - 1);
    }
  }

  /** The whole pattern at position `p`. */
  function SearchMatchAt(s: string, p: nat): (m: Option<SearchHit>)
    ensures m.Some? ==> m.value.tag == p && OccursAt(s, SearchTag, p)
    ensures m.Some? ==> p + |SearchTag| <= m.value.start < m.value.end < |s| && s[m.value.end] == ']'
    ensures m.Some? ==> AllSpace(s[p + |SearchTag|..m.value.start])
  {
    if OccursAt(s, SearchTag, p) then
      var from := p + |SearchTag|;
      match Backtrack(s, from, SpaceLen(s[from..]))
      case Some(g) => Some(SearchHit(p, g.start, g.end))
      case None => None
    else None
  }

  /** `re.search`: the leftmost position at which the pattern matches. */
  function FindSearch(s: string, from: nat): (m: Option<SearchHit>)
    ensures m.Some? ==> from <= m.value.tag && SearchMatchAt(s, m.value.tag) == m
    decreases |s| - from
  {
    if from > |s| then None
    else match SearchMatchAt(s, from)
      case Some(h) => Some(h)
      case None => FindSearch(s, from + 1)
  }

  /** A match `re.search` finds is the leftmost one: the pattern matches at
      no earlier position. */
  lemma {:induction false} FindSearchLeftmost(s: string, from: nat)
    requires FindSearch(s, from).Some?
    ensures forall p :: from <= p < FindSearch(s, from).value.tag ==> SearchMatchAt(s, p).None?
    decreases |s| - from
  {
    if SearchMatchAt(s, from).None? {
      assert FindSearch(s, from) == FindSearch(s, from + 1);
      FindSearchLeftmost(s, from + 1);
      NoMatchBetween(s, from, FindSearch(s, from).value.tag);
    }
  }

  /** One more position without a match. */
  lemma NoMatchBetween(s: string, from: nat, to: nat)
    requires SearchMatchAt(s, from).None?
    requires forall p :: from + 1 <= p < to ==> SearchMatchAt(s, p).None?
    ensures forall p :: from <= p < to ==> SearchMatchAt(s, p).None?
  {
  }

  /** When `re.search` finds nothing, the pattern matches nowhere. */
  lemma {:induction false} NoSearchMatch(s: string, from: nat)
    requires FindSearch(s, from).None?
    ensures forall p :: from <= p <= |s| ==> SearchMatchAt(s, p).None?
    decreases |s| - from
  {
    if from <= |s| {
      assert SearchMatchAt(s, from).None?;
      NoSearchMatch(s, from + 1);
      NoMatchBetween(s, from, |s| + 1);
    }
  }

  /** The query of a search command, `search_match.group(1).strip()`, or
      None when the pattern does not match. */
  function SearchQuery(full: string): Option<string> {
    match FindSearch(full, 0)
    case Some(h) => Some(Strip(full[h.start..h.end]))
    case None => None
  }

  /** The captured text is the shortest non-empty, line-break-free text
      after `[SEARCH:` and some whitespace that is followed by `]`. */
  lemma SearchQueryShape(full: string)
    requires FindSearch(full, 0).Some?
    ensures var h := FindSearch(full, 0).value;
      && OccursAt(full, SearchTag, h.tag)
      && h.tag + |SearchTag| <= h.start < h.end < |full| && full[h.end] == ']'
      && AllSpace(full[h.tag + |SearchTag|..h.start])
      && (forall j :: h.start <= j < h.end ==> full[j] != '\n')
      && (forall j :: h.start < j < h.end ==> full[j] != ']')
      && SearchQuery(full) == Some(Strip(full[h.start..h.end]))
  {
    var h := FindSearch(full, 0).value;
    HitGroup(full, h.tag);
  }

  /** A match's group is what `(.+?)\]` takes at its start. */
  lemma HitGroup(s: string, p: nat)
    requires SearchMatchAt(s, p).Some?
    ensures var h := SearchMatchAt(s, p).value; LazyGroup(s, h.start) == Some(h.end)
  {
    var from := p + |SearchTag|;
    var g := Backtrack(s, from, SpaceLen(s[from..]));
    assert g.Some?;
  }

  /** A reply without the marker has no search query. */
  lemma SearchQueryNeedsTag(full: string)
    requires !Contains(full, SearchTag)
    ensures SearchQuery(full) == None
  {
  }

  /** `\s*` gives back its last space so that `.+?` can take it: for
      `[SEARCH: ]` the group is a single space and the query is empty. */
  lemma BlankSearchQuery()
    ensures SearchQuery("[SEARCH: ]") == Some("")
  {
    var s := "[SEARCH: ]";
    assert OccursAt(s, SearchTag, 0);
    assert SpaceLen(s[8..]) == 1;
    assert LazyGroup(s, 9).None?;
    assert LazyGroup(s, 8) == Some(9);
    assert SearchMatchAt(s, 0) == Some(SearchHit(0, 8, 9));
    assert s[8..9] == " ";
  }

  /** A one-word query right after the marker. */
  lemma OneWordSearchQuery()
    ensures SearchQuery("[SEARCH:news]") == Some("news")
  {
    var s := "[SEARCH:news]";
    assert OccursAt(s, SearchTag, 0);
    assert SpaceLen(s[8..]) == 0;
    assert CloseAt(s, 9) == Some(12);
    assert SearchMatchAt(s, 0) == Some(SearchHit(0, 8, 12));
    assert s[8..12] == "news";
  }

  // -----------------------------------------------------------------------
  // run: one user turn
  // -----------------------------------------------------------------------

  /** The chat-completion endpoint as the pipeline sees it: every streaming
      request posts the whole conversation history, and the reply's tokens
      are a function of that history. */
  class ChatService {
    var requests: seq<seq<Message>>
    const reply: seq<Message> -> seq<string>

    constructor (reply: seq<Message> -> seq<string>)
      ensures requests == [] && this.reply == reply
    {
      requests := [];
      this.reply := reply;
    }

    /** llm.stream_tokens(conversation_history, ...), as a whole stream. */
    method Request(history: seq<Message>) returns (tokens: seq<string>)
      modifies this
      ensures requests == old(requests) + [history]
      ensures tokens == reply(history)
    {
      requests := requests + [history];
      tokens := reply(history);
    }
  }

  /** The text shown while searching. */
  const SearchingNotice: string := "\n\nSearching the web...\n"

  /** The user turn that hands the search results to the second LLM call. */
  function SearchPrompt(query: string, results: string): string {
    "Here are the web search results for '" + query + "':\n\n" + results + "\n\n"
    + "Synthesize a comprehensive and natural answer for speaking aloud. "
    + "Do NOT say 'Here is what I found'. Just give the detailed answer."
  }

  /** The query whose web results are used: the speculative search of the
      cleaned transcript when the LLM's query is similar enough
      (similarity >= 0.4) and that search finished, otherwise a fresh
      search of the LLM's query. */
  function ResultsQuery(cleanQuery: string, searchQuery: string, speculativeOk: bool): string {
    if AtLeastTwoFifths(QuerySimilarity(cleanQuery, searchQuery)) && speculativeOk then cleanQuery
    else searchQuery
  }

  /** Queries with no word in common are always searched afresh; queries
      with the same words reuse the speculative results when they arrived. */
  lemma ResultsQueryCases(cleanQuery: string, searchQuery: string, speculativeOk: bool)
    ensures WordSet(cleanQuery) * WordSet(searchQuery) == {} ==> ResultsQuery(cleanQuery, searchQuery, speculativeOk) == searchQuery
    ensures !speculativeOk ==> ResultsQuery(cleanQuery, searchQuery, speculativeOk) == searchQuery
    ensures speculativeOk && WordSet(cleanQuery) == WordSet(searchQuery) && WordSet(cleanQuery) != {}
      ==> ResultsQuery(cleanQuery, searchQuery, speculativeOk) == cleanQuery
  {
    SimilarityThreshold(cleanQuery, searchQuery);
  }

  /** The end of run (after the search branch, if any): send `llm_done`;
      a cancelled turn or an empty reply takes the user entry back off the
      history, otherwise the reply is recorded and `tts_done` sent. */
  function Complete(asked: seq<Message>, reply: string, sent: seq<Outbound>, cancelled: bool, requests: seq<seq<Message>>): Turn
    requires asked != []
  {
    var sent := sent + [LlmDone];
    if cancelled || reply == [] then Turn(asked[..|asked| - 1], sent, requests)
    else Turn(asked + [Message(Assistant, reply)], sent + [TtsDone], requests)
  }

  /** The search branch of run, from the history `asked` that ends with the
      user entry, the first reply `firstReply` and its query: announce the
      search, pick the results, and unless cancelled by then answer with
      them. */
  function SearchTurn(asked: seq<Message>, firstReply: string, query: string, cleanQuery: string,
                      sent: seq<Outbound>, requests: seq<seq<Message>>, reply: seq<Message> -> seq<string>,
                      webSearch: string -> string, promptOf: (string, string) -> string,
                      speculativeOk: bool, cancelFrom: nat): Turn
    requires asked != []
  {
    var sent := sent + [LlmChunk(SearchingNotice)] + [SearchStart];
    if cancelFrom <= 1 then Turn(asked[..|asked| - 1], sent, requests)
    else Answer(asked, firstReply, promptOf(query, webSearch(ResultsQuery(cleanQuery, query, speculativeOk))), sent, requests, reply, cancelFrom)
  }

  /** Lines 158-181 of run: ask the LLM again with the first reply and the
      search prompt `prompt` pushed on the history, speak its reply, pop both
      entries again, and complete. */
  function Answer(asked: seq<Message>, firstReply: string, prompt: string,
                  sent: seq<Outbound>, requests: seq<seq<Message>>, reply: seq<Message> -> seq<string>, cancelFrom: nat): Turn
    requires asked != []
  {
    var prompted := asked + [Message(Assistant, firstReply)] + [Message(User, prompt)];
    var tokens := reply(prompted);
    var sent := sent + [SearchAudioDone] + [LlmChunk("\n\n")] + [TtsStart] + Chunks(tokens);
    var requests := requests + [prompted];
    if cancelFrom <= 2 then Turn(asked[..|asked| - 1], sent, requests)
    else Complete(asked, Concat(tokens), sent, cancelFrom == 3, requests)
  }

  /** What a turn leaves behind: the conversation history, the messages
      sent to the browser, and the histories posted to the LLM. */
  datatype Turn = Turn(history: seq<Message>, sent: seq<Outbound>, requests: seq<seq<Message>>)

  /** One turn of run, from the history `h0` it finds and the messages
      `sent0` and LLM requests `requests0` that came before it. The cancel
      event is modelled by `cancelFrom`: the k-th check of
      `cancel_event.is_set()` (counting from 0, in the order run makes
      them) sees it set exactly when k >= cancelFrom. `promptOf` builds the
      search prompt from the query and the results; run uses SearchPrompt,
      and what is proved about a turn holds for any prompt text. */
  function RunTurn(h0: seq<Message>, sent0: seq<Outbound>, requests0: seq<seq<Message>>,
                   transcript: string, reply: seq<Message> -> seq<string>,
                   webSearch: string -> string, promptOf: (string, string) -> string,
                   speculativeOk: bool, cancelFrom: nat): Turn
  {
    var asked := Sanitized(h0) + [Message(User, transcript)];
    var tokens := reply(asked);
    var first := Feed(Undecided, tokens).next;
    var sent := sent0 + [TtsStart] + Chunks(tokens);
    var requests := requests0 + [asked];
    if cancelFrom == 0 then Turn(Sanitized(h0), sent, requests)
    else if first.isSearch && SearchQuery(first.fullResponse).Some? then
      SearchTurn(asked, first.fullResponse, SearchQuery(first.fullResponse).value, CleanedQuery(transcript),
                 sent, requests, reply, webSearch, promptOf, speculativeOk, cancelFrom)
    else Complete(asked, first.fullResponse, sent, cancelFrom == 1, requests)
  }

  /** _search_llm_tts: a second streamed reply, every token spoken. */
  method SearchLlmTts(ws: Channel, chat: ChatService, conv: Conversation) returns (fullResponse: string)
    modifies ws, chat
    ensures fullResponse == Concat(chat.reply(conv.history))
    ensures ws.sent == old(ws.sent) + Chunks(chat.reply(conv.history))
    ensures chat.requests == old(chat.requests) + [conv.history]
  {
    var queue := new SentenceQueue();
    var producer := new Producer.ForSearchReply(queue, ws);
    var tokens := chat.Request(conv.history);
    Produce(producer, tokens);
    FeedAccounts(Spoken, tokens);
    fullResponse := producer.fullResponse;
  }

  /** Lines 186-205 of run: `llm_done`, then the last cancel check, the
      empty-reply check, and the recorded reply with `tts_done`. */
  method Conclude(conv: Conversation, ws: Channel, reply: string, cancelled: bool)
    requires conv.history != []
    modifies conv, ws
    ensures conv.history == Complete(old(conv.history), reply, old(ws.sent), cancelled, []).history
    ensures ws.sent == Complete(old(conv.history), reply, old(ws.sent), cancelled, []).sent
  {
    ws.Send(LlmDone);
    if cancelled {
      conv.Pop();
      return;
    }
    if reply == [] {
      conv.Pop();
      return;
    }
    conv.Append(Message(Assistant, reply));
    ws.Send(TtsDone);
  }

  /** Lines 121-157 of run, once the query is known: announce the search
      and pick the results. */
  method SearchBranch(conv: Conversation, ws: Channel, chat: ChatService, firstReply: string, query: string,
                      cleanQuery: string, webSearch: string -> string, speculativeOk: bool, cancelFrom: nat)
    requires conv.history != [] && cancelFrom >= 1
    modifies conv, ws, chat
    ensures var t := SearchTurn(old(conv.history), firstReply, query, cleanQuery, old(ws.sent), old(chat.requests),
                                chat.reply, webSearch, SearchPrompt, speculativeOk, cancelFrom);
      conv.history == t.history && ws.sent == t.sent && chat.requests == t.requests
  {
    ws.Send(LlmChunk(SearchingNotice));
    ws.Send(SearchStart);
    var results := webSearch(ResultsQuery(cleanQuery, query, speculativeOk));
    if 1 >= cancelFrom {
      conv.Pop();
      return;
    }
    AnswerWith(conv, ws, chat, firstReply, SearchPrompt(query, results), cancelFrom);
  }

  /** Lines 158-181 of run, and its end. */
  method AnswerWith(conv: Conversation, ws: Channel, chat: ChatService, firstReply: string, prompt: string,
                    cancelFrom: nat)
    requires conv.history != [] && cancelFrom >= 2
    modifies conv, ws, chat
    ensures var t := Answer(old(conv.history), firstReply, prompt, old(ws.sent), old(chat.requests), chat.reply, cancelFrom);
      conv.history == t.history && ws.sent == t.sent && chat.requests == t.requests
  {
    ghost var asked := conv.history;
    ws.Send(SearchAudioDone);
    conv.Append(Message(Assistant, firstReply));
    conv.Append(Message(User, prompt));
    ws.Send(LlmChunk("\n\n"));
    ws.Send(TtsStart);
    var fullResponse := SearchLlmTts(ws, chat, conv);
    conv.Pop();
    conv.Pop();
    assert conv.history == asked;
    if 2 >= cancelFrom {
      conv.Pop();
      return;
    }
    Conclude(conv, ws, fullResponse, 3 >= cancelFrom);
  }

  /** Lines 36-109 of run: `tts_start`, then the first reply streamed
      through the classifying producer. */
  method FirstReply(conv: Conversation, ws: Channel, chat: ChatService) returns (fullResponse: string, isSearch: bool)
    modifies ws, chat
    ensures fullResponse == Feed(Undecided, chat.reply(conv.history)).next.fullResponse
    ensures isSearch == Feed(Undecided, chat.reply(conv.history)).next.isSearch
    ensures ws.sent == old(ws.sent) + [TtsStart] + Chunks(chat.reply(conv.history))
    ensures chat.requests == old(chat.requests) + [conv.history]
  {
    ws.Send(TtsStart);
    var queue := new SentenceQueue();
    var producer := new Producer(queue, ws);
    var tokens := chat.Request(conv.history);
    Produce(producer, tokens);
    fullResponse := producer.fullResponse;
    isSearch := producer.isSearch;
  }

  /** run: sanitize the history, add the user turn, stream and classify
      the first reply, answer a search command with a second, spoken reply
      built on web results, and leave the history with exactly one new
      user/assistant pair or none at all. */
  method Run(conv: Conversation, ws: Channel, chat: ChatService, transcript: string,
             webSearch: string -> string, speculativeOk: bool, cancelFrom: nat)
    modifies conv, ws, chat
    ensures var t := RunTurn(old(conv.history), old(ws.sent), old(chat.requests), transcript, chat.reply,
                             webSearch, SearchPrompt, speculativeOk, cancelFrom);
      conv.history == t.history && ws.sent == t.sent && chat.requests == t.requests
  {
    conv.Sanitize();
    conv.Append(Message(User, transcript));
    var cleanQuery := CleanForSearch(transcript);
    var fullResponse, isSearch := FirstReply(conv, ws, chat);
    if 0 >= cancelFrom {
      conv.Pop();
      return;
    }
    var searchQuery := SearchQuery(fullResponse);
    if isSearch && searchQuery.Some? {
      SearchBranch(conv, ws, chat, fullResponse, searchQuery.value, cleanQuery, webSearch, speculativeOk, cancelFrom);
    } else {
      Conclude(conv, ws, fullResponse, 1 >= cancelFrom);
    }
  }

  // -----------------------------------------------------------------------
  // What every turn guarantees
  // -----------------------------------------------------------------------

  /** No `tts_done` among `ms[from..to]`. */
  predicate NoTtsDone(ms: seq<Outbound>, from: nat, to: nat) {
    forall k :: from <= k < to && k < |ms| ==> ms[k] != TtsDone
  }

  /** How a turn ends, relative to the history `asked` (ending with the
      user entry) and the messages `sent` before `llm_done`: either the
      user entry is taken back and nothing follows `llm_done`, or exactly
      one non-empty assistant entry is recorded and `tts_done` follows. */
  predicate Completed(t: Turn, asked: seq<Message>, sent: seq<Outbound>)
    requires asked != []
  {
    && |sent| < |t.sent| && t.sent[..|sent|] == sent && t.sent[|sent|] == LlmDone
    && ((t.history == asked[..|asked| - 1] && |t.sent| == |sent| + 1)
        || (|t.history| == |asked| + 1 && t.history[..|asked|] == asked
            && t.history[|asked|].role == Assistant && t.history[|asked|].content != []
            && |t.sent| == |sent| + 2 && t.sent[|sent| + 1] == TtsDone))
  }

  lemma CompleteShape(asked: seq<Message>, reply: string, sent: seq<Outbound>, cancelled: bool, requests: seq<seq<Message>>)
    requires asked != []
    ensures Completed(Complete(asked, reply, sent, cancelled, requests), asked, sent)
    ensures Complete(asked, reply, sent, cancelled, requests).requests == requests
    ensures cancelled ==> Complete(asked, reply, sent, cancelled, requests).history == asked[..|asked| - 1]
  {
    var t := Complete(asked, reply, sent, cancelled, requests);
    assert (sent + [LlmDone])[..|sent|] == sent;
    if !(cancelled || reply == []) {
      assert t.sent == sent + [LlmDone] + [TtsDone];
      assert t.sent[..|sent|] == sent;
    }
  }

  /** A turn's opening, its history and its `tts_done`. */
  predicate WellEnded(t: Turn, asked: seq<Message>, sent0: seq<Outbound>)
    requires asked != []
  {
    && |sent0| < |t.sent| && t.sent[..|sent0|] == sent0 && t.sent[|sent0|] == TtsStart
    && NoTtsDone(t.sent, |sent0|, |t.sent| - 1)
    && (t.history == asked[..|asked| - 1]
        || (|t.history| == |asked| + 1 && t.history[..|asked|] == asked
            && t.history[|asked|].role == Assistant && t.history[|asked|].content != []))
    && (t.history != asked[..|asked| - 1] <==> t.sent[|t.sent| - 1] == TtsDone)
    && (t.history != asked[..|asked| - 1] ==> |t.sent| >= |sent0| + 3 && t.sent[|t.sent| - 2] == LlmDone)
  }

  lemma CompletedWellEnded(t: Turn, asked: seq<Message>, sent0: seq<Outbound>, sent: seq<Outbound>)
    requires asked != [] && Completed(t, asked, sent)
    requires |sent0| < |sent| && sent[..|sent0|] == sent0 && sent[|sent0|] == TtsStart
    requires NoTtsDone(sent, |sent0|, |sent|)
    ensures WellEnded(t, asked, sent0)
  {
    assert t.sent[..|sent0|] == sent[..|sent0|];
    assert forall k :: 0 <= k < |sent| ==> t.sent[k] == sent[k];
    if t.history != asked[..|asked| - 1] {
      assert |t.history| != |asked| - 1;
    }
  }

  /** An early exit: the user entry is taken back and no `tts_done` sent. */
  lemma EarlyWellEnded(t: Turn, asked: seq<Message>, sent0: seq<Outbound>)
    requires asked != [] && t.history == asked[..|asked| - 1]
    requires |sent0| < |t.sent| && t.sent[..|sent0|] == sent0 && t.sent[|sent0|] == TtsStart
    requires NoTtsDone(t.sent, |sent0|, |t.sent|)
    ensures WellEnded(t, asked, sent0)
  {
  }

  /** `s` is what came before a turn, `sent0`, followed by `tts_start` and
      no `tts_done`. */
  predicate Opened(s: seq<Outbound>, sent0: seq<Outbound>) {
    |sent0| < |s| && s[..|sent0|] == sent0 && s[|sent0|] == TtsStart && NoTtsDone(s, |sent0|, |s|)
  }

  lemma OpenedAppend(s: seq<Outbound>, sent0: seq<Outbound>, more: seq<Outbound>)
    requires Opened(s, sent0) && TtsDone !in more
    ensures Opened(s + more, sent0)
  {
    assert (s + more)[..|sent0|] == s[..|sent0|];
    forall k | |sent0| <= k < |s + more|
      ensures (s + more)[k] != TtsDone
    {
      if k >= |s| {
        assert (s + more)[k] == more[k - |s|];
      }
    }
  }

  /** Every message of a token echo is an `llm_chunk`. */
  lemma ChunksHaveNoTtsDone(tokens: seq<string>)
    ensures TtsDone !in Chunks(tokens)
  {
  }

  /** The second LLM request: the history with the user entry, then the
      first reply and the search prompt pushed on top. */
  predicate SecondRequest(r: seq<Message>, asked: seq<Message>) {
    |r| == |asked| + 2 && r[..|asked|] == asked && r[|asked|].role == Assistant && r[|asked| + 1].role == User
  }

  /** The messages of a turn up to the end of the first reply. */
  lemma OpenedByFirstReply(sent0: seq<Outbound>, tokens: seq<string>)
    ensures Opened(sent0 + [TtsStart] + Chunks(tokens), sent0)
  {
    assert (sent0 + [TtsStart])[..|sent0|] == sent0;
    ChunksHaveNoTtsDone(tokens);
    OpenedAppend(sent0 + [TtsStart], sent0, Chunks(tokens));
  }

  /** The messages of the search answer keep a turn open. */
  lemma OpenedBySearchAnswer(sent: seq<Outbound>, sent0: seq<Outbound>, tokens: seq<string>)
    requires Opened(sent, sent0)
    ensures Opened(sent + [SearchAudioDone] + [LlmChunk("\n\n")] + [TtsStart] + Chunks(tokens), sent0)
  {
    var s1 := sent + [SearchAudioDone];
    var s2 := s1 + [LlmChunk("\n\n")];
    var s3 := s2 + [TtsStart];
    OpenedAppend(sent, sent0, [SearchAudioDone]);
    OpenedAppend(s1, sent0, [LlmChunk("\n\n")]);
    OpenedAppend(s2, sent0, [TtsStart]);
    ChunksHaveNoTtsDone(tokens);
    OpenedAppend(s3, sent0, Chunks(tokens));
  }

  lemma AnswerWellEnded(asked: seq<Message>, firstReply: string, prompt: string, sent: seq<Outbound>,
                        requests: seq<seq<Message>>, reply: seq<Message> -> seq<string>, cancelFrom: nat, sent0: seq<Outbound>)
    requires asked != [] && Opened(sent, sent0)
    ensures WellEnded(Answer(asked, firstReply, prompt, sent, requests, reply, cancelFrom), asked, sent0)
  {
    var t := Answer(asked, firstReply, prompt, sent, requests, reply, cancelFrom);
    var prompted := asked + [Message(Assistant, firstReply)] + [Message(User, prompt)];
    var tokens := reply(prompted);
    var more := sent + [SearchAudioDone] + [LlmChunk("\n\n")] + [TtsStart] + Chunks(tokens);
    OpenedBySearchAnswer(sent, sent0, tokens);
    if cancelFrom <= 2 {
      EarlyWellEnded(t, asked, sent0);
    } else {
      CompleteShape(asked, Concat(tokens), more, cancelFrom == 3, requests + [prompted]);
      CompletedWellEnded(t, asked, sent0, more);
    }
  }

  /** The search answer posts exactly one more request: the history with
      the first reply and the search prompt on top. */
  lemma AnswerRequests(asked: seq<Message>, firstReply: string, prompt: string, sent: seq<Outbound>,
                       requests: seq<seq<Message>>, reply: seq<Message> -> seq<string>, cancelFrom: nat)
    requires asked != []
    ensures var t := Answer(asked, firstReply, prompt, sent, requests, reply, cancelFrom);
      && |t.requests| == |requests| + 1 && t.requests[..|requests|] == requests
      && SecondRequest(t.requests[|requests|], asked)
  {
    var prompted := asked + [Message(Assistant, firstReply)] + [Message(User, prompt)];
    assert (requests + [prompted])[..|requests|] == requests;
    assert (asked + [Message(Assistant, firstReply)] + [Message(User, prompt)])[..|asked|] == asked;
    assert prompted == asked + ([Message(Assistant, firstReply)] + [Message(User, prompt)]);
  }

  lemma SearchTurnWellEnded(asked: seq<Message>, firstReply: string, query: string, cleanQuery: string,
                            sent: seq<Outbound>, requests: seq<seq<Message>>, reply: seq<Message> -> seq<string>,
                            webSearch: string -> string, promptOf: (string, string) -> string,
                            speculativeOk: bool, cancelFrom: nat, sent0: seq<Outbound>)
    requires asked != [] && Opened(sent, sent0)
    ensures var t := SearchTurn(asked, firstReply, query, cleanQuery, sent, requests, reply, webSearch, promptOf, speculativeOk, cancelFrom);
      && WellEnded(t, asked, sent0)
      && (cancelFrom <= 1 ==> t.history == asked[..|asked| - 1])
  {
    var t := SearchTurn(asked, firstReply, query, cleanQuery, sent, requests, reply, webSearch, promptOf, speculativeOk, cancelFrom);
    var s1 := sent + [LlmChunk(SearchingNotice)];
    OpenedAppend(sent, sent0, [LlmChunk(SearchingNotice)]);
    OpenedAppend(s1, sent0, [SearchStart]);
    if cancelFrom <= 1 {
      EarlyWellEnded(t, asked, sent0);
    } else {
      var prompt := promptOf(query, webSearch(ResultsQuery(cleanQuery, query, speculativeOk)));
      AnswerWellEnded(asked, firstReply, prompt, s1 + [SearchStart], requests, reply, cancelFrom, sent0);
    }
  }

  /** The history the search answer leaves: the second reply is recorded
      when neither of its two cancel checks fired and it is not empty;
      otherwise the user entry is taken back. */
  lemma AnswerHistory(asked: seq<Message>, firstReply: string, prompt: string, sent: seq<Outbound>,
                      requests: seq<seq<Message>>, reply: seq<Message> -> seq<string>, cancelFrom: nat)
    requires asked != []
    ensures var spoken := Concat(reply(asked + [Message(Assistant, firstReply)] + [Message(User, prompt)]));
      Answer(asked, firstReply, prompt, sent, requests, reply, cancelFrom).history
        == if 3 < cancelFrom && spoken != [] then asked + [Message(Assistant, spoken)] else asked[..|asked| - 1]
  {
  }

  /** The history the search branch leaves: only the second reply is ever
      recorded, and only when none of the branch's three cancel checks
      fired and it is not empty. */
  lemma SearchTurnHistory(asked: seq<Message>, firstReply: string, query: string, cleanQuery: string,
                          sent: seq<Outbound>, requests: seq<seq<Message>>, reply: seq<Message> -> seq<string>,
                          webSearch: string -> string, promptOf: (string, string) -> string,
                          speculativeOk: bool, cancelFrom: nat)
    requires asked != []
    ensures var prompt := promptOf(query, webSearch(ResultsQuery(cleanQuery, query, speculativeOk)));
      var spoken := Concat(reply(asked + [Message(Assistant, firstReply)] + [Message(User, prompt)]));
      SearchTurn(asked, firstReply, query, cleanQuery, sent, requests, reply, webSearch, promptOf, speculativeOk, cancelFrom).history
        == if 3 < cancelFrom && spoken != [] then asked + [Message(Assistant, spoken)] else asked[..|asked| - 1]
  {
    if cancelFrom > 1 {
      var prompt := promptOf(query, webSearch(ResultsQuery(cleanQuery, query, speculativeOk)));
      var sent' := sent + [LlmChunk(SearchingNotice)] + [SearchStart];
      AnswerHistory(asked, firstReply, prompt, sent', requests, reply, cancelFrom);
    }
  }

  /** The search branch makes at most one more request, the second one. */
  lemma SearchTurnRequests(asked: seq<Message>, firstReply: string, query: string, cleanQuery: string,
                           sent: seq<Outbound>, requests: seq<seq<Message>>, reply: seq<Message> -> seq<string>,
                           webSearch: string -> string, promptOf: (string, string) -> string,
                           speculativeOk: bool, cancelFrom: nat)
    requires asked != []
    ensures var t := SearchTurn(asked, firstReply, query, cleanQuery, sent, requests, reply, webSearch, promptOf, speculativeOk, cancelFrom);
      && |requests| <= |t.requests| <= |requests| + 1 && t.requests[..|requests|] == requests
      && (|t.requests| == |requests| + 1 ==> SecondRequest(t.requests[|requests|], asked))
  {
    if cancelFrom > 1 {
      var sent' := sent + [LlmChunk(SearchingNotice)] + [SearchStart];
      var prompt := promptOf(query, webSearch(ResultsQuery(cleanQuery, query, speculativeOk)));
      AnswerRequests(asked, firstReply, prompt, sent', requests, reply, cancelFrom);
    }
  }

  /** Every turn opens with `tts_start`; it leaves either the history it
      found (the user entry taken back, as on every cancel and on an empty
      reply) or that history with one user entry and one non-empty
      assistant reply, and sends `tts_done` exactly then, last, right after
      `llm_done`. A cancel seen by one of the first two checks always takes
      the user entry back. */
  lemma RunTurnWellEnded(h0: seq<Message>, sent0: seq<Outbound>, requests0: seq<seq<Message>>,
                         transcript: string, reply: seq<Message> -> seq<string>,
                         webSearch: string -> string, promptOf: (string, string) -> string,
                         speculativeOk: bool, cancelFrom: nat)
    ensures var t := RunTurn(h0, sent0, requests0, transcript, reply, webSearch, promptOf, speculativeOk, cancelFrom);
      var asked := Sanitized(h0) + [Message(User, transcript)];
      && WellEnded(t, asked, sent0)
      && (cancelFrom <= 1 ==> t.history == Sanitized(h0))
  {
    var t := RunTurn(h0, sent0, requests0, transcript, reply, webSearch, promptOf, speculativeOk, cancelFrom);
    var asked := Sanitized(h0) + [Message(User, transcript)];
    assert (Sanitized(h0) + [Message(User, transcript)])[..|Sanitized(h0)|] == Sanitized(h0);
    var tokens := reply(asked);
    var first := Feed(Undecided, tokens).next;
    var sent := sent0 + [TtsStart] + Chunks(tokens);
    var requests := requests0 + [asked];
    OpenedByFirstReply(sent0, tokens);
    if cancelFrom == 0 {
      EarlyWellEnded(t, asked, sent0);
    } else if first.isSearch && SearchQuery(first.fullResponse).Some? {
      SearchTurnWellEnded(asked, first.fullResponse, SearchQuery(first.fullResponse).value, CleanedQuery(transcript),
                          sent, requests, reply, webSearch, promptOf, speculativeOk, cancelFrom, sent0);
    } else {
      CompleteShape(asked, first.fullResponse, sent, cancelFrom == 1, requests);
      CompletedWellEnded(t, asked, sent0, sent);
    }
  }

  /** The history a turn leaves. The reply that is spoken is the first
      one, or on the search path the second one. It is recorded, as the
      assistant entry after the user entry, exactly when no cancel check
      saw the event (the two checks of a plain turn, the four of a search
      turn) and it is not empty; in every other case the user entry is
      taken back and the sanitised history is left. */
  lemma RunTurnHistory(h0: seq<Message>, sent0: seq<Outbound>, requests0: seq<seq<Message>>,
                       transcript: string, reply: seq<Message> -> seq<string>,
                       webSearch: string -> string, promptOf: (string, string) -> string,
                       speculativeOk: bool, cancelFrom: nat)
    ensures var t := RunTurn(h0, sent0, requests0, transcript, reply, webSearch, promptOf, speculativeOk, cancelFrom);
      var asked := Sanitized(h0) + [Message(User, transcript)];
      var first := Feed(Undecided, reply(asked)).next;
      var searched := first.isSearch && SearchQuery(first.fullResponse).Some?;
      var spoken := if searched then
          var query := SearchQuery(first.fullResponse).value;
          var prompt := promptOf(query, webSearch(ResultsQuery(CleanedQuery(transcript), query, speculativeOk)));
          Concat(reply(asked + [Message(Assistant, first.fullResponse)] + [Message(User, prompt)]))
        else first.fullResponse;
      var uncancelled := if searched then 3 < cancelFrom else 1 < cancelFrom;
      t.history == if uncancelled && spoken != [] then asked + [Message(Assistant, spoken)] else Sanitized(h0)
  {
    var asked := Sanitized(h0) + [Message(User, transcript)];
    var tokens := reply(asked);
    var first := Feed(Undecided, tokens).next;
    assert asked[..|asked| - 1] == Sanitized(h0);
    if cancelFrom != 0 && first.isSearch && SearchQuery(first.fullResponse).Some? {
      var sent := sent0 + [TtsStart] + Chunks(tokens);
      SearchTurnHistory(asked, first.fullResponse, SearchQuery(first.fullResponse).value, CleanedQuery(transcript),
                        sent, requests0 + [asked], reply, webSearch, promptOf, speculativeOk, cancelFrom);
    }
  }

  /** The LLM is asked once with the user entry on top of the sanitised
      history, and a second time only with the first reply and the search
      prompt pushed on top of that, which the history does not keep. */
  lemma RunTurnRequests(h0: seq<Message>, sent0: seq<Outbound>, requests0: seq<seq<Message>>,
                        transcript: string, reply: seq<Message> -> seq<string>,
                        webSearch: string -> string, promptOf: (string, string) -> string,
                        speculativeOk: bool, cancelFrom: nat)
    ensures var t := RunTurn(h0, sent0, requests0, transcript, reply, webSearch, promptOf, speculativeOk, cancelFrom);
      var asked := Sanitized(h0) + [Message(User, transcript)];
      && |requests0| < |t.requests| <= |requests0| + 2 && t.requests[..|requests0| + 1] == requests0 + [asked]
      && (|t.requests| == |requests0| + 2 ==> SecondRequest(t.requests[|requests0| + 1], asked))
  {
    var t := RunTurn(h0, sent0, requests0, transcript, reply, webSearch, promptOf, speculativeOk, cancelFrom);
    var asked := Sanitized(h0) + [Message(User, transcript)];
    var tokens := reply(asked);
    var first := Feed(Undecided, tokens).next;
    var sent := sent0 + [TtsStart] + Chunks(tokens);
    var requests := requests0 + [asked];
    if cancelFrom != 0 && first.isSearch && SearchQuery(first.fullResponse).Some? {
      SearchTurnRequests(asked, first.fullResponse, SearchQuery(first.fullResponse).value, CleanedQuery(transcript),
                         sent, requests, reply, webSearch, promptOf, speculativeOk, cancelFrom);
      assert (requests + t.requests[|requests|..])[..|requests|] == requests;
      assert t.requests == requests + t.requests[|requests|..];
    }
  }
}
