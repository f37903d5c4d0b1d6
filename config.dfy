/**
 * The shared definitions of app/config.py: the two character classes the
 * text-to-speech preparation uses (SENTENCE_END and EMOJI_PATTERN) and the
 * conversation history with its normalisation, sanitize_history.
 */
module Config {
  import opened Wrappers
  import opened Text

  // -----------------------------------------------------------------------
  // EMOJI_PATTERN
  // -----------------------------------------------------------------------

  /** A code point in one of the ranges of EMOJI_PATTERN, listed as written. */
  predicate IsEmoji(c: char) {
    var n := c as int;
    || (0x1F600 <= n <= 0x1F64F) || (0x1F300 <= n <= 0x1F5FF) || (0x1F680 <= n <= 0x1F6FF)
    || (0x1F1E0 <= n <= 0x1F1FF) || (0x2702 <= n <= 0x27B0) || (0x24C2 <= n <= 0x1F251)
    || (0x1F926 <= n <= 0x1F937) || (0x10000 <= n <= 0x10FFFF)
    || (0x2640 <= n <= 0x2642) || (0x2600 <= n <= 0x2B55) || n == 0x200D || n == 0x23CF
    || n == 0x23E9 || n == 0x231A || n == 0xFE0F || n == 0x3030
  }

  /** The ranges overlap: together they are four single code points and
      everything from U+24C2 upwards, which includes the CJK, kana and Hangul
      blocks, so those scripts are removed along with the emoji. No
      whitespace character other than U+3000 is in the class. */
  lemma EmojiClassShape(c: char)
    ensures IsEmoji(c) <==> (var n := c as int; n == 0x200D || n == 0x231A || n == 0x23CF || n == 0x23E9 || n >= 0x24C2)
    ensures IsSpace(c) && IsEmoji(c) ==> c as int == 0x3000
  {
  }

  // -----------------------------------------------------------------------
  // SENTENCE_END = [.!?;]\s+|\n
  // -----------------------------------------------------------------------

  datatype Match = Match(start: nat, end: nat)

  /** The end of a SENTENCE_END match that starts at `p`, if one does: a
      sentence mark followed by a maximal (greedy) run of whitespace, or
      else a single newline. */
  function MatchAt(s: string, p: nat): (e: Option<nat>)
    ensures e.Some? ==> p < e.value <= |s|
  {
    if p + 1 < |s| && s[p] in ".!?;" && IsSpace(s[p + 1]) then Some(p + 1 + SpaceLen(s[p + 1..]))
    else if p < |s| && s[p] == '\n' then Some(p + 1)
    else None
  }

  /** A match is a single newline, or a sentence mark followed by
      whitespace up to its end and no whitespace right after it. */
  lemma MatchAtShape(s: string, p: nat)
    requires MatchAt(s, p).Some?
    ensures s[p] == '\n' || (s[p] in ".!?;" && AllSpace(s[p + 1..MatchAt(s, p).value]) && p + 1 < MatchAt(s, p).value)
    ensures s[p] == '\n' ==> MatchAt(s, p).value == p + 1
    ensures s[p] != '\n' ==> MatchAt(s, p).value == |s| || !IsSpace(s[MatchAt(s, p).value])
  {
    if p + 1 < |s| && s[p] in ".!?;" && IsSpace(s[p + 1]) {
      var n := SpaceLen(s[p + 1..]);
      assert forall i :: p + 1 <= i < p + 1 + n ==> s[i] == s[p + 1..][i - p - 1];
    }
  }

  /** `SENTENCE_END.search(s[from..])`: the leftmost match at or after `from`. */
  function FindSentenceEnd(s: string, from: nat): (m: Option<Match>)
    ensures m.None? <==> forall p :: from <= p <= |s| ==> MatchAt(s, p).None?
    ensures m.Some? ==> from <= m.value.start && MatchAt(s, m.value.start) == Some(m.value.end)
    ensures m.Some? ==> forall p :: from <= p < m.value.start ==> MatchAt(s, p).None?
    decreases |s| - from
  {
    if from > |s| then None
    else match MatchAt(s, from)
      case Some(e) => Some(Match(from, e))
      case None => FindSentenceEnd(s, from + 1)
  }

  predicate HasSentenceEnd(s: string) {
    FindSentenceEnd(s, 0).Some?
  }

  // -----------------------------------------------------------------------
  // conversation_history and sanitize_history
  // -----------------------------------------------------------------------

  datatype Role = System | User | Assistant

  datatype Message = Message(role: Role, content: string)

  /** Entry `a` after `a["content"] += " " + b["content"]`. */
  function Merged(a: Message, b: Message): Message {
    Message(a.role, a.content + " " + b.content)
  }

  /** The history from index 1 on, as the scan of sanitize_history leaves it:
      each entry absorbs every following entry of the same role. */
  function MergeRuns(h: seq<Message>): seq<Message>
    decreases |h|
  {
    if |h| < 2 then h
    else if h[0].role == h[1].role then MergeRuns([Merged(h[0], h[1])] + h[2..])
    else [h[0]] + MergeRuns(h[1..])
  }

  /** What sanitize_history makes of a history: the system entry stays put,
      the rest has its same-role runs merged. */
  function Sanitized(h: seq<Message>): seq<Message> {
    if |h| < 2 then h else [h[0]] + MergeRuns(h[1..])
  }

  predicate Alternating(h: seq<Message>) {
    forall k :: 0 <= k < |h| - 1 ==> h[k].role != h[k + 1].role
  }

  function Roles(h: seq<Message>): (rs: seq<Role>)
    ensures |rs| == |h| && forall k :: 0 <= k < |h| ==> rs[k] == h[k].role
  {
    if h == [] then [] else [h[0].role] + Roles(h[1..])
  }

  function Contents(h: seq<Message>): (cs: seq<string>)
    ensures |cs| == |h| && forall k :: 0 <= k < |h| ==> cs[k] == h[k].content
  {
    if h == [] then [] else [h[0].content] + Contents(h[1..])
  }

  /** Run-length compression: adjacent repeats collapsed to one. */
  function Compress(rs: seq<Role>): seq<Role> {
    if |rs| < 2 then rs
    else if rs[0] == rs[1] then Compress(rs[1..])
    else [rs[0]] + Compress(rs[1..])
  }

  /** The number of leading entries that share the first entry's role. */
  function RunLen(h: seq<Message>): (n: nat)
    requires h != []
    ensures 1 <= n <= |h|
    ensures forall k :: 0 <= k < n ==> h[k].role == h[0].role
    ensures n < |h| ==> h[n].role != h[0].role
  {
    if |h| == 1 || h[1].role != h[0].role then 1 else 1 + RunLen(h[1..])
  }

  /** The history as a mutable list shared by the pipeline runs. */
  class Conversation {
    var history: seq<Message>

    constructor (systemPrompt: string)
      ensures history == [Message(System, systemPrompt)]
    {
      history := [Message(System, systemPrompt)];
    }

    method Append(m: Message)
      modifies this
      ensures history == old(history) + [m]
    {
      history := history + [m];
    }

    /** `list.pop()`: removes the last entry. */
    method Pop()
      requires history != []
      modifies this
      ensures history == old(history)[..|old(history)| - 1]
    {
      history := history[..|history| - 1];
    }

    /** sanitize_history: merges, in place, consecutive entries with the same
        role after the system entry. */
    method Sanitize()
      modifies this
      ensures history == Sanitized(old(history))
    {
      if |history| < 2 {
        return;
      }
      var i := 1;
      while i < |history|
        invariant 1 <= i <= |history|
        invariant history[0] == old(history)[0]
        invariant history[1..i] + MergeRuns(history[i..]) == MergeRuns(old(history)[1..])
        decreases |history|, |history| - i
      {
        if i + 1 < |history| && history[i].role == history[i + 1].role {
          MergeStep(history, i);
          history := history[..i] + [Merged(history[i], history[i + 1])] + history[i + 2..];
          continue;
        }
        AdvanceStep(history, i);
        i := i + 1;
      }
      assert history == [history[0]] + history[1..];
    }
  }

  /** Merging entry `i + 1` into entry `i` keeps the finished prefix and what
      the rest will become. */
  lemma MergeStep(h: seq<Message>, i: nat)
    requires 1 <= i && i + 1 < |h| && h[i].role == h[i + 1].role
    ensures var h' := h[..i] + [Merged(h[i], h[i + 1])] + h[i + 2..];
      |h'| == |h| - 1 && h'[0] == h[0] && h'[1..i] == h[1..i] && MergeRuns(h'[i..]) == MergeRuns(h[i..])
  {
    var h' := h[..i] + [Merged(h[i], h[i + 1])] + h[i + 2..];
    assert h'[i..] == [Merged(h[i], h[i + 1])] + h[i..][2..];
  }

  /** Moving past an entry whose successor has another role. */
  lemma AdvanceStep(h: seq<Message>, i: nat)
    requires 1 <= i < |h|
    requires !(i + 1 < |h| && h[i].role == h[i + 1].role)
    ensures h[1..i + 1] + MergeRuns(h[i + 1..]) == h[1..i] + MergeRuns(h[i..])
  {
    assert h[i..][1..] == h[i + 1..];
    assert MergeRuns(h[i..]) == [h[i]] + MergeRuns(h[i + 1..]);
    assert h[1..i + 1] == h[1..i] + [h[i]];
  }

  // -----------------------------------------------------------------------
  // Properties of the normalisation
  // -----------------------------------------------------------------------

  /** Merging keeps the first entry's role in front and leaves no two
      neighbours with the same role. */
  lemma {:induction false} MergeRunsAlternates(h: seq<Message>)
    ensures Alternating(MergeRuns(h))
    ensures h != [] ==> MergeRuns(h) != [] && MergeRuns(h)[0].role == h[0].role
    decreases |h|
  {
    if |h| >= 2 {
      if h[0].role == h[1].role {
        MergeRunsAlternates([Merged(h[0], h[1])] + h[2..]);
      } else {
        MergeRunsAlternates(h[1..]);
      }
    }
  }

  /** After sanitize_history no two adjacent entries from index 1 on share a
      role, and the system entry is untouched. */
  lemma SanitizedAlternates(h: seq<Message>)
    requires h != []
    ensures Sanitized(h) != [] && Sanitized(h)[0] == h[0]
    ensures Alternating(Sanitized(h)[1..])
  {
    if |h| >= 2 {
      MergeRunsAlternates(h[1..]);
      assert Sanitized(h)[1..] == MergeRuns(h[1..]);
    }
  }

  /** The roles after merging are the run-length compression of the roles
      before, so their order is kept. */
  lemma {:induction false} MergeRunsRoles(h: seq<Message>)
    ensures Roles(MergeRuns(h)) == Compress(Roles(h))
    decreases |h|
  {
    if |h| >= 2 {
      if h[0].role == h[1].role {
        var h' := [Merged(h[0], h[1])] + h[2..];
        MergeRunsRoles(h');
        assert Roles(h') == Roles(h)[1..];
      } else {
        MergeRunsRoles(h[1..]);
        assert Roles(h)[1..] == Roles(h[1..]);
      }
    }
  }

  lemma {:induction false} CompressShorter(rs: seq<Role>)
    ensures |Compress(rs)| <= |rs|
    ensures rs != [] ==> Compress(rs) != []
  {
    if |rs| >= 2 {
      CompressShorter(rs[1..]);
    }
  }

  /** Sanitizing never lengthens the history. */
  lemma SanitizedShorter(h: seq<Message>)
    ensures |Sanitized(h)| <= |h|
  {
    if |h| >= 2 {
      MergeRunsRoles(h[1..]);
      CompressShorter(Roles(h[1..]));
    }
  }

  /** A history that already alternates is left as it is. */
  lemma {:induction false} MergeRunsOfAlternating(h: seq<Message>)
    requires Alternating(h)
    ensures MergeRuns(h) == h
    decreases |h|
  {
    if |h| >= 2 {
      MergeRunsOfAlternating(h[1..]);
    }
  }

  /** A second sanitize_history changes nothing. */
  lemma SanitizeIdempotent(h: seq<Message>)
    ensures Sanitized(Sanitized(h)) == Sanitized(h)
  {
    if |h| >= 2 {
      MergeRunsAlternates(h[1..]);
      MergeRunsOfAlternating(MergeRuns(h[1..]));
      assert Sanitized(h)[1..] == MergeRuns(h[1..]);
    }
  }

  lemma JoinMergedHead(a: string, b: string, rest: seq<string>)
    ensures Join([a + " " + b] + rest) == Join([a, b] + rest)
  {
    if rest != [] {
      assert ([a + " " + b] + rest)[1..] == rest;
      assert ([a, b] + rest)[1..] == [b] + rest;
      assert ([b] + rest)[1..] == rest;
    }
  }

  /** Each maximal same-role run becomes one entry with the run's role, whose
      content is the run's contents joined with single spaces, in order. */
  lemma {:induction false} MergeRunsHead(h: seq<Message>)
    requires h != []
    ensures MergeRuns(h) == [Message(h[0].role, Join(Contents(h[..RunLen(h)])))] + MergeRuns(h[RunLen(h)..])
    decreases |h|
  {
    if RunLen(h) == 1 {
      assert Contents(h[..1]) == [h[0].content];
      if |h| == 1 {
        assert h[1..] == [];
      }
    } else {
      var h' := [Merged(h[0], h[1])] + h[2..];
      MergeRunsHead(h');
      MergeRunsHeadStep(h);
    }
  }

  /** The inductive step of MergeRunsHead: merging the first two entries of
      a run of length `n` leaves a run of length `n - 1` with the same
      joined content. */
  lemma MergeRunsHeadStep(h: seq<Message>)
    requires h != [] && RunLen(h) > 1
    requires var h' := [Merged(h[0], h[1])] + h[2..];
      MergeRuns(h') == [Message(h'[0].role, Join(Contents(h'[..RunLen(h')])))] + MergeRuns(h'[RunLen(h')..])
    ensures MergeRuns(h) == [Message(h[0].role, Join(Contents(h[..RunLen(h)])))] + MergeRuns(h[RunLen(h)..])
  {
    var n := RunLen(h);
    var h' := [Merged(h[0], h[1])] + h[2..];
    RunLenOfMerged(h);
    MergedRunContents(h, n);
    MergedRunRest(h, n);
    assert MergeRuns(h) == MergeRuns(h');
  }

  lemma MergedRunRest(h: seq<Message>, n: nat)
    requires 2 <= n <= |h|
    ensures ([Merged(h[0], h[1])] + h[2..])[n - 1..] == h[n..]
  {
  }

  /** Merging the first two entries of a run does not change the run's
      joined content. */
  lemma MergedRunContents(h: seq<Message>, n: nat)
    requires 2 <= n <= |h|
    ensures Join(Contents(([Merged(h[0], h[1])] + h[2..])[..n - 1])) == Join(Contents(h[..n]))
  {
    var rest := Contents(h[2..n]);
    assert ([Merged(h[0], h[1])] + h[2..])[..n - 1] == [Merged(h[0], h[1])] + h[2..n];
    assert h[..n] == [h[0], h[1]] + h[2..n];
    JoinMergedHead(h[0].content, h[1].content, rest);
  }

  lemma RunLenOfMerged(h: seq<Message>)
    requires |h| >= 2 && h[0].role == h[1].role
    ensures RunLen([Merged(h[0], h[1])] + h[2..]) == RunLen(h) - 1
  {
    var h' := [Merged(h[0], h[1])] + h[2..];
    var n, n' := RunLen(h), RunLen(h');
    assert forall k :: 1 <= k < |h'| ==> h'[k] == h[k + 1];
  }
}
