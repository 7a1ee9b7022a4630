/** Step 3 of processMemoryChat (memory.js:247-286): the search keys sent to
    the memory store and the context block built from what it finds. */
module Retrieval {
  import opened Wrappers
  import opened Text

  /** The roles a chat turn can have. */
  datatype Role = User | Assistant | System

  datatype Turn = Turn(role: Role, content: string)

  /** `history.filter(h => h.role === "assistant").pop()`: the most recent
      assistant turn, if any. */
  function LastAssistant(history: seq<Turn>): (t: Option<Turn>)
    ensures t.None? <==> forall i :: 0 <= i < |history| ==> history[i].role != Assistant
    ensures t.Some? ==> exists i :: 0 <= i < |history| && history[i] == t.value && t.value.role == Assistant
                          && forall k :: i < k < |history| ==> history[k].role != Assistant
  {
    if history == [] then None
    else if history[|history| - 1].role == Assistant then Some(history[|history| - 1])
    else LastAssistant(history[..|history| - 1])
  }

  /** The sticky-word test of memory.js:256: longer than five characters and
      matching `^[a-zA-Z]+$`. */
  predicate IsStickyWord(w: string) {
    Utf16Length(w) > 5 && forall c :: c in w ==> IsAsciiLetter(c)
  }

  /** memory.js:255-257: at most two sticky words of the given text, in order. */
  function StickyWords(content: string): (r: seq<string>)
    ensures var all := Filter(IsStickyWord, Split(content, ' '));
            |r| == (if |all| <= 2 then |all| else 2) && r == all[..|r|]
    ensures forall w :: w in r ==> IsStickyWord(w) && w in Split(content, ' ')
  {
    Take(Filter(IsStickyWord, Split(content, ' ')), 2)
  }

  /** The sticky words carried over from the last assistant turn. */
  function StickyOf(history: seq<Turn>): seq<string> {
    match LastAssistant(history)
    case None => []
    case Some(t) => StickyWords(t.content)
  }

  /** The fallback test of memory.js:263: longer than three UTF-16 code units
      and not exactly one of "what", "when", "where". */
  predicate IsFallbackWord(w: string) {
    Utf16Length(w) > 3 && w != "what" && w != "when" && w != "where"
  }

  /** The utterance's fallback words, in order. */
  function FallbackWords(utterance: string): (r: seq<string>)
    ensures forall w :: w in r <==> w in Split(utterance, ' ') && IsFallbackWord(w)
  {
    Filter(IsFallbackWord, Split(utterance, ' '))
  }

  /** The keys searched for: the extractor keywords followed by the sticky
      words; when that list is empty, the utterance's fallback words instead. */
  function SearchKeys(keywords: seq<string>, history: seq<Turn>, utterance: string): seq<string> {
    var lead := keywords + StickyOf(history);
    if lead != [] then lead else FallbackWords(utterance)
  }

  /** memory.js:250-264: `searchKeys` built up by reassignment. */
  method BuildSearchKeys(keywords: seq<string>, history: seq<Turn>, utterance: string) returns (keys: seq<string>)
    ensures keys == SearchKeys(keywords, history, utterance)
  {
    keys := keywords;
    if |history| > 0 {
      var lastAi := LastAssistant(history);
      if lastAi.Some? {
        keys := keys + StickyWords(lastAi.value.content);
      }
    }
    if |keys| == 0 {
      keys := FallbackWords(utterance);
    }
  }

  /** Extractor keywords are always searched for, first and in order, and at
      most two sticky words follow them. */
  lemma KeywordsLead(keywords: seq<string>, history: seq<Turn>, utterance: string)
    requires keywords != []
    ensures var keys := SearchKeys(keywords, history, utterance);
            && keys[..|keywords|] == keywords
            && |keys| <= |keywords| + 2
            && forall w :: w in keys[|keywords|..] ==> IsStickyWord(w)
  {
    var keys := SearchKeys(keywords, history, utterance);
    assert keys[|keywords|..] == StickyOf(history);
  }

  /** The utterance is searched for only when there is nothing else. */
  lemma FallbackOnlyWhenNothingElse(keywords: seq<string>, history: seq<Turn>, utterance: string)
    ensures SearchKeys(keywords, history, utterance) == FallbackWords(utterance)
              <== keywords == [] && StickyOf(history) == []
    ensures keywords + StickyOf(history) != [] ==> SearchKeys(keywords, history, utterance) == keywords + StickyOf(history)
  {
  }

  /** Question words never become fallback keys. */
  lemma FallbackSkipsQuestionWords(utterance: string)
    ensures "what" !in FallbackWords(utterance)
    ensures "when" !in FallbackWords(utterance)
    ensures "where" !in FallbackWords(utterance)
    ensures forall w :: w in FallbackWords(utterance) ==> Utf16Length(w) > 3 && w in Split(utterance, ' ')
  {
  }

  /** Without an assistant turn no sticky word is added. */
  lemma NoAssistantNoSticky(history: seq<Turn>)
    requires forall i :: 0 <= i < |history| ==> history[i].role != Assistant
    ensures StickyOf(history) == []
  {
  }

  /** What the store's `retrieve` action yields: a failed request (or an
      unreadable answer), `found: false`, or the relevant memories. */
  datatype StoreReply = Unreachable | NotFound | Found(memories: seq<string>)

  const ResultsHeader := "=== DATABASE SEARCH RESULTS ===\n"

  /** memory.js:280-283: the context block, only when something was found. */
  function RetrievedContext(reply: StoreReply): (c: Option<string>)
    ensures c.Some? <==> reply.Found?
    ensures c.Some? ==> |c.value| == |ResultsHeader| + |Join(reply.memories, '\n')|
                        && c.value[..|ResultsHeader|] == ResultsHeader
  {
    match reply
    case Found(memories) => Some(ResultsHeader + Join(memories, '\n'))
    case _ => None
  }

  /** The memories can be read back from a context block when none of them
      holds a line break. */
  lemma {:induction false} ContextRoundTrip(memories: seq<string>)
    requires |memories| >= 1
    requires forall i :: 0 <= i < |memories| ==> '\n' !in memories[i]
    ensures var c := RetrievedContext(Found(memories)).value;
            Split(c[|ResultsHeader|..], '\n') == memories
  {
    var c := RetrievedContext(Found(memories)).value;
    assert c[|ResultsHeader|..] == Join(memories, '\n');
    SplitOfJoin(memories, '\n');
  }

  /** The header alone is 32 code units, so a found context is longer than
      the deduplication threshold of 50 exactly when the joined memories are
      longer than 18 code units. */
  lemma HeaderLength()
    ensures Utf16Length(ResultsHeader) == 32
  {
    assert forall i :: 0 <= i < |ResultsHeader| ==> IsBmp(ResultsHeader[i]);
  }

  lemma ContextLength(memories: seq<string>)
    ensures Utf16Length(ResultsHeader) == 32
    ensures Utf16Length(RetrievedContext(Found(memories)).value) > 50 <==> Utf16Length(Join(memories, '\n')) > 18
  {
    HeaderLength();
    Utf16LengthAppend(ResultsHeader, Join(memories, '\n'));
  }

  /** `window.lastRetrievedMemories` after the retrieval step: replaced when
      something was found, otherwise the value left by an earlier turn. */
  function NextLastRetrieved(previous: Option<string>, reply: StoreReply): Option<string> {
    if reply.Found? then RetrievedContext(reply) else previous
  }
}
