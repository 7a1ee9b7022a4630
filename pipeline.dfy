/** processMemoryChat (memory.js:81-466): one chat turn. The user's message is
    analysed into search keywords and memory candidates, the candidates pass
    the Timekeeper gate (which may stop the turn with a question), the memory
    store is searched, the reply is generated, its moods are sanitised, and the
    candidates are sent to the store. Every completion request goes through
    the retry loop; the store's answer to a search is an input. */
module Pipeline {
  import opened Wrappers
  import opened Text
  import opened Decoder
  import opened Retry
  import opened Extraction
  import opened Retrieval
  import opened Graph
  import opened Mood
  import opened Persister

  /** The generated reply `{ response, mood, roots, keywords }`. */
  datatype ReplyJson = ReplyJson(response: Option<string>, mood: Option<string>, roots: Option<seq<Root>>, keywords: Option<seq<string>>)

  /** The generation validator (memory.js:374): `data.response && data.mood`. */
  predicate ReplyShape(r: ReplyJson) {
    Truthy(r.response) && Truthy(r.mood)
  }

  /** Everything outside the turn: the completion backend of each request
      with the JSON parser of its answer, and the store's answer to a search
      for a list of keys. */
  datatype Backends = Backends(
    analyze: nat -> Reply,
    parseAnalysis: string -> Option<AnalysisJson>,
    gate: Gatekeepers,
    retrieve: seq<string> -> StoreReply,
    generate: nat -> Reply,
    parseReply: string -> Option<ReplyJson>,
    dedup: Deduplicator)

  /** `if (appsScriptUrl)`: memory runs whenever a script URL is stored, the
      value "SKIP" included. */
  predicate MemoryOn(scriptUrl: Option<string>) {
    Truthy(scriptUrl)
  }

  /** How the turn ends: with the Interceptor's question, or with the
      generated reply and the cleaned text it was parsed from. */
  datatype Chat = Asked(question: string) | Answered(payload: Payload<ReplyJson>)

  /** The reply main.js reads from the turn: the fixed payload of
      memory.js:225-229 around the question, or the generated one. */
  function ChatJson(c: Chat): (j: ReplyJson)
    ensures c.Asked? ==> j.response == Some(c.question) && j.mood == Some("CURIOUS") && j.roots == Some([])
    ensures c.Answered? ==> j == c.payload.parsed
  {
    match c
    case Asked(q) => ReplyJson(Some(q), Some("CURIOUS"), Some([]), None)
    case Answered(p) => p.parsed
  }

  /** What the turn did besides answering: the entries after the gate, the
      entries the Timekeeper was asked about, the keys searched for (none when
      no search ran), `window.lastRetrievedMemories` afterwards, the mood and
      cleaned graph memory.js published (none when it published nothing),
      the entries checked for duplication and the entries sent to the store. */
  datatype Effects = Effects(
    entries: Option<seq<Entry>>,
    consulted: seq<nat>,
    searchKeys: Option<seq<string>>,
    lastRetrieved: Option<string>,
    mood: Option<string>,
    graph: Option<seq<Root>>,
    checked: seq<nat>,
    stored: seq<Entry>)

  /** What the analysis request settles on. */
  function AnalysisFetched(b: Backends): Option<AnalysisJson> {
    match Fetch(b.analyze, b.parseAnalysis, AnalysisShape)
    case Some(p) => Some(p.parsed)
    case None => None
  }

  /** The gate runs only on a non-empty list of entries. */
  function GateOf(v: Verdicts, entries: Option<seq<Entry>>): (r: Option<GateOutcome>)
    ensures r.Some? <==> entries.Some? && |entries.value| > 0
  {
    if entries.Some? && |entries.value| > 0 then Some(Gate(v, entries.value)) else None
  }

  /** The gate ran and the Interceptor asked a question. */
  predicate Intercepted(v: Verdicts, entries: Option<seq<Entry>>) {
    var gate := GateOf(v, entries);
    gate.Some? && gate.value.Intercept?
  }

  /** The entries the Timekeeper is asked about: the significant ones up to
      the interception, if any. */
  function ConsultedOf(v: Verdicts, entries: Option<seq<Entry>>): seq<nat> {
    match GateOf(v, entries)
    case None => []
    case Some(Pass(_)) => Significant(entries.value, |entries.value|)
    case Some(Intercept(_, at)) =>
      GateInterceptIsFirstStop(v, entries.value, |entries.value|);
      Significant(entries.value, at + 1)
  }

  /** The whole turn, given the analysis, the gate's verdicts, the store's
      answers, the settled generation and the deduplication answers. */
  datatype TurnResult = TurnResult(out: Result<Chat, string>, fx: Effects)

  function Turn(a: Analysis, v: Verdicts, found: seq<string> -> StoreReply, gen: Option<Payload<ReplyJson>>,
                duplicate: nat -> bool, userText: string, history: seq<Turn>,
                scriptUrl: Option<string>, previous: Option<string>): TurnResult
  {
    var gate := GateOf(v, a.entries);
    var consulted := ConsultedOf(v, a.entries);
    if Intercepted(v, a.entries) then
      TurnResult(Success(Asked(gate.value.question)), Effects(a.entries, consulted, None, previous, None, None, [], []))
    else
      var entries := if gate.Some? then Some(gate.value.kept) else a.entries;
      AfterGate(entries, consulted, a.searchKeywords, found, gen, duplicate, userText, history, scriptUrl, previous)
  }

  /** The turn once the gate let it go on: the search, the generation, the
      published mood and graph, and the storage decision. */
  function AfterGate(entries: Option<seq<Entry>>, consulted: seq<nat>, keywords: seq<string>,
                     found: seq<string> -> StoreReply, gen: Option<Payload<ReplyJson>>,
                     duplicate: nat -> bool, userText: string, history: seq<Turn>,
                     scriptUrl: Option<string>, previous: Option<string>): TurnResult
  {
    var keys := if MemoryOn(scriptUrl) then Some(SearchKeys(keywords, history, userText)) else None;
    var context := if keys.Some? then NextLastRetrieved(previous, found(keys.value)) else previous;
    match gen
    case None =>
      TurnResult(Failure(FailureMessage("Generation")), Effects(entries, consulted, keys, context, None, None, [], []))
    case Some(p) =>
      var mood := if Truthy(p.parsed.mood) then Some(Sanitize(p.parsed.mood)) else None;
      var graph := if p.parsed.roots.Some? then Some(SanitizeRoots(p.parsed.roots.value)) else None;
      var es := entries.GetOr([]);
      var store := MemoryOn(scriptUrl) && |es| > 0;
      var stored := if store then At(es, StoredPositions(es, context, duplicate, |es|)) else [];
      var checked := if store then CheckedPositions(es, context, |es|) else [];
      TurnResult(Success(Answered(p)), Effects(entries, consulted, keys, context, mood, graph, checked, stored))
  }

  /** memory.js:149-165: the analysis request and the normalisation of its
      keywords; a failed request leaves the empty default analysis. */
  method Analyse(b: Backends) returns (a: Analysis)
    ensures a == Analyze(AnalysisFetched(b))
  {
    var synth, _ := FetchWithRetry(b.analyze, b.parseAnalysis, AnalysisShape, "Hybrid Analysis");
    if synth.Failure? {
      return Analysis([], Some([]));
    }
    var parsed := synth.value.parsed;
    var words: seq<string> := [];
    if parsed.searchKeywords.Some? {
      words := NormalizeKeywords(parsed.searchKeywords.value);
    }
    a := Analysis(words, parsed.entries);
  }

  /** memory.js:247-286: the search, run only with memory on. The context is
      replaced only when the store found something. */
  method Retrieve(b: Backends, keywords: seq<string>, history: seq<Turn>, userText: string, scriptUrl: Option<string>, previous: Option<string>)
    returns (keys: Option<seq<string>>, context: Option<string>)
    ensures keys == if MemoryOn(scriptUrl) then Some(SearchKeys(keywords, history, userText)) else None
    ensures context == if keys.Some? then NextLastRetrieved(previous, b.retrieve(keys.value)) else previous
  {
    if !(scriptUrl.Some? && scriptUrl.value != "") {
      return None, previous;
    }
    var searchKeys := BuildSearchKeys(keywords, history, userText);
    var reply := b.retrieve(searchKeys);
    context := previous;
    if reply.Found? {
      context := RetrievedContext(reply);
    }
    keys := Some(searchKeys);
  }

  /** memory.js:369-374: the generation request. A settled reply has a
      non-empty response and mood, and main.js's second decoding of its text
      gives that text back, so main.js parses what memory.js validated. */
  method Generate(b: Backends) returns (gen: Result<Payload<ReplyJson>, string>)
    ensures gen == if Fetch(b.generate, b.parseReply, ReplyShape).Some? then Success(Fetch(b.generate, b.parseReply, ReplyShape).value)
                   else Failure(FailureMessage("Generation"))
    ensures gen.Success? ==> && ReplyShape(gen.value.parsed)
                             && DecodeReply(gen.value.cleaned) == gen.value.cleaned
                             && b.parseReply(gen.value.cleaned) == Some(gen.value.parsed)
  {
    var attempts;
    gen, attempts := FetchWithRetry(b.generate, b.parseReply, ReplyShape, "Generation");
    if gen.Success? {
      var reply := b.generate(attempts);
      assert Attempt(reply, b.parseReply, ReplyShape) == Some(gen.value);
      ReDecodeIsIdentity(reply.text);
    }
  }

  /** memory.js:377-402: the sanitised global mood, and the graph with its
      root and branch moods sanitised when the reply has roots. */
  method Publish(reply: ReplyJson) returns (mood: Option<string>, graph: Option<seq<Root>>)
    ensures mood == if Truthy(reply.mood) then Some(Sanitize(reply.mood)) else None
    ensures graph == if reply.roots.Some? then Some(SanitizeRoots(reply.roots.value)) else None
  {
    mood := None;
    if reply.mood.Some? && reply.mood.value != "" {
      mood := Some(Sanitize(reply.mood));
    }
    graph := None;
    if reply.roots.Some? {
      var clean := CleanRoots(reply.roots.value);
      graph := Some(clean);
    }
  }

  /** memory.js:247-466 once the gate let the turn go on. */
  method FinishTurn(b: Backends, ghost duplicate: nat -> bool, entries: Option<seq<Entry>>, consulted: seq<nat>,
                    keywords: seq<string>, userText: string, history: seq<Turn>, scriptUrl: Option<string>, lastRetrieved: Option<string>)
    returns (out: Result<Chat, string>, fx: Effects)
    requires DecidedBy(duplicate, b.dedup)
    ensures TurnResult(out, fx) == AfterGate(entries, consulted, keywords, b.retrieve, Fetch(b.generate, b.parseReply, ReplyShape),
                                             duplicate, userText, history, scriptUrl, lastRetrieved)
    ensures out.Success? && out.value.Answered? ==>
              && ReplyShape(out.value.payload.parsed)
              && DecodeReply(out.value.payload.cleaned) == out.value.payload.cleaned
              && b.parseReply(out.value.payload.cleaned) == Some(out.value.payload.parsed)
  {
    var keys, context := Retrieve(b, keywords, history, userText, scriptUrl, lastRetrieved);
    var gen := Generate(b);
    if gen.Failure? {
      return Failure(gen.error), Effects(entries, consulted, keys, context, None, None, [], []);
    }
    var mood, graph := Publish(gen.value.parsed);
    var stored: seq<Entry> := [];
    var checked: seq<nat> := [];
    if MemoryOn(scriptUrl) && entries.Some? && |entries.value| > 0 {
      stored, checked := Persist(entries.value, context, b.dedup, duplicate);
    }
    return Success(Answered(gen.value)), Effects(entries, consulted, keys, context, mood, graph, checked, stored);
  }

  /** memory.js:171-466: the turn once the analysis `a` is in. */
  method TurnAfterAnalysis(b: Backends, ghost v: Verdicts, ghost duplicate: nat -> bool, a: Analysis,
                           userText: string, history: seq<Turn>, scriptUrl: Option<string>, lastRetrieved: Option<string>)
    returns (out: Result<Chat, string>, fx: Effects)
    requires SettledBy(v, b.gate) && DecidedBy(duplicate, b.dedup)
    ensures TurnResult(out, fx) == Turn(a, v, b.retrieve, Fetch(b.generate, b.parseReply, ReplyShape),
                                        duplicate, userText, history, scriptUrl, lastRetrieved)
    ensures out.Success? && out.value.Answered? ==>
              && ReplyShape(out.value.payload.parsed)
              && DecodeReply(out.value.payload.cleaned) == out.value.payload.cleaned
              && b.parseReply(out.value.payload.cleaned) == Some(out.value.payload.parsed)
  {
    var entries := a.entries;
    var consulted: seq<nat> := [];
    if entries.Some? && |entries.value| > 0 {
      var outcome;
      outcome, consulted := RunGate(b.gate, v, entries.value);
      if outcome.Intercept? {
        return Success(Asked(outcome.question)), Effects(entries, consulted, None, lastRetrieved, None, None, [], []);
      }
      entries := Some(outcome.kept);
    }
    out, fx := FinishTurn(b, duplicate, entries, consulted, a.searchKeywords, userText, history, scriptUrl, lastRetrieved);
  }

  /** The whole turn (memory.js:81-466). `v` and `duplicate` are the answers
      the gate's and the deduplication backends settle on. A generated reply
      is one main.js can decode and parse back. */
  method ProcessMemoryChat(b: Backends, ghost v: Verdicts, ghost duplicate: nat -> bool,
                           userText: string, history: seq<Turn>, scriptUrl: Option<string>, lastRetrieved: Option<string>)
    returns (out: Result<Chat, string>, fx: Effects)
    requires SettledBy(v, b.gate) && DecidedBy(duplicate, b.dedup)
    ensures TurnResult(out, fx) == Turn(Analyze(AnalysisFetched(b)), v, b.retrieve, Fetch(b.generate, b.parseReply, ReplyShape),
                                        duplicate, userText, history, scriptUrl, lastRetrieved)
    ensures out.Success? && out.value.Answered? ==>
              && ReplyShape(out.value.payload.parsed)
              && DecodeReply(out.value.payload.cleaned) == out.value.payload.cleaned
              && b.parseReply(out.value.payload.cleaned) == Some(out.value.payload.parsed)
  {
    var analysis := Analyse(b);
    out, fx := TurnAfterAnalysis(b, v, duplicate, analysis, userText, history, scriptUrl, lastRetrieved);
  }

  /** A turn as a function of the user's message, the history, the script
      URL and the last retrieved context. */
  type Turns = (string, seq<Turn>, Option<string>, Option<string>) -> TurnResult

  /** `turn` gives the turn the backends of `b` settle on. */
  ghost predicate TurnsBy(turn: Turns, b: Backends, v: Verdicts, duplicate: nat -> bool) {
    forall userText: string, history: seq<Turn>, scriptUrl: Option<string>, previous: Option<string>
      {:trigger Turn(Analyze(AnalysisFetched(b)), v, b.retrieve, Fetch(b.generate, b.parseReply, ReplyShape),
                     duplicate, userText, history, scriptUrl, previous)} ::
      turn(userText, history, scriptUrl, previous)
        == Turn(Analyze(AnalysisFetched(b)), v, b.retrieve, Fetch(b.generate, b.parseReply, ReplyShape),
                duplicate, userText, history, scriptUrl, previous)
  }

  lemma SettledTurns(b: Backends, v: Verdicts, duplicate: nat -> bool)
    ensures TurnsBy((userText: string, history: seq<Turn>, scriptUrl: Option<string>, previous: Option<string>) =>
                      Turn(Analyze(AnalysisFetched(b)), v, b.retrieve, Fetch(b.generate, b.parseReply, ReplyShape),
                           duplicate, userText, history, scriptUrl, previous),
                    b, v, duplicate)
  {
  }

  // ---------------------------------------------------------------------
  // What a turn guarantees
  // ---------------------------------------------------------------------

  /** memory.js:207-234: an interception ends the turn with the Interceptor's
      question about the first stopped entry. The store is not searched, no
      reply is generated or published and nothing is stored, whatever those
      backends would have answered. */
  lemma InterceptEndsTurn(a: Analysis, v: Verdicts, found: seq<string> -> StoreReply, gen: Option<Payload<ReplyJson>>,
                          duplicate: nat -> bool, userText: string, history: seq<Turn>,
                          scriptUrl: Option<string>, previous: Option<string>,
                          found': seq<string> -> StoreReply, gen': Option<Payload<ReplyJson>>, duplicate': nat -> bool)
    requires Intercepted(v, a.entries)
    ensures var r := Turn(a, v, found, gen, duplicate, userText, history, scriptUrl, previous);
            && r == Turn(a, v, found', gen', duplicate', userText, history, scriptUrl, previous)
            && r.out.Success? && r.out.value.Asked?
            && r.fx.searchKeys.None? && r.fx.lastRetrieved == previous
            && r.fx.mood.None? && r.fx.graph.None? && r.fx.checked == [] && r.fx.stored == []
            && var at := GateOf(v, a.entries).value.at;
               && at < |a.entries.value| && !Trivial(a.entries.value[at])
               && v.question(at) == Some(r.out.value.question)
               && r.fx.consulted == Significant(a.entries.value, at + 1)
  {
    GateInterceptIsFirstStop(v, a.entries.value, |a.entries.value|);
  }

  /** Without a script URL nothing is searched for or stored and the last
      retrieved context stays, whatever the store and the deduplication
      backend would have answered. */
  lemma MemoryOffTurn(a: Analysis, v: Verdicts, found: seq<string> -> StoreReply, gen: Option<Payload<ReplyJson>>,
                      duplicate: nat -> bool, userText: string, history: seq<Turn>,
                      scriptUrl: Option<string>, previous: Option<string>,
                      found': seq<string> -> StoreReply, duplicate': nat -> bool)
    requires !MemoryOn(scriptUrl)
    ensures var r := Turn(a, v, found, gen, duplicate, userText, history, scriptUrl, previous);
            && r == Turn(a, v, found', gen, duplicate', userText, history, scriptUrl, previous)
            && r.fx.searchKeys.None? && r.fx.lastRetrieved == previous
            && r.fx.checked == [] && r.fx.stored == []
  {
  }

  /** memory.js:369-374 with memory.js:75-77: a generation that never settles
      fails the turn with "Generation Failed."; the search has run, but no
      mood or graph is published and nothing is stored. */
  lemma FailedGenerationTurn(a: Analysis, v: Verdicts, found: seq<string> -> StoreReply,
                             duplicate: nat -> bool, userText: string, history: seq<Turn>,
                             scriptUrl: Option<string>, previous: Option<string>)
    requires !Intercepted(v, a.entries)
    ensures var r := Turn(a, v, found, None, duplicate, userText, history, scriptUrl, previous);
            && r.out == Failure("Generation Failed.")
            && (r.fx.searchKeys.Some? <==> MemoryOn(scriptUrl))
            && r.fx.mood.None? && r.fx.graph.None? && r.fx.checked == [] && r.fx.stored == []
  {
    assert FailureMessage("Generation") == "Generation Failed.";
  }

  /** Storing from a list that survives the gate entry by entry: what is
      stored is storable, in order, and each stored entry survives from the
      analysis entry at its position. */
  lemma StoredSurvive(es: seq<Entry>, kept: seq<Entry>, context: Option<string>, duplicate: nat -> bool)
    requires |kept| == |es| && forall j :: 0 <= j < |es| ==> Survives(es[j], kept[j])
    ensures var stored := At(kept, StoredPositions(kept, context, duplicate, |kept|));
            exists pos: seq<nat> ::
              && |pos| == |stored|
              && (forall k, l :: 0 <= k < l < |pos| ==> pos[k] < pos[l])
              && (forall k :: 0 <= k < |pos| ==> pos[k] < |es| && Survives(es[pos[k]], stored[k]) && Storable(stored[k]))
  {
    var pos := StoredPositions(kept, context, duplicate, |kept|);
    StoredPositionsOrdered(kept, context, duplicate, |kept|);
    var stored := At(kept, pos);
    forall k | 0 <= k < |pos|
      ensures pos[k] < |es| && Survives(es[pos[k]], stored[k]) && Storable(stored[k])
    {
      assert pos[k] in pos;
    }
  }

  /** What reaches the store (memory.js:417-464 after memory.js:171-244):
      storable candidates of the analysis, in their original order, each with
      at most its fact rewritten by the Timekeeper to a non-empty text. */
  lemma StoredComeFromAnalysis(a: Analysis, v: Verdicts, found: seq<string> -> StoreReply, gen: Option<Payload<ReplyJson>>,
                               duplicate: nat -> bool, userText: string, history: seq<Turn>,
                               scriptUrl: Option<string>, previous: Option<string>)
    ensures var stored := Turn(a, v, found, gen, duplicate, userText, history, scriptUrl, previous).fx.stored;
            stored != [] ==>
              && a.entries.Some?
              && exists pos: seq<nat> ::
                   && |pos| == |stored|
                   && (forall k, l :: 0 <= k < l < |pos| ==> pos[k] < pos[l])
                   && (forall k :: 0 <= k < |pos| ==>
                         pos[k] < |a.entries.value| && Survives(a.entries.value[pos[k]], stored[k]) && Storable(stored[k]))
  {
    var r := Turn(a, v, found, gen, duplicate, userText, history, scriptUrl, previous);
    if r.fx.stored != [] {
      assert !Intercepted(v, a.entries);
      var es := a.entries.value;
      var kept := GateOf(v, a.entries).value.kept;
      var consulted := ConsultedOf(v, a.entries);
      assert r == AfterGate(Some(kept), consulted, a.searchKeywords, found, gen, duplicate, userText, history, scriptUrl, previous);
      StoredAfterGate(Some(kept), consulted, a.searchKeywords, found, gen, duplicate, userText, history, scriptUrl, previous);
      GatePassKeepsAll(v, es, |es|);
      StoredSurvive(es, kept, r.fx.lastRetrieved, duplicate);
    }
  }

  /** What the turn sends to the store is the storage decision on the entries
      the gate passed on. */
  lemma StoredAfterGate(entries: Option<seq<Entry>>, consulted: seq<nat>, keywords: seq<string>,
                        found: seq<string> -> StoreReply, gen: Option<Payload<ReplyJson>>,
                        duplicate: nat -> bool, userText: string, history: seq<Turn>,
                        scriptUrl: Option<string>, previous: Option<string>)
    ensures var r := AfterGate(entries, consulted, keywords, found, gen, duplicate, userText, history, scriptUrl, previous);
            r.fx.stored != [] ==>
              && entries.Some?
              && r.fx.stored == At(entries.value, StoredPositions(entries.value, r.fx.lastRetrieved, duplicate, |entries.value|))
  {
  }
}
