# symbiotev10 memory and coordinator rules in Dafny

symbiotev10 is a browser chat client. Every line the user types goes through
`handleInput` in main.js, which does one of these things:

- answers the configuration prompts: the OpenRouter key, then the Apps Script
  URL of the memory store;
- switches question or glitch mode;
- speaks a "/" line;
- or runs a chat turn.

A chat turn calls `processMemoryChat` in memory.js. The turn runs these steps:

1. An analysis request extracts search keywords and memory candidates.
2. The Timekeeper checks each significant candidate. The Interceptor may end the
   turn with a question.
3. The store is searched with keys built from the keywords, the last assistant
   turn and the utterance.
4. A reply is generated; its moods are sanitised and its graph is published.
5. The candidates go to the store. When a long enough context was retrieved,
   each one is first checked for duplication.

main.js then decodes the reply a second time. It appends the reply to the
windowed history, shows its keywords and graph, and settles the mood against the
`MOOD_AUDIO` table.

The model treats everything outside these rules as input:

- A completion backend is a function from attempt number to reply: a transport
  failure, a response without `choices`, or the text of the first choice.
- `JSON.parse` is a partial function from text to a parsed record.
- The store's search is a function from the key list to its answer.
- The gate's and the deduplication backends' settled answers are ghost
  functions of the entry's position. They are tied to the backends by
  `SettledBy` and `DecidedBy`.

On top of these the project proves:

- the retry loop's first-success contract;
- the decoder's slice and idempotence properties, and why main.js's second
  decoding cannot fail;
- the Timekeeper fold's pass and short-circuit behaviour;
- the search-key rules;
- mood sanitising and the closed mood set;
- the storage decision as an order-preserving subsequence;
- main.js's state machine over its globals, as the class `Coordinator.Session`.

Modules, one per file:

| module | file | models |
|---|---|---|
| `Wrappers` | wrappers.dfy | `Option` and `Result` |
| `Text` | text.dfy | the JavaScript string operations used: `trim`, `toUpperCase`/`toLowerCase` on ASCII, `indexOf`, `lastIndexOf`, `substring`, `split`, `join`, global literal `replace`, `filter`, `slice` |
| `Decoder` | decoder.dfy | the fence and brace cleaning of memory.js and its copy in main.js |
| `Retry` | retry.dfy | `fetchWithCognitiveRetry` |
| `Extraction` | extraction.dfy | keyword normalisation and the Timekeeper/Interceptor loop |
| `Retrieval` | retrieval.dfy | search keys and the retrieved-context block |
| `Graph` | graph.dfy | the knowledge-graph walk and the fallback graph |
| `Mood` | mood.dfy | `sanitizeMood`, root and branch cleaning, main.js's mood rule |
| `Persister` | persister.dfy | the storage-decision loop |
| `Pipeline` | pipeline.dfy | `processMemoryChat` as one turn |
| `Coordinator` | coordinator.dfy | `checkAuth`, `saveConfig`, `isGarbage`, `handleInput`, `handleChat` |

Lengths are counted as JavaScript counts them, in UTF-16 code units: a
character outside the Basic Multilingual Plane counts twice. That applies to
the key format check, `isGarbage`, the search-word filters and the
deduplication threshold.

Where the code and its design prose differ, the model follows the code:

- The Interceptor's payload carries mood CURIOUS, not QUESTION.
- `sanitizeMood` maps only falsy moods to NEUTRAL. It does not check its result
  against `MOOD_AUDIO` and never touches leaf moods.
- Answering the script-URL prompt with "SKIP" stores the truthy text "SKIP". So
  memory stays on (`SheetAnswerEnablesMemory`), although the client says
  "MEMORY DISABLED."
- A Timekeeper check that fails keeps the entry. An Interceptor request that
  fails also keeps it, because the same `catch` (memory.js:237) catches it. No
  entry is ever discarded.

## Model

| member | source | states |
|---|---|---|
| Text.IsSpace | main.js:280 | defines the characters `trim` removes: the ECMAScript white space and line terminators |
| Text.Upper | main.js:226 | ASCII lower-case letters are upper-cased position by position, every other character kept; the result holds no lower-case ASCII letter |
| Text.UpperOfUpper | memory.js:382 | upper-casing a text without lower-case ASCII letters gives it back |
| Text.Lower | main.js:289 | ASCII upper-case letters are lower-cased position by position, every other character kept |
| Text.Utf16Length | main.js:312 | `length` counts UTF-16 code units: at least one and at most two per character, and exactly one per character when every character lies in the Basic Multilingual Plane |
| Text.Utf16LengthAppend | memory.js:421 | the code-unit length of a concatenation is the sum of the parts' lengths |
| Text.TrimStart | main.js:280 | removes exactly the leading spaces: the result is a suffix whose first character is not a space, and every removed character is a space |
| Text.TrimEnd | main.js:280 | removes exactly the trailing spaces: the result is a prefix whose last character is not a space, and every removed character is a space |
| Text.Trim | main.js:280 | only leading and trailing spaces are removed: the result is a slice of the input with nothing but spaces before and after it and no space at either end, and a text without spaces comes back unchanged |
| Text.TrimOfTrimmed | main.js:135-136 | trimming a text that has no space at either end changes nothing |
| Text.StartsWith | main.js:134 | defines `startsWith`: the text begins with the pattern |
| Text.IndexOf | memory.js:70 | -1 exactly when the character is absent; otherwise a position holding it with no earlier occurrence |
| Text.LastIndexBefore | memory.js:70 | -1 exactly when the character is absent below n; otherwise its position with no later occurrence below n |
| Text.LastIndexOf | memory.js:70 | -1 exactly when the character is absent; otherwise a position holding it with no later occurrence |
| Text.Substring | memory.js:71 | defines `substring`: both bounds clamped into the text, and swapped when the first exceeds the second |
| Text.Split | memory.js:162 | one more piece than separators, no piece holds the separator, and joining the pieces gives the text back |
| Text.SplitOfJoin | memory.js:162 | splitting the join of separator-free pieces gives the pieces back |
| Text.Join | memory.js:281 | defines `join` on one separator: the pieces in order with the separator between neighbours |
| Text.RemoveAll | memory.js:69 | removing every match of a literal pattern never lengthens the text |
| Text.RemoveAllAbsent | memory.js:69 | removing a pattern that does not occur changes nothing |
| Text.RemoveAllFirstMatch | memory.js:69 | the text before the first match is kept as it is, that match is dropped, and the scan resumes right after it |
| Text.Filter | memory.js:255 | an element is kept exactly when it occurs in the input and passes the test; never more elements than the input |
| Text.FilterAppend | memory.js:255 | filtering a concatenation filters each part, in order |
| Text.Take | memory.js:256 | the prefix of length min(n, length) |
| Decoder.StripFences | memory.js:69 | defines the two global replacements, ```` ```json ```` first and then ```` ``` ````, each by the empty string |
| Decoder.Decode | memory.js:69-71 | defines memory.js's decoding: strip the fences, then cut from the first `{` to the last `}` |
| Decoder.ExtractObject | memory.js:70-71 | without both braces the text is unchanged; with the first `{` at or before the last `}` it is exactly the slice between them inclusive; with the braces reversed it is the slice the swapped `substring` bounds give |
| Decoder.DecodeReply | main.js:172-176 | with both braces in the stripped text it equals memory.js's decoder; otherwise it is the raw, unstripped text |
| Decoder.ExtractObjectIdempotent | memory.js:70-71 | cutting a cut text changes nothing |
| Decoder.FenceFree | memory.js:69 | no triple backtick survives `replace(/```/g, "")` |
| Decoder.NoJsonFence | memory.js:69 | a text without a triple backtick holds no ```` ```json ```` |
| Decoder.StripFenceFree | memory.js:69 | stripping a fence-free text changes nothing |
| Decoder.StripFencesIdempotent | memory.js:69 | the stripped text is fence-free, so stripping twice is stripping once |
| Decoder.ReDecodeIsIdentity | main.js:172-176 | main.js's decoding of memory.js's cleaned text gives that text back |
| Decoder.DecodersAgreeWithBraces | main.js:172-176 | both decoders agree when the stripped text has both braces |
| Decoder.DecodersDifferWithoutBraces | main.js:172-176 | on a bare fence memory.js yields "" and main.js the fence itself |
| Retry.Attempt | memory.js:66-74 | an attempt yields a payload only for a reply with text, with the decoded text as `cleaned`; a reply that parses and passes the validator always yields one |
| Retry.FirstAccepted | memory.js:53-76 | defines the loop's settled outcome from attempt k on: the first successful attempt, if any |
| Retry.Fetch | memory.js:53-77 | defines the payload the retry loop settles on: the first attempt that yields one |
| Retry.FirstAcceptedIsFirst | memory.js:53-76 | the loop settles on nothing exactly when every attempt fails, and otherwise on the first successful attempt |
| Retry.FetchAccepted | memory.js:73-74 | a settled payload was parsed from its cleaned text and accepted by the validator |
| Retry.FailureMessage | memory.js:77 | the error message starts with the label and is longer than it |
| Retry.FetchWithRetry | memory.js:51-78 | succeeds with the settled payload, or fails with the label's message when there is none; makes 1 to 2 attempts, the last successful one is the first success, and a failure comes only after both attempts |
| Extraction.AnalysisShape | memory.js:156 | defines the analysis validator: `search_keywords` is present as a list or a string |
| Extraction.TimeShape | memory.js:200 | defines the Timekeeper validator: `valid` is a boolean |
| Extraction.InterceptShape | memory.js:223 | defines the Interceptor validator: `response` is truthy |
| Extraction.TrimAll | memory.js:162 | every piece trimmed, in place |
| Extraction.NormalizeKeywords | memory.js:161-163 | a keyword string is split on "," and each piece is trimmed; a list is kept as it is |
| Extraction.NormalizeOfJoin | memory.js:161-163 | trimmed, comma-free keywords sent as one comma-joined string are recovered exactly |
| Extraction.EmptyKeywordText | memory.js:162 | an empty keyword string becomes one empty keyword |
| Extraction.Analyze | memory.js:149-165 | a failed analysis gives empty keywords and entries; a successful one keeps the parsed entries, keeps a keyword list as it is, cuts a keyword string at every comma and trims each piece, and gives no keywords when there are none |
| Extraction.Trivial | memory.js:179 | defines the entries that skip the Timekeeper: those with an importance below 4 |
| Extraction.Rewrite | memory.js:205 | only the fact may change, only to a truthy rewrite, and a truthy rewrite always replaces it |
| Extraction.TimeVerdict | memory.js:198-203 | defines the Timekeeper's verdict on an entry: the parsed answer the retry loop settles on, or none when it fails |
| Extraction.Question | memory.js:221-224 | an Interceptor question that settles is non-empty |
| Extraction.Judge | memory.js:179-240 | trivial entries and failed checks keep the entry unchanged; a valid verdict keeps it with its fact replaced by a truthy `rewritten_fact`; any other verdict stops the turn with the Interceptor's question, or keeps the entry unchanged when the Interceptor fails |
| Extraction.Significant | memory.js:179-182 | a position is listed exactly when its entry's importance is missing or at least 4, since a missing importance is not below 4 |
| Extraction.InterceptIsFinal | memory.js:228-234 | once the fold intercepts, later entries change nothing |
| Extraction.GateUpTo | memory.js:171-244 | defines the fold over the first n entries: each judged in order, kept entries collected, the first stop ending the fold |
| Extraction.Gate | memory.js:171-244 | defines the fold over all entries |
| Extraction.CheckEntry | memory.js:197-240 | the Timekeeper and Interceptor requests for one significant entry give the judgement on its settled answers |
| Extraction.GateStep | memory.js:175-243 | one step of the fold; the Timekeeper is asked exactly about a significant entry, and an interception names that entry |
| Extraction.RunGate | memory.js:171-244 | the loop computes the fold over the settled answers, and the entries it sends to the Timekeeper are exactly the significant ones up to the stop |
| Extraction.GatePassKeepsAll | memory.js:175-243 | the fold passes exactly when no entry stops it, and then it keeps every entry in order: a significant entry with a valid verdict gets its `rewritten_fact` when truthy, every other entry is unchanged |
| Extraction.GateInterceptIsFirstStop | memory.js:207-234 | an interception names the first entry whose verdict stops the turn, with its question |
| Extraction.TrivialEntriesPass | memory.js:179-182 | entries of importance below 4 pass unchanged and in order, with no Timekeeper request |
| Retrieval.LastAssistant | memory.js:252 | none exactly when the history has no assistant turn; otherwise an assistant turn of the history |
| Retrieval.IsStickyWord | memory.js:255 | defines the sticky test: longer than 5 code units and made of ASCII letters only |
| Retrieval.StickyWords | memory.js:254-256 | the first at most two words of the content that pass the sticky test, in order |
| Retrieval.IsFallbackWord | memory.js:263 | defines the fallback test: longer than 3 code units and not "what", "when" or "where" |
| Retrieval.FallbackWords | memory.js:262-263 | a word is kept exactly when it is a space-separated word of the utterance that passes the fallback test |
| Retrieval.SearchKeys | memory.js:250-264 | defines the search keys: the keywords followed by the sticky words, or the utterance's fallback words when that list is empty |
| Retrieval.BuildSearchKeys | memory.js:250-264 | the reassigned `searchKeys` equals the search-key rule |
| Retrieval.KeywordsLead | memory.js:250-258 | extractor keywords come first and in order, followed by at most two sticky words |
| Retrieval.FallbackOnlyWhenNothingElse | memory.js:261-264 | with neither keywords nor sticky words the keys are the utterance's fallback words; otherwise they are the keywords followed by the sticky words |
| Retrieval.FallbackSkipsQuestionWords | memory.js:262-263 | "what", "when" and "where" are never fallback keys, and every fallback key is a word of the utterance longer than 3 code units |
| Retrieval.NoAssistantNoSticky | memory.js:251-258 | with no assistant turn no sticky word is added |
| Retrieval.RetrievedContext | memory.js:280-283 | a context exists exactly when the store found something, and its length is the header's plus the joined memories' |
| Retrieval.ContextRoundTrip | memory.js:282 | memories without line breaks are read back from the context block |
| Retrieval.HeaderLength | memory.js:282 | the results header is 32 code units long |
| Retrieval.ContextLength | memory.js:282 | a found context exceeds the deduplication threshold of 50 code units exactly when the joined memories exceed 18 |
| Retrieval.NextLastRetrieved | memory.js:280-283 | defines `window.lastRetrievedMemories` after the search: the new context when something was found, else the earlier value |
| Graph.LeafValue | main.js:194 | defines a leaf's value: its `text` when it is an object, else the leaf itself |
| Graph.BranchHead | main.js:191 | a branch contributes its label when truthy and otherwise its text |
| Graph.LeafValues | main.js:194-195 | each leaf contributes its `text` when it is an object and itself otherwise, in order |
| Graph.Collected | main.js:186-201 | defines the pre-order walk: each root's label, then each branch's head followed by its leaf values |
| Graph.Keywords | main.js:202 | only truthy values survive, upper-cased on ASCII letters; nothing is dropped when all are truthy |
| Graph.KeywordsOne | main.js:202 | one value becomes its upper-cased text when truthy and nothing otherwise |
| Graph.KeywordsAppend | main.js:202 | the filter and upper-casing distribute over concatenation |
| Graph.PushLeaves | main.js:193-196 | the innermost `forEach` appends exactly the leaf values |
| Graph.PushBranches | main.js:190-197 | the middle `forEach` appends each branch head followed by its leaves |
| Graph.FlattenGraph | main.js:186-201 | the nested pushes produce the pre-order walk of the roots |
| Graph.FallbackBranches | main.js:213 | one leafless branch per keyword, labelled with it, in order |
| Graph.FallbackGraph | main.js:210-215 | exactly one root, labelled with the first keyword (unlabelled for an empty list), and one leafless branch per remaining keyword |
| Graph.FallbackBranchesValues | main.js:213 | walking the fallback branches gives their labels back |
| Graph.FallbackGraphRoundTrip | main.js:208-216 | walking the fallback graph of non-empty keywords gives the keywords back |
| Mood.Sanitize | memory.js:380-383 | a falsy mood becomes NEUTRAL; any other becomes its text upper-cased on ASCII letters and trimmed, which has no lower-case ASCII letter, no space at either end and is no longer than the mood |
| Mood.SanitizeTrimsFirst | memory.js:382 | upper-casing and trimming commute, so a truthy mood becomes its trimmed text upper-cased |
| Mood.TrimKeepsUpper | memory.js:382 | trimming keeps an upper-case text upper-case |
| Mood.SanitizeIdempotent | memory.js:380-383 | sanitising twice is sanitising once unless the first pass gave "" |
| Mood.SanitizeBlank | memory.js:380-383 | "  " sanitises to "" and "" to NEUTRAL, so idempotence fails there |
| Mood.SanitizeKeepsUnknown | memory.js:382 | a trimmed, non-empty mood is only upper-cased, whether or not it is a known mood |
| Mood.HappyIsUnknown | main.js:11-21 | "happy" sanitises to HAPPY, which is not a `MOOD_AUDIO` key |
| Mood.SanitizeBranch | memory.js:395 | only the branch's mood changes, to its sanitised form |
| Mood.SanitizeBranches | memory.js:394-397 | every branch sanitised, in order |
| Mood.SanitizeRoot | memory.js:392-398 | the root's label is kept, its mood sanitised, and its branches (when present) sanitised |
| Mood.CleanBranches | memory.js:394-397 | the in-place rewrite of the branch moods equals the sanitising function |
| Mood.SanitizeRoots | memory.js:391-400 | every root cleaned, in order |
| Mood.CleanRoot | memory.js:392-398 | the in-place rewrite of one root equals its sanitising function |
| Mood.CleanRoots | memory.js:391-400 | the `map` over the roots equals the sanitising function |
| Mood.SanitizeRootValues | memory.js:392-398 | cleaning a root leaves its label, heads and leaves unchanged |
| Mood.SanitizeBranchesValues | memory.js:394-397 | cleaning branches leaves their heads and leaves unchanged |
| Mood.CleanRootsKeepWords | memory.js:391-400 | the pre-order walk of the cleaned graph is that of the original |
| Mood.CleanMoodsSanitized | memory.js:391-400 | every root and branch mood of the cleaned graph is a sanitised text |
| Mood.NextMood | main.js:222-242 | QUESTION in question mode; otherwise the reply's known mood, else the current mood, else NEUTRAL; the result is always a `MOOD_AUDIO` key |
| Mood.RawMood | main.js:226 | defines main.js's reading of the reply's mood: upper-cased on ASCII letters and trimmed when truthy, empty otherwise |
| Mood.CuriousIsKnown | memory.js:230 | the Interceptor's CURIOUS mood reads as itself in main.js and is a `MOOD_AUDIO` key |
| Mood.NextMoodIdempotent | main.js:222-242 | applying the rule twice to the same reply is applying it once |
| Mood.NextMoodKeepsKnown | main.js:233-236 | a reply without a known mood keeps a known current mood |
| Mood.UnknownSanitizedMoodFallsBack | main.js:222-242 | a mood that memory.js sanitised to a text outside `MOOD_AUDIO` ends as NEUTRAL |
| Persister.DedupShape | memory.js:442 | defines the deduplication validator: `status` is truthy |
| Persister.Storable | memory.js:418 | defines which entries can be stored: those with a fact that is neither empty nor "null" |
| Persister.DedupActive | memory.js:421 | defines when duplicates are checked: the last retrieved context is longer than 50 code units |
| Persister.IsDuplicate | memory.js:444 | defines a confirmed duplicate: the check settles and its status is exactly "DUPLICATE" |
| Persister.Stores | memory.js:418-448 | defines which entry is saved: a storable one, unless an active check confirmed it a duplicate |
| Persister.Checks | memory.js:421-443 | defines which entry is checked: a storable one while the check is active |
| Persister.StoredPositions | memory.js:417-451 | every listed position lies below the bound and holds an entry that the loop stores |
| Persister.StoredPositionsOrdered | memory.js:417-464 | stored positions strictly increase, and a position is stored exactly when that entry is storable and not a confirmed duplicate under an active check |
| Persister.CheckedPositions | memory.js:421-448 | a position is checked exactly when its entry is storable and the context is longer than 50 code units |
| Persister.NothingChecked | memory.js:421 | with a short context no check runs |
| Persister.Decide | memory.js:418-448 | one entry is checked exactly when storable under an active check, and saved exactly when storable and not a settled DUPLICATE |
| Persister.Persist | memory.js:417-464 | the loop sends exactly the stored positions' entries, in order, and lists exactly the checked positions |
| Persister.StoresExactlyStorable | memory.js:417-464 | when no duplicate is confirmed, exactly the storable entries are stored, in order |
| Persister.ShortContextStoresAll | memory.js:421 | with a context of at most 50 code units nothing is checked and every storable entry is stored |
| Persister.NoDuplicateStoresAll | memory.js:440-447 | only a settled DUPLICATE keeps a storable entry out |
| Pipeline.ReplyShape | memory.js:374 | defines the generation validator: `response` and `mood` are both truthy |
| Pipeline.MemoryOn | memory.js:82-85 | defines when memory runs: a truthy script URL, the text "SKIP" included |
| Pipeline.ChatJson | memory.js:225-232 | an interception yields `{response: question, mood: CURIOUS, roots: []}`; a generated reply yields its parsed value |
| Pipeline.GateOf | memory.js:171 | the gate runs exactly on a present, non-empty entry list |
| Pipeline.Intercepted | memory.js:207-234 | defines an interception: the gate ran and stopped on an entry |
| Pipeline.Turn | memory.js:81-466 | defines the turn: the gate, then either the Interceptor's question or the steps after the gate |
| Pipeline.AfterGate | memory.js:247-466 | defines the steps after the gate: search with memory on, generation, publication and storage |
| Pipeline.Analyse | memory.js:149-165 | the analysis step equals normalising the settled analysis |
| Pipeline.Retrieve | memory.js:247-286 | keys are built only with memory on, and the context is replaced only when the store found something |
| Pipeline.Generate | memory.js:369-374 | succeeds with the settled reply, whose response and mood are truthy and whose text main.js decodes back to itself |
| Pipeline.Publish | memory.js:377-402 | a truthy mood is published sanitised; roots are published with root and branch moods sanitised |
| Pipeline.FinishTurn | memory.js:247-466 | the steps after the gate compute the turn function; a generated reply is one main.js parses back |
| Pipeline.TurnAfterAnalysis | memory.js:171-466 | the gate loop followed by the steps after it computes the turn function for a given analysis |
| Pipeline.ProcessMemoryChat | memory.js:81-466 | the whole turn computes the turn function over the settled answers; a generated reply is one main.js parses back |
| Pipeline.InterceptEndsTurn | memory.js:207-234 | an interception returns the question about the first stopped entry; nothing is searched, published, checked or stored, whatever the other backends say |
| Pipeline.MemoryOffTurn | memory.js:247-416 | without a script URL nothing is searched, checked or stored, and the last context stays |
| Pipeline.FailedGenerationTurn | memory.js:369-374 | an unsettled generation fails the turn with "Generation Failed."; the search has run exactly with memory on; nothing is published or stored |
| Pipeline.StoredSurvive | memory.js:417-464 | storing from a list that survives the gate entry by entry stores storable entries, in order, each surviving from the entry at its position |
| Pipeline.StoredComeFromAnalysis | memory.js:171-464 | every stored entry is a storable analysis entry, in original order, with at most its fact rewritten to a non-empty text |
| Coordinator.CheckAuth | main.js:110-129 | KEY exactly without a truthy stored key; SHEET exactly with one but without a truthy URL; READY exactly with both |
| Coordinator.KeyFormatOk | main.js:134 | defines the key format check: at least 10 code units and the prefix "sk-" |
| Coordinator.SheetValue | main.js:138-144 | "SKIP" is stored as is; any other answer trimmed |
| Coordinator.ReadyMeansMemoryOn | main.js:110-129 | a ready client always runs turns with memory on |
| Coordinator.SheetAnswerEnablesMemory | main.js:138-144 | any non-empty answer to the URL prompt, "SKIP" included, makes the client ready with memory on |
| Coordinator.HasVowel | main.js:312 | defines `/[aeiouAEIOU]/.test`: some character is an ASCII vowel |
| Coordinator.CanRepeat | main.js:312 | defines the characters `(.)\1{3,}` can repeat: a single code unit other than a line terminator |
| Coordinator.HasRun | main.js:312 | defines `/(.)\1{3,}/.test`: four equal repeatable characters start somewhere in the text |
| Coordinator.IsGarbage | main.js:312 | defines `isGarbage`: over 6 code units, and no vowel or a run of four equal characters |
| Coordinator.RunLength | main.js:312 | the run of equal characters ending at k has length between 1 and k+1 |
| Coordinator.RunLengthFour | main.js:312 | a run of at least four ends at k exactly when the four characters up to k are equal |
| Coordinator.RunEndsAtLength | main.js:312 | a match of `(.)\1{3,}` ends at k exactly when the run there is at least four and `s[k]` is a single code unit other than a line terminator |
| Coordinator.ScanRunsFinds | main.js:312 | from k on, the scan succeeds exactly when a match ends at or after k |
| Coordinator.ScanMatchesRegex | main.js:312 | the one-pass scan decides `/(.)\1{3,}/.test` |
| Coordinator.GarbageByScan | main.js:312 | `isGarbage` holds exactly for texts over 6 code units with no vowel or with a run the scan finds |
| Coordinator.Dispatch | main.js:278-331 | defines what one input line does: nothing when blank, the open prompt's answer, or the ready client's command |
| Coordinator.ReadyCommand | main.js:289-329 | defines a ready client's command: the two mode switches, then garbage, then a "/" line spoken, then the chat |
| Coordinator.QuestionTimeAnyCase | main.js:289-297 | "question time" in any letter case turns question mode on |
| Coordinator.DoneOutsideQuestionModeChats | main.js:299-328 | outside question mode "done" goes to the chat |
| Coordinator.SlashIsSpoken | main.js:324-325 | a non-garbage "/" line is spoken without its slash and never reaches the chat |
| Coordinator.SlashGarbageGlitches | main.js:312-325 | a "/" line over 6 characters without vowels glitches instead of being spoken |
| Coordinator.PromptsComeFirst | main.js:285-287 | while a prompt is open every non-empty line answers it, commands included |
| Coordinator.ShownAfter | main.js:185-217 | with roots the view shows the upper-cased truthy values of their walk and those roots; with only keywords it shows them and their one-root fallback graph; otherwise it is unchanged |
| Coordinator.UpdateView | main.js:185-217 | the nested pushes, filter and upper-casing produce that view |
| Coordinator.ViewAgreesWithCleanGraph | main.js:186-202 | the keyword strip is the one memory.js's cleaned graph gives |
| Coordinator.FallbackViewRoundTrip | main.js:208-216 | walking the fallback graph shown gives back exactly the keywords shown |
| Coordinator.InterceptReplyShown | memory.js:225-232 | the Interceptor's payload empties the strip and graph and shows CURIOUS unless question mode holds |
| Coordinator.Recent | main.js:160 | the last n elements, or all when fewer |
| Coordinator.WindowKeepsNewest | main.js:157-160 | after a push the history holds at most 10 turns, the newest in order with the message last, and nothing is dropped below 10 |
| Coordinator.Session.Valid | main.js:157-160 | defines the class invariant: the mood is a `MOOD_AUDIO` key, the history holds at most 11 entries, and the key in use is the stored one |
| Coordinator.Session.constructor | main.js:5-37 | a fresh page: NEUTRAL, both modes off, empty history and view, the stored key in use |
| Coordinator.Session.SaveConfig | main.js:132-147 | a key failing the format check stores nothing; an accepted key is stored and used trimmed; the URL answer is stored as `SheetValue` says; nothing else changes |
| Coordinator.Session.PushUserTurn | main.js:157-160 | the history becomes the window of the old history plus the message |
| Coordinator.Session.Converse | main.js:157-178 | the windowed history goes to the turn; its effects are taken; a failed turn sets DISLIKE; a successful one yields the reply main.js parses |
| Coordinator.Session.ShowReply | main.js:180-242 | the reply is appended to the history, the view updated, and the mood settled by the mood rule |
| Coordinator.Session.HandleChat | main.js:150-276 | with no key nothing changes; otherwise the turn's effects on history, view, mood, context and store log, keeping the class invariant |
| Coordinator.Session.ChatTurn | main.js:157-275 | one turn with a key in use, as in `HandleChat` |
| Coordinator.Session.SwitchMode | main.js:289-320 | "question time" sets question mode and QUESTION, "done" clears it and sets NEUTRAL, garbage sets glitch mode and GLITCH; otherwise nothing changes |
| Coordinator.Session.HandleReady | main.js:289-329 | a ready client's line is handled as its command says |
| Coordinator.Session.HandleInput | main.js:278-331 | one line is dispatched on the trimmed text, the auth state and the mode, and handled accordingly, keeping the class invariant |

## Left out

- Transport: `fetch`, OpenRouter and the Apps Script requests, `localStorage`, and JSON encoding of the requests. They appear only as the oracle parameters described above, and `localStorage` as the `storedKey`/`storedUrl` fields.
- The fire-and-forget `log_chat` requests (memory.js:84-90, 405-411) and the body of `store_atomic`. Only which entries are sent, and in what order, is modelled.
- The prompt texts and what the LLM does with them: keyword quality, what counts as a duplicate, how dates are rewritten.
- The detached async store loop (memory.js:416-465) and its race on `window.lastRetrievedMemories`. The decision is modelled sequentially over the context the turn leaves.
- `initializeSymbiosisSession` (memory.js:9-49): date parsing, the six-hour gap note and the restored history. It writes `window.chatHistory`, which main.js's own `chatHistory` never reads.
- DOM, audio, animation and timers: `addToHistory`, `speak`, `spawnFoodText`, `handleCanvasClick`, `initAudio`, the watchdog interval and text mode (main.js:246-268). Also the `setTimeout` resets of DISLIKE, GLITCH and glitch mode back to NEUTRAL (main.js:102, 318-319). The model keeps the state just after the input is handled.
  - The hooks `window.updateGraphData`, `window.buildKnowledgeGraph` and `window.globalBoidsArray` are taken as present. memory.js publishes the cleaned graph only when `updateGraphData` exists (memory.js:390), and main.js builds the graph only when `buildKnowledgeGraph` and `globalBoidsArray` exist (main.js:204). The fallback graph's `buildKnowledgeGraph` call is unguarded (main.js:216). Without the hook it throws, and the catch sets DISLIKE after the history push.
- `isThinking`, `viewingHistory`, the button and placeholder texts, and the float audio and colour tables. Of those tables only the set of `MOOD_AUDIO` keys is kept.
- The Interceptor's payload goes through `JSON.stringify` and then main.js's decode and `JSON.parse`. The model takes that round trip as the identity on `{response, mood, roots}`.
- Values of the wrong JSON type are treated as absent. This covers a non-array `roots`, `branches`, `leaves` or `keywords`; a non-string label, mood or status; a non-numeric importance; and `Array.isArray` failures. Where JavaScript would instead throw or coerce, the model differs:
  - a `null` leaf makes `leaf.text` throw (main.js:194);
  - a numeric label is upper-cased through `String` (main.js:202);
  - a `null` importance counts as below 4, since `null < 4` is true (memory.js:179);
  - memory.js turns a numeric mood into its digits through `toString` (memory.js:382), and publishes it as the current, root or branch mood (memory.js:386, 392, 395); main.js's `json.mood.toUpperCase()` then throws (main.js:226), after memory.js has published the reply and started the store loop;
  - a truthy `roots` that is not an array makes `.map` throw (memory.js:391), so the turn fails, while the model's turn succeeds;
  - so does a truthy `branches` that is not an array (memory.js:394), and a `null` root, whose `root.mood` assignment throws (memory.js:392).
- Text.Upper: only ASCII letters are upper-cased. JavaScript's `toUpperCase` maps every Unicode letter, including mappings that change the length: é→É, ß→SS, the ligature ﬀ→FF. None of these is modelled. The members below inherit the gap.
- Text.UpperOfUpper: it is a fact about the ASCII mapping. With `toUpperCase`, a text without lower-case ASCII letters can still change, for example "é".
- Graph.Keywords: a keyword is upper-cased on ASCII letters only, so a leaf "café" is shown as "CAFé" where main.js:202 shows "CAFÉ".
- Mood.Sanitize: the upper-casing is ASCII only. The bound `|r| <= |m.value|` holds of the model only: memory.js:382 turns "ß" into "SS", which is longer.
- Mood.RawMood: the upper-casing is ASCII only. A reply mood spelled with a ligature, such as "aﬀectionate" with U+FB00, reads as the key AFFECTIONATE at main.js:226-229 but stays unknown in the model and falls back.
- Persister.StoredPositions: the function's own contract says each listed position is below the bound and stored. That the positions increase and that every stored position is listed is proved in Persister.StoredPositionsOrdered.
- Turns are modelled one at a time. `handleChat` is not awaited (main.js:326), and Enter can start another turn while one runs (main.js:337). Overlapping turns could interleave their history pushes and leave 12 entries, beyond the bound of 11 that `Coordinator.Session.Valid` keeps.
