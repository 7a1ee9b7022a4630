/** The coordinator (main.js): the client's global state, the auth-state
    classifier and configuration saving, the command dispatch of `handleInput`,
    the garbage-input test, and `handleChat`, which windows the history, runs
    one memory turn and shows the reply's graph, keywords and mood. */
module Coordinator {
  import opened Wrappers
  import opened Text
  import opened Decoder
  import opened Retry
  import opened Extraction
  import opened Retrieval
  import opened Graph
  import opened Mood
  import opened Persister
  import opened Pipeline

  // ---------------------------------------------------------------------
  // Configuration
  // ---------------------------------------------------------------------

  /** The answers of `checkAuth`: "KEY", "SHEET" and "READY". */
  datatype AuthState = NeedKey | NeedSheet | Ready

  /** main.js:111-129: the API key is asked for first, then the script URL.
      A stored value counts only when it is truthy. */
  function CheckAuth(storedKey: Option<string>, storedUrl: Option<string>): (s: AuthState)
    ensures s == NeedKey <==> !Truthy(storedKey)
    ensures s == NeedSheet <==> Truthy(storedKey) && !Truthy(storedUrl)
    ensures s == Ready <==> Truthy(storedKey) && Truthy(storedUrl)
  {
    if !Truthy(storedKey) then NeedKey
    else if !Truthy(storedUrl) then NeedSheet
    else Ready
  }

  /** main.js:134: a key is accepted when it has at least 10 UTF-16 code
      units and starts with "sk-". */
  predicate KeyFormatOk(key: string) {
    Utf16Length(key) >= 10 && StartsWith(key, "sk-")
  }

  /** main.js:139-143: what is stored as the script URL. */
  function SheetValue(val: string): (url: string)
    ensures val == "SKIP" ==> url == "SKIP"
    ensures val != "SKIP" ==> url == Trim(val)
  {
    if val == "SKIP" then "SKIP" else Trim(val)
  }

  /** Once the client is ready, every chat turn runs with memory on. */
  lemma ReadyMeansMemoryOn(storedKey: Option<string>, storedUrl: Option<string>)
    requires CheckAuth(storedKey, storedUrl) == Ready
    ensures MemoryOn(storedUrl)
  {
  }

  /** Any answer to the script-URL prompt, "SKIP" included, makes the client
      ready with memory on: "SKIP" is stored as a truthy URL. */
  lemma SheetAnswerEnablesMemory(storedKey: Option<string>, text: string)
    requires Truthy(storedKey) && text != "" && IsTrimmed(text)
    ensures CheckAuth(storedKey, Some(SheetValue(text))) == Ready
    ensures MemoryOn(Some(SheetValue(text)))
  {
    if text != "SKIP" {
      TrimOfTrimmed(text);
    }
  }

  // ---------------------------------------------------------------------
  // Garbage input (main.js:312)
  // ---------------------------------------------------------------------

  /** `/[aeiouAEIOU]/` */
  predicate IsVowel(c: char) {
    c == 'a' || c == 'e' || c == 'i' || c == 'o' || c == 'u'
    || c == 'A' || c == 'E' || c == 'I' || c == 'O' || c == 'U'
  }

  predicate HasVowel(s: string) {
    exists i :: 0 <= i < |s| && IsVowel(s[i])
  }

  /** The characters the regex `.` does not match. */
  predicate IsLineTerminator(c: char) {
    c == '\n' || c == '\r' || c == '\U{2028}' || c == '\U{2029}'
  }

  /** A character `(.)\1{3,}` can repeat. Without the `u` flag the regex
      works on UTF-16 code units: `.` matches one unit other than a line
      terminator, and a character outside the Basic Multilingual Plane is a
      high surrogate followed by a low one, so its units never stand four
      equal in a row. */
  predicate CanRepeat(c: char) {
    IsBmp(c) && !IsLineTerminator(c)
  }

  /** `(.)\1{3,}` matches at i: four equal characters from i on, each a
      single code unit other than a line terminator. */
  predicate RunAt(s: string, i: nat)
    requires i + 3 < |s|
  {
    && CanRepeat(s[i])
    && s[i] == s[i + 1] && s[i + 1] == s[i + 2] && s[i + 2] == s[i + 3]
  }

  predicate HasRun(s: string) {
    exists i: nat :: i + 3 < |s| && RunAt(s, i)
  }

  /** main.js:312: more than 6 UTF-16 code units, and no vowel or a run of
      four equal characters. */
  predicate IsGarbage(text: string) {
    Utf16Length(text) > 6 && (!HasVowel(text) || HasRun(text))
  }

  /** The length of the run of equal characters ending at k. */
  function RunLength(s: string, k: nat): (n: nat)
    requires k < |s|
    ensures 1 <= n <= k + 1
  {
    if k > 0 && s[k - 1] == s[k] then RunLength(s, k - 1) + 1 else 1
  }

  /** A single left-to-right pass keeping the length of the current run, as
      a backtracking-free matcher of `(.)\1{3,}` would. */
  function ScanRuns(s: string, k: nat, run: nat): bool
    requires k < |s|
    decreases |s| - k
  {
    if run >= 4 && CanRepeat(s[k]) then true
    else if k + 1 == |s| then false
    else ScanRuns(s, k + 1, if s[k + 1] == s[k] then run + 1 else 1)
  }

  /** A run of at least four ends at k exactly when the four characters up
      to k are equal. */
  lemma RunLengthFour(s: string, k: nat)
    requires k < |s|
    ensures RunLength(s, k) >= 4 <==> k >= 3 && s[k - 3] == s[k - 2] && s[k - 2] == s[k - 1] && s[k - 1] == s[k]
  {
    if RunLength(s, k) >= 4 {
      assert k > 0 && s[k - 1] == s[k] && RunLength(s, k - 1) >= 3;
      assert k - 1 > 0 && s[k - 2] == s[k - 1] && RunLength(s, k - 2) >= 2;
      assert k - 2 > 0 && s[k - 3] == s[k - 2];
    }
    if k >= 3 && s[k - 3] == s[k - 2] && s[k - 2] == s[k - 1] && s[k - 1] == s[k] {
      assert RunLength(s, k - 2) >= 2;
      assert RunLength(s, k - 1) >= 3;
    }
  }

  /** The match ends at k. */
  predicate RunEndsAt(s: string, k: nat)
    requires k < |s|
  {
    k >= 3 && RunAt(s, k - 3)
  }

  lemma RunEndsAtLength(s: string, k: nat)
    requires k < |s|
    ensures RunEndsAt(s, k) <==> RunLength(s, k) >= 4 && CanRepeat(s[k])
  {
    RunLengthFour(s, k);
  }

  /** From position k on, the scan succeeds exactly when a match ends at or
      after k. */
  lemma {:induction false} ScanRunsFinds(s: string, k: nat)
    requires k < |s|
    ensures ScanRuns(s, k, RunLength(s, k)) <==> exists j :: k <= j < |s| && RunEndsAt(s, j)
    decreases |s| - k
  {
    RunEndsAtLength(s, k);
    if RunLength(s, k) >= 4 && CanRepeat(s[k]) {
      assert RunEndsAt(s, k);
    } else if k + 1 == |s| {
      forall j | k <= j < |s| ensures !RunEndsAt(s, j) {
        assert j == k;
      }
    } else {
      assert RunLength(s, k + 1) == if s[k + 1] == s[k] then RunLength(s, k) + 1 else 1;
      ScanRunsFinds(s, k + 1);
      assert (exists j :: k <= j < |s| && RunEndsAt(s, j)) <==> (exists j :: k + 1 <= j < |s| && RunEndsAt(s, j)) by {
        if exists j :: k <= j < |s| && RunEndsAt(s, j) {
          var j :| k <= j < |s| && RunEndsAt(s, j);
          assert j != k;
        }
      }
    }
  }

  /** The one-pass scan is an implementation of `/(.)\1{3,}/.test`. */
  lemma ScanMatchesRegex(s: string)
    requires |s| > 0
    ensures ScanRuns(s, 0, 1) <==> HasRun(s)
  {
    ScanRunsFinds(s, 0);
    if HasRun(s) {
      var i: nat :| i + 3 < |s| && RunAt(s, i);
      assert RunEndsAt(s, i + 3);
    }
    if exists j :: 0 <= j < |s| && RunEndsAt(s, j) {
      var j :| 0 <= j < |s| && RunEndsAt(s, j);
      var i: nat := j - 3;
      assert i + 3 < |s| && RunAt(s, i);
    }
  }

  /** `isGarbage` through the scan. */
  lemma GarbageByScan(text: string)
    ensures IsGarbage(text) <==> Utf16Length(text) > 6 && (!HasVowel(text) || ScanRuns(text, 0, 1))
  {
    if |text| > 0 {
      ScanMatchesRegex(text);
    }
  }

  // ---------------------------------------------------------------------
  // Command dispatch (main.js:278-331)
  // ---------------------------------------------------------------------

  /** What `handleInput` does with one line of input. */
  datatype Command =
    | Ignore
    | SaveKey(value: string)
    | SaveSheet(value: string)
    | QuestionOn
    | QuestionOff
    | Glitch(text: string)
    | Speak(words: string)
    | Chat(text: string)

  /** main.js:280-329: the input is trimmed; empty input is ignored; the
      configuration prompts come first; then the commands of a ready client. */
  function Dispatch(raw: string, auth: AuthState, questionMode: bool): (c: Command)
  {
    var text := Trim(raw);
    if text == "" then Ignore
    else match auth
      case NeedKey => SaveKey(text)
      case NeedSheet => SaveSheet(text)
      case Ready => ReadyCommand(text, questionMode)
  }

  /** main.js:289-329 on a trimmed, non-empty line: the two mode commands,
      then garbage, then the "/" prefix, spoken without its slash; everything
      else goes to the chat. */
  function ReadyCommand(text: string, questionMode: bool): (c: Command)
  {
    if Lower(text) == "question time" then QuestionOn
    else if Lower(text) == "done" && questionMode then QuestionOff
    else if IsGarbage(text) then Glitch(text)
    else if StartsWith(text, "/") then Speak(Substring(text, 1, |text|))
    else Chat(text)
  }

  /** "question time" switches question mode on in any letter case and in
      either mode. */
  lemma QuestionTimeAnyCase(text: string, questionMode: bool)
    requires Lower(text) == "question time"
    ensures ReadyCommand(text, questionMode) == QuestionOn
  {
  }

  /** Outside question mode "done" is not a command: it is sent to the chat. */
  lemma DoneOutsideQuestionModeChats(text: string)
    requires Lower(text) == "done"
    ensures ReadyCommand(text, false) == Chat(text)
  {
    assert |text| == 4;
    assert LowerChar(text[0]) == 'd';
    assert text[0] != '/';
  }

  /** A "/" line that is not garbage is spoken without its slash and never
      reaches the chat. */
  lemma SlashIsSpoken(text: string, questionMode: bool)
    requires StartsWith(text, "/") && !IsGarbage(text)
    ensures ReadyCommand(text, questionMode) == Speak(text[1..])
  {
    assert Lower(text)[0] == '/';
  }

  /** Garbage is tested before the slash: a "/" line of more than 6
      characters without a vowel glitches instead of being spoken. */
  lemma SlashGarbageGlitches(text: string, questionMode: bool)
    requires StartsWith(text, "/") && |text| > 6 && !HasVowel(text)
    ensures ReadyCommand(text, questionMode) == Glitch(text)
  {
    assert Lower(text)[0] == '/';
  }

  /** While a prompt is open every line is a configuration answer, the
      commands included. */
  lemma PromptsComeFirst(raw: string, questionMode: bool)
    requires Trim(raw) != ""
    ensures Dispatch(raw, NeedKey, questionMode) == SaveKey(Trim(raw))
    ensures Dispatch(raw, NeedSheet, questionMode) == SaveSheet(Trim(raw))
  {
  }

  // ---------------------------------------------------------------------
  // Reply display
  // ---------------------------------------------------------------------

  /** The keyword strip and the graph on screen. */
  datatype View = View(keywords: seq<string>, graph: Option<seq<Root>>)

  /** main.js:185-217: a reply with roots shows the upper-cased truthy
      labels of its pre-order walk and builds its graph; one with only a
      keyword list shows the list and builds the fallback graph; any other
      reply leaves the view alone. */
  function ShownAfter(json: ReplyJson, view: View): (next: View)
    ensures json.roots.Some? ==> next.graph == json.roots && next.keywords == Graph.Keywords(Collected(json.roots.value))
    ensures json.roots.Some? ==> |next.keywords| <= |Collected(json.roots.value)|
    ensures json.roots.Some? ==> forall i :: 0 <= i < |next.keywords| ==> next.keywords[i] != "" && IsUpper(next.keywords[i])
    ensures json.roots.None? && json.keywords.Some? ==> next.keywords == json.keywords.value && next.graph == Some(FallbackGraph(json.keywords.value))
    ensures json.roots.None? && json.keywords.Some? ==> next.graph.Some? && |next.graph.value| == 1
    ensures json.roots.None? && json.keywords.None? ==> next == view
  {
    if json.roots.Some? then View(Graph.Keywords(Collected(json.roots.value)), json.roots)
    else if json.keywords.Some? then View(json.keywords.value, Some(FallbackGraph(json.keywords.value)))
    else view
  }

  /** main.js:185-217 as the code runs it: the nested pushes, then the
      filter and upper-casing. */
  method UpdateView(json: ReplyJson, view: View) returns (next: View)
    ensures next == ShownAfter(json, view)
  {
    next := view;
    if json.roots.Some? {
      var flat := FlattenGraph(json.roots.value);
      next := View(Graph.Keywords(flat), json.roots);
    } else if json.keywords.Some? {
      next := View(json.keywords.value, Some(FallbackGraph(json.keywords.value)));
    }
  }

  /** The keyword strip main.js shows is the one memory.js's cleaned graph
      would give: sanitising moods changes no label, head or leaf. */
  lemma ViewAgreesWithCleanGraph(json: ReplyJson, view: View)
    requires json.roots.Some?
    ensures ShownAfter(json, view).keywords == Graph.Keywords(Collected(SanitizeRoots(json.roots.value)))
  {
    CleanRootsKeepWords(json.roots.value);
  }

  /** Walking the fallback graph gives back exactly the keywords shown. */
  lemma FallbackViewRoundTrip(json: ReplyJson, view: View)
    requires json.roots.None? && json.keywords.Some? && |json.keywords.value| >= 1
    requires forall j :: 0 <= j < |json.keywords.value| ==> json.keywords.value[j] != ""
    ensures var next := ShownAfter(json, view);
            next.graph.Some? && Collected(next.graph.value) == Present(next.keywords)
  {
    FallbackGraphRoundTrip(json.keywords.value);
  }

  /** The Interceptor's payload empties the keyword strip and the graph, and
      its CURIOUS mood is shown unless question mode holds. */
  lemma InterceptReplyShown(question: string, view: View, questionMode: bool, current: string)
    ensures ShownAfter(ChatJson(Asked(question)), view) == View([], Some([]))
    ensures NextMood(questionMode, current, ChatJson(Asked(question)).mood) == if questionMode then "QUESTION" else "CURIOUS"
  {
    CuriousIsKnown();
  }

  // ---------------------------------------------------------------------
  // History window (main.js:157-160)
  // ---------------------------------------------------------------------

  const HistoryLimit: nat := 10

  /** `xs.slice(-n)` when `xs` is longer than n: its last n elements. */
  function Recent<T>(xs: seq<T>, n: nat): (r: seq<T>)
    ensures |r| == if |xs| <= n then |xs| else n
    ensures r == xs[|xs| - |r|..]
  {
    if |xs| > n then xs[|xs| - n..] else xs
  }

  /** After a message is pushed the history holds at most 10 turns: the most
      recent ones in their order, the message last, and nothing dropped
      while fewer than 10 were held. */
  lemma WindowKeepsNewest(history: seq<Turn>, message: Turn)
    ensures var w := Recent(history + [message], HistoryLimit);
            && |w| <= HistoryLimit
            && w[|w| - 1] == message
            && w == (history + [message])[|history| + 1 - |w|..]
            && (|history| < HistoryLimit ==> w == history + [message])
  {
    var w := Recent(history + [message], HistoryLimit);
    assert w[|w| - 1] == (history + [message])[|history|];
  }

  // ---------------------------------------------------------------------
  // The client
  // ---------------------------------------------------------------------

  /** The state main.js keeps between inputs: `USER_API_KEY`, the two
      stored configuration values, `window.currentMood`, the two mode flags,
      `chatHistory`, `window.lastRetrievedMemories`, what is on screen, the
      graph memory.js last published and every entry sent to the store. */
  class Session {
    var apiKey: string
    var storedKey: Option<string>
    var storedUrl: Option<string>
    var currentMood: string
    var questionMode: bool
    var glitchMode: bool
    var history: seq<Turn>
    var lastRetrieved: Option<string>
    var view: View
    var memoryGraph: Option<seq<Root>>
    var sentToStore: seq<Entry>

    /** The mood is a `MOOD_AUDIO` key, the history holds at most one reply
        beyond the window, and the key in use is the stored one. */
    predicate Valid()
      reads this
    {
      && currentMood in MoodKeys
      && |history| <= HistoryLimit + 1
      && apiKey == storedKey.GetOr("")
    }

    /** main.js:5-7, 34 and 37: a fresh page with what local storage holds. */
    constructor(storedKey: Option<string>, storedUrl: Option<string>)
      ensures Valid()
      ensures this.storedKey == storedKey && this.storedUrl == storedUrl && apiKey == storedKey.GetOr("")
      ensures currentMood == "NEUTRAL" && !questionMode && !glitchMode
      ensures history == [] && lastRetrieved == None && view == View([], None) && memoryGraph == None && sentToStore == []
    {
      apiKey := storedKey.GetOr("");
      this.storedKey := storedKey;
      this.storedUrl := storedUrl;
      currentMood := "NEUTRAL";
      questionMode := false;
      glitchMode := false;
      history := [];
      lastRetrieved := None;
      view := View([], None);
      memoryGraph := None;
      sentToStore := [];
    }

    /** main.js:132-147: a key of the wrong format is refused and nothing is
        stored; an accepted key is stored trimmed and used from then on. A
        script URL is stored as given for "SKIP" and trimmed otherwise. */
    method SaveConfig(val: string, kind: AuthState)
      modifies this
      requires Valid()
      ensures Valid()
      ensures unchanged(this`history, this`lastRetrieved, this`view, this`memoryGraph, this`sentToStore)
      ensures unchanged(this`currentMood, this`questionMode, this`glitchMode)
      ensures kind == NeedKey && KeyFormatOk(val) ==> storedKey == Some(Trim(val)) && apiKey == Trim(val)
      ensures kind == NeedKey && !KeyFormatOk(val) ==> storedKey == old(storedKey) && apiKey == old(apiKey)
      ensures kind != NeedKey ==> storedKey == old(storedKey) && apiKey == old(apiKey)
      ensures storedUrl == if kind == NeedSheet then Some(SheetValue(val)) else old(storedUrl)
    {
      if kind == NeedKey {
        if Utf16Length(val) < 10 || !StartsWith(val, "sk-") {
          return;
        }
        storedKey := Some(Trim(val));
        apiKey := Trim(val);
      } else if kind == NeedSheet {
        storedUrl := Some(SheetValue(val));
      }
    }

    /** main.js:157-160: push the user's message and keep the last 10 turns. */
    method PushUserTurn(text: string)
      modifies this`history
      ensures history == Recent(old(history) + [Turn(User, text)], HistoryLimit)
      ensures unchanged(this`apiKey, this`storedKey, this`storedUrl)
      ensures unchanged(this`currentMood, this`questionMode, this`glitchMode)
      ensures unchanged(this`lastRetrieved, this`view, this`memoryGraph, this`sentToStore)
    {
      history := history + [Turn(User, text)];
      if |history| > HistoryLimit {
        history := history[|history| - HistoryLimit..];
      }
    }

    /** What one chat turn does to the client, given the answers the
        backends settle on: the windowed history goes to the memory turn;
        the last retrieved context, the store log and memory.js's graph take
        the turn's effects; a failed turn sets DISLIKE; otherwise the reply
        is appended to the history, shown, and its mood settled. */
    twostate predicate Chatted(turn: Turns, text: string)
      reads this
    {
      var h := Recent(old(history) + [Turn(User, text)], HistoryLimit);
      var r := turn(text, h, old(storedUrl), old(lastRetrieved));
      && unchanged(this`apiKey, this`storedKey, this`storedUrl)
      && unchanged(this`questionMode, this`glitchMode)
      && lastRetrieved == r.fx.lastRetrieved
      && sentToStore == old(sentToStore) + r.fx.stored
      && memoryGraph == (if r.fx.graph.Some? then r.fx.graph else old(memoryGraph))
      && (r.out.Failure? ==> currentMood == "DISLIKE" && history == h && view == old(view))
      && (r.out.Success? ==>
            var json := ChatJson(r.out.value);
            && json.response.Some?
            && history == h + [Turn(Assistant, json.response.value)]
            && view == ShownAfter(json, old(view))
            && currentMood == NextMood(old(questionMode), r.fx.mood.GetOr(old(currentMood)), json.mood))
    }

    /** main.js:157-170 with the memory turn: the user's message is pushed
        and the history windowed, the turn runs on that history, and its
        effects are taken: the last retrieved context, the entries sent to
        the store, memory.js's graph and mood. `json` is the reply main.js
        goes on with; a failed turn gives none and sets DISLIKE. For a
        generated reply main.js decodes and parses memory.js's text again,
        which gives back the reply memory.js validated. */
    method Converse(b: Backends, ghost v: Verdicts, ghost duplicate: nat -> bool, ghost turn: Turns, text: string)
      returns (json: Option<ReplyJson>)
      modifies this`history, this`lastRetrieved, this`sentToStore, this`memoryGraph, this`currentMood
      requires SettledBy(v, b.gate) && DecidedBy(duplicate, b.dedup) && TurnsBy(turn, b, v, duplicate)
      ensures var h := Recent(old(history) + [Turn(User, text)], HistoryLimit);
              var r := turn(text, h, storedUrl, old(lastRetrieved));
              && history == h
              && lastRetrieved == r.fx.lastRetrieved
              && sentToStore == old(sentToStore) + r.fx.stored
              && memoryGraph == (if r.fx.graph.Some? then r.fx.graph else old(memoryGraph))
              && json == (if r.out.Success? then Some(ChatJson(r.out.value)) else None)
              && currentMood == (if r.out.Success? then r.fx.mood.GetOr(old(currentMood)) else "DISLIKE")
      ensures json.Some? ==> json.value.response.Some?
    {
      PushUserTurn(text);
      var out, fx := ProcessMemoryChat(b, v, duplicate, text, history, storedUrl, lastRetrieved);
      lastRetrieved := fx.lastRetrieved;
      sentToStore := sentToStore + fx.stored;
      if fx.mood.Some? {
        currentMood := fx.mood.value;
      }
      if fx.graph.Some? {
        memoryGraph := fx.graph;
      }
      if out.Failure? {
        currentMood := "DISLIKE";
        return None;
      }
      match out.value {
        case Asked(_) =>
          json := Some(ChatJson(out.value));
        case Answered(p) =>
          json := b.parseReply(DecodeReply(p.cleaned));
      }
    }

    /** main.js:180-242: the reply is appended to the history, its graph and
        keywords shown, and the mood settled. */
    method ShowReply(json: ReplyJson)
      modifies this`history, this`view, this`currentMood
      requires json.response.Some?
      ensures history == old(history) + [Turn(Assistant, json.response.value)]
      ensures view == ShownAfter(json, old(view))
      ensures currentMood == NextMood(questionMode, old(currentMood), json.mood)
    {
      history := history + [Turn(Assistant, json.response.value)];
      view := UpdateView(json, view);
      currentMood := NextMood(questionMode, currentMood, json.mood);
    }

    /** main.js:150-243: one chat turn, run only when a key is in use. */
    method HandleChat(b: Backends, ghost v: Verdicts, ghost duplicate: nat -> bool, ghost turn: Turns, text: string)
      modifies this
      requires SettledBy(v, b.gate) && DecidedBy(duplicate, b.dedup) && TurnsBy(turn, b, v, duplicate)
      requires Valid()
      ensures Valid()
      ensures old(apiKey) == "" ==> unchanged(this)
      ensures old(apiKey) != "" ==> Chatted(turn, text)
    {
      if apiKey == "" {
        return;
      }
      ChatTurn(b, v, duplicate, turn, text);
    }

    /** main.js:157-242: the turn itself, once a key is in use. */
    method ChatTurn(b: Backends, ghost v: Verdicts, ghost duplicate: nat -> bool, ghost turn: Turns, text: string)
      modifies this`history, this`lastRetrieved, this`sentToStore, this`memoryGraph, this`currentMood, this`view
      requires SettledBy(v, b.gate) && DecidedBy(duplicate, b.dedup) && TurnsBy(turn, b, v, duplicate)
      requires Valid()
      ensures Valid()
      ensures Chatted(turn, text)
    {
      var json := Converse(b, v, duplicate, turn, text);
      if json.Some? {
        ShowReply(json.value);
      }
    }

    /** main.js:289-323: the mode commands and garbage set the flags and
        the mood; "/" lines change nothing here. */
    method SwitchMode(cmd: Command)
      modifies this`questionMode, this`glitchMode, this`currentMood
      requires !cmd.Chat?
      ensures cmd.QuestionOn? ==> questionMode && currentMood == "QUESTION" && glitchMode == old(glitchMode)
      ensures cmd.QuestionOff? ==> !questionMode && currentMood == "NEUTRAL" && glitchMode == old(glitchMode)
      ensures cmd.Glitch? ==> glitchMode && currentMood == "GLITCH" && questionMode == old(questionMode)
      ensures !cmd.QuestionOn? && !cmd.QuestionOff? && !cmd.Glitch? ==> unchanged(this`questionMode, this`glitchMode, this`currentMood)
    {
      match cmd {
        case QuestionOn =>
          questionMode := true;
          currentMood := "QUESTION";
        case QuestionOff =>
          questionMode := false;
          currentMood := "NEUTRAL";
        case Glitch(_) =>
          glitchMode := true;
          currentMood := "GLITCH";
        case _ =>
      }
    }

    /** What handling `cmd` does to the client (main.js:286-329). */
    twostate predicate Handled(cmd: Command, turn: Turns)
      reads this
    {
      match cmd
      case Ignore => unchanged(this)
      case Speak(_) => unchanged(this)
      case SaveKey(key) =>
        && unchanged(this`history, this`lastRetrieved, this`view, this`memoryGraph, this`sentToStore)
        && unchanged(this`storedUrl, this`currentMood, this`questionMode, this`glitchMode)
        && (KeyFormatOk(key) ==> storedKey == Some(key) && apiKey == key)
        && (!KeyFormatOk(key) ==> unchanged(this`storedKey, this`apiKey))
      case SaveSheet(url) =>
        && unchanged(this`history, this`lastRetrieved, this`view, this`memoryGraph, this`sentToStore)
        && unchanged(this`apiKey, this`storedKey, this`currentMood, this`questionMode, this`glitchMode)
        && storedUrl == Some(SheetValue(url))
      case QuestionOn =>
        && unchanged(this`history, this`lastRetrieved, this`view, this`memoryGraph, this`sentToStore)
        && unchanged(this`apiKey, this`storedKey, this`storedUrl, this`glitchMode)
        && questionMode && currentMood == "QUESTION"
      case QuestionOff =>
        && unchanged(this`history, this`lastRetrieved, this`view, this`memoryGraph, this`sentToStore)
        && unchanged(this`apiKey, this`storedKey, this`storedUrl, this`glitchMode)
        && !questionMode && currentMood == "NEUTRAL"
      case Glitch(_) =>
        && unchanged(this`history, this`lastRetrieved, this`view, this`memoryGraph, this`sentToStore)
        && unchanged(this`apiKey, this`storedKey, this`storedUrl, this`questionMode)
        && glitchMode && currentMood == "GLITCH"
      case Chat(text) => Chatted(turn, text)
    }

    /** main.js:289-329: a line from a ready client. */
    method HandleReady(b: Backends, ghost v: Verdicts, ghost duplicate: nat -> bool, ghost turn: Turns, text: string)
      returns (cmd: Command)
      modifies this
      requires SettledBy(v, b.gate) && DecidedBy(duplicate, b.dedup) && TurnsBy(turn, b, v, duplicate)
      requires Valid() && apiKey != ""
      ensures Valid()
      ensures cmd == ReadyCommand(text, old(questionMode))
      ensures Handled(cmd, turn)
    {
      cmd := ReadyCommand(text, questionMode);
      if cmd.Chat? {
        HandleChat(b, v, duplicate, turn, cmd.text);
      } else {
        SwitchMode(cmd);
      }
    }

    /** main.js:278-331: one line of input, dispatched as `Dispatch` says. */
    method HandleInput(b: Backends, ghost v: Verdicts, ghost duplicate: nat -> bool, ghost turn: Turns, raw: string)
      returns (cmd: Command)
      modifies this
      requires SettledBy(v, b.gate) && DecidedBy(duplicate, b.dedup) && TurnsBy(turn, b, v, duplicate)
      requires Valid()
      ensures Valid()
      ensures cmd == Dispatch(raw, CheckAuth(old(storedKey), old(storedUrl)), old(questionMode))
      ensures Handled(cmd, turn)
    {
      var text := Trim(raw);
      if text == "" {
        return Ignore;
      }
      var auth := CheckAuth(storedKey, storedUrl);
      if auth == NeedKey {
        TrimOfTrimmed(text);
        SaveConfig(text, NeedKey);
        return SaveKey(text);
      }
      if auth == NeedSheet {
        SaveConfig(text, NeedSheet);
        return SaveSheet(text);
      }
      cmd := HandleReady(b, v, duplicate, turn, text);
    }
  }
}
