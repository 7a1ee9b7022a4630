/** Step 1 and step 2 of processMemoryChat (memory.js:148-244): the analysis of
    the user's message into search keywords and memory candidates, and the
    Timekeeper/Interceptor gate that each significant candidate must pass. */
module Extraction {
  import opened Wrappers
  import opened Text
  import opened Retry

  /** A memory candidate as the extractor returns it. `fact` may be missing;
      an `importance` that is missing (undefined) is not below 4 in
      JavaScript, so such an entry is not trivial. */
  datatype Entry = Entry(fact: Option<string>, entities: string, topics: string, importance: Option<int>)

  /** `search_keywords` as the extractor returns it: a list or one string. */
  datatype Keywords = KeywordList(words: seq<string>) | KeywordText(text: string)

  /** The parsed analysis JSON. */
  datatype AnalysisJson = AnalysisJson(searchKeywords: Option<Keywords>, entries: Option<seq<Entry>>)

  /** The analysis validator (memory.js:156): `search_keywords` is a list or a string. */
  predicate AnalysisShape(a: AnalysisJson) {
    a.searchKeywords.Some?
  }

  /** The analysis after normalisation: keywords are always a list. */
  datatype Analysis = Analysis(searchKeywords: seq<string>, entries: Option<seq<Entry>>)

  /** `parts.map(s => s.trim())` */
  function TrimAll(parts: seq<string>): (r: seq<string>)
    ensures |r| == |parts| && forall i :: 0 <= i < |parts| ==> r[i] == Trim(parts[i])
  {
    seq(|parts|, i requires 0 <= i < |parts| => Trim(parts[i]))
  }

  /** memory.js:161-163: a keyword string is split on `,` and every piece is
      trimmed; a list is left as it is. */
  function NormalizeKeywords(k: Keywords): (r: seq<string>)
    ensures k.KeywordList? ==> r == k.words
    ensures k.KeywordText? ==>
              && |r| == |Split(k.text, ',')| == Count(k.text, ',') + 1
              && (forall i :: 0 <= i < |r| ==> r[i] == Trim(Split(k.text, ',')[i]))
              && forall i :: 0 <= i < |r| ==> IsTrimmed(r[i]) && ',' !in r[i]
  {
    match k
    case KeywordList(ws) => ws
    case KeywordText(t) => TrimAll(Split(t, ','))
  }

  /** A list of trimmed, comma-free keywords survives being sent as one
      comma-joined string: normalisation gives the list back. */
  lemma NormalizeOfJoin(ws: seq<string>)
    requires |ws| >= 1
    requires forall i :: 0 <= i < |ws| ==> IsTrimmed(ws[i]) && ',' !in ws[i]
    ensures NormalizeKeywords(KeywordText(Join(ws, ','))) == ws
  {
    SplitOfJoin(ws, ',');
    forall i | 0 <= i < |ws| ensures Trim(ws[i]) == ws[i] {
      TrimOfTrimmed(ws[i]);
    }
  }

  /** An empty keyword string becomes one empty keyword, not an empty list. */
  lemma EmptyKeywordText()
    ensures NormalizeKeywords(KeywordText("")) == [""]
  {
    assert Split("", ',') == [""];
    assert Trim("") == "";
  }

  /** The analysis the rest of the turn sees (memory.js:149, 160-163, 250):
      the default `{ search_keywords: [], entries: [] }` when the analysis
      request failed, and otherwise the parsed one with its keywords normalised
      (missing keywords read as `[]`). */
  function Analyze(fetched: Option<AnalysisJson>): (a: Analysis)
    ensures fetched.None? ==> a == Analysis([], Some([]))
    ensures fetched.Some? ==> a.entries == fetched.value.entries
    ensures fetched.Some? && fetched.value.searchKeywords.None? ==> a.searchKeywords == []
    ensures fetched.Some? && fetched.value.searchKeywords.Some? && fetched.value.searchKeywords.value.KeywordList? ==>
              a.searchKeywords == fetched.value.searchKeywords.value.words
    ensures fetched.Some? && fetched.value.searchKeywords.Some? && fetched.value.searchKeywords.value.KeywordText? ==>
              var pieces := Split(fetched.value.searchKeywords.value.text, ',');
              |a.searchKeywords| == |pieces| && forall i :: 0 <= i < |pieces| ==> a.searchKeywords[i] == Trim(pieces[i])
  {
    match fetched
    case None => Analysis([], Some([]))
    case Some(j) =>
      var words := match j.searchKeywords
                   case Some(k) => NormalizeKeywords(k)
                   case None => [];
      Analysis(words, j.entries)
  }

  // ---------------------------------------------------------------------
  // The Timekeeper and the Interceptor
  // ---------------------------------------------------------------------

  /** `{ valid, rewritten_fact }` */
  datatype TimeJson = TimeJson(valid: Option<bool>, rewrittenFact: Option<string>)

  /** The Timekeeper validator: `typeof d.valid === 'boolean'`. */
  predicate TimeShape(t: TimeJson) {
    t.valid.Some?
  }

  /** `{ response }` */
  datatype InterceptJson = InterceptJson(response: Option<string>)

  /** The Interceptor validator: `d.response` is truthy. */
  predicate InterceptShape(i: InterceptJson) {
    i.response.Some? && i.response.value != ""
  }

  /** The completion backends of the gate: the reply to attempt k of the
      request about entry j, and the JSON parsers of the two answers. */
  datatype Gatekeepers = Gatekeepers(
    timekeeper: nat -> nat -> Reply,
    parseTime: string -> Option<TimeJson>,
    interceptor: nat -> nat -> Reply,
    parseIntercept: string -> Option<InterceptJson>)

  /** memory.js:179: importance 1-3 passes without a check. */
  predicate Trivial(e: Entry) {
    e.importance.Some? && e.importance.value < 4
  }

  /** memory.js:205: `entry.fact = rewritten_fact || entry.fact`. */
  function Rewrite(e: Entry, rewritten: Option<string>): (r: Entry)
    ensures r.(fact := e.fact) == e
    ensures r.fact != e.fact ==> r.fact == rewritten && rewritten.Some? && rewritten.value != ""
    ensures rewritten.Some? && rewritten.value != "" ==> r.fact == rewritten
  {
    if rewritten.Some? && rewritten.value != "" then e.(fact := rewritten) else e
  }

  /** The Timekeeper's settled verdict on entry j, if its request succeeded. */
  function TimeVerdict(g: Gatekeepers, j: nat): Option<TimeJson> {
    match Fetch(g.timekeeper(j), g.parseTime, TimeShape)
    case Some(p) => Some(p.parsed)
    case None => None
  }

  /** The Interceptor's question about entry j, if its request succeeded. */
  function Question(g: Gatekeepers, j: nat): (q: Option<string>)
    ensures q.Some? ==> q.value != ""
  {
    FetchAccepted(g.interceptor(j), g.parseIntercept, InterceptShape);
    match Fetch(g.interceptor(j), g.parseIntercept, InterceptShape)
    case Some(p) => Some(p.parsed.response.value)
    case None => None
  }

  /** What happens to one entry: it is kept, possibly with its fact
      rewritten, or the turn stops to ask the user a question. */
  datatype Judgement = Keep(entry: Entry) | Stop(question: string)

  /** memory.js:179-240 for one entry. A trivial entry and an entry whose
      check failed are kept as they are; a valid verdict keeps it with the
      rewritten fact; any other verdict calls the Interceptor, whose failure
      lands in the same catch and keeps the entry. */
  function Judge(e: Entry, time: Option<TimeJson>, question: Option<string>): (d: Judgement)
    ensures d.Keep? ==> d.entry.(fact := e.fact) == e
    ensures Trivial(e) || time.None? ==> d == Keep(e)
    ensures !Trivial(e) && time.Some? && time.value.valid == Some(true) ==> d == Keep(Rewrite(e, time.value.rewrittenFact))
    ensures !Trivial(e) && time.Some? && time.value.valid != Some(true) && question.None? ==> d == Keep(e)
    ensures d.Stop? <==> !Trivial(e) && time.Some? && time.value.valid != Some(true) && question.Some?
  {
    if Trivial(e) then Keep(e)
    else match time
      case None => Keep(e)
      case Some(t) =>
        if t.valid == Some(true) then Keep(Rewrite(e, t.rewrittenFact))
        else match question
          case None => Keep(e)
          case Some(q) => Stop(q)
  }

  /** The settled answers of the gate's two requests about each entry: the
      Timekeeper's verdict and the Interceptor's question, if the request
      succeeded. */
  datatype Verdicts = Verdicts(time: nat -> Option<TimeJson>, question: nat -> Option<string>)

  /** The answers the backends settle on. */
  function Settled(g: Gatekeepers): Verdicts {
    Verdicts((j: nat) => TimeVerdict(g, j), (j: nat) => Question(g, j))
  }

  /** The judgement on entry j of `entries`. */
  function JudgeAt(v: Verdicts, entries: seq<Entry>, j: nat): Judgement
    requires j < |entries|
  {
    Judge(entries[j], v.time(j), v.question(j))
  }

  /** The gate's result: every entry kept, or a question asked about entry `at`. */
  datatype GateOutcome = Pass(kept: seq<Entry>) | Intercept(question: string, at: nat)

  /** The gate over the first n entries. */
  function GateUpTo(v: Verdicts, entries: seq<Entry>, n: nat): GateOutcome
    requires n <= |entries|
  {
    if n == 0 then Pass([])
    else match GateUpTo(v, entries, n - 1)
      case Intercept(q, at) => Intercept(q, at)
      case Pass(kept) =>
        match JudgeAt(v, entries, n - 1)
        case Keep(e) => Pass(kept + [e])
        case Stop(q) => Intercept(q, n - 1)
  }

  function Gate(v: Verdicts, entries: seq<Entry>): GateOutcome {
    GateUpTo(v, entries, |entries|)
  }

  /** Positions below n of the entries the Timekeeper is asked about. */
  function Significant(entries: seq<Entry>, n: nat): (r: seq<nat>)
    requires n <= |entries|
    ensures forall j: nat :: j in r <==> j < n && !Trivial(entries[j])
  {
    if n == 0 then []
    else Significant(entries, n - 1) + (if Trivial(entries[n - 1]) then [] else [n - 1])
  }

  /** Once the gate intercepts, later entries change nothing. */
  lemma {:induction false} InterceptIsFinal(v: Verdicts, entries: seq<Entry>, n: nat, m: nat)
    requires n <= m <= |entries| && GateUpTo(v, entries, n).Intercept?
    ensures GateUpTo(v, entries, m) == GateUpTo(v, entries, n)
    decreases m - n
  {
    if n < m {
      InterceptIsFinal(v, entries, n, m - 1);
    }
  }

  /** `v` holds the answers the backends of `g` settle on. */
  ghost predicate SettledBy(v: Verdicts, g: Gatekeepers) {
    forall j: nat {:trigger TimeVerdict(g, j)} {:trigger Question(g, j)} ::
      v.time(j) == TimeVerdict(g, j) && v.question(j) == Question(g, j)
  }

  lemma SettledIsSettled(g: Gatekeepers)
    ensures SettledBy(Settled(g), g)
  {
  }

  /** memory.js:197-240: the Timekeeper request about a significant entry j
      and, on a verdict other than valid, the Interceptor request. */
  method CheckEntry(g: Gatekeepers, entry: Entry, j: nat) returns (d: Judgement)
    requires !Trivial(entry)
    ensures d == Judge(entry, TimeVerdict(g, j), Question(g, j))
  {
    var check, _ := FetchWithRetry(g.timekeeper(j), g.parseTime, TimeShape, "Timekeeper");
    if check.Failure? {
      return Keep(entry);
    }
    if check.value.parsed.valid == Some(true) {
      return Keep(Rewrite(entry, check.value.parsed.rewrittenFact));
    }
    var intercept, _ := FetchWithRetry(g.interceptor(j), g.parseIntercept, InterceptShape, "Interceptor");
    if intercept.Failure? {
      return Keep(entry);
    }
    FetchAccepted(g.interceptor(j), g.parseIntercept, InterceptShape);
    return Stop(intercept.value.parsed.response.value);
  }

  /** One step of the walk: entry j is passed through untouched when trivial
      and judged by the gatekeepers otherwise. `asked` tells whether the
      Timekeeper was consulted. */
  method GateStep(g: Gatekeepers, ghost v: Verdicts, entries: seq<Entry>, j: nat, kept: seq<Entry>)
    returns (next: GateOutcome, asked: bool)
    requires SettledBy(v, g)
    requires j < |entries| && GateUpTo(v, entries, j) == Pass(kept)
    ensures next == GateUpTo(v, entries, j + 1)
    ensures asked <==> !Trivial(entries[j])
    ensures next.Intercept? ==> next.at == j && asked
  {
    var entry := entries[j];
    if entry.importance.Some? && entry.importance.value < 4 {
      return Pass(kept + [entry]), false;
    }
    var d := CheckEntry(g, entry, j);
    if d.Stop? {
      return Intercept(d.question, j), true;
    }
    return Pass(kept + [d.entry]), true;
  }

  /** memory.js:171-244. Walks the entries in order, consults the Timekeeper
      on each significant one and returns at the first interception.
      `consulted` lists the entries the Timekeeper was asked about. The
      result is the gate under the verdicts `v` the backends settle on. */
  method RunGate(g: Gatekeepers, ghost v: Verdicts, entries: seq<Entry>) returns (outcome: GateOutcome, consulted: seq<nat>)
    requires SettledBy(v, g)
    ensures outcome == Gate(v, entries)
    ensures outcome.Pass? ==> consulted == Significant(entries, |entries|)
    ensures outcome.Intercept? ==> outcome.at < |entries| && consulted == Significant(entries, outcome.at + 1)
  {
    var kept: seq<Entry> := [];
    consulted := [];
    var j := 0;
    while j < |entries|
      invariant 0 <= j <= |entries|
      invariant GateUpTo(v, entries, j) == Pass(kept)
      invariant consulted == Significant(entries, j)
    {
      var next, asked := GateStep(g, v, entries, j, kept);
      consulted := consulted + if asked then [j] else [];
      if next.Intercept? {
        InterceptIsFinal(v, entries, j + 1, |entries|);
        return next, consulted;
      }
      kept := next.kept;
      j := j + 1;
    }
    outcome := Pass(kept);
  }

  // ---------------------------------------------------------------------
  // What the gate guarantees
  // ---------------------------------------------------------------------

  /** `k` is what the gate may make of `e`: only the fact may change, only to
      a non-empty rewrite, and never for a trivial entry. */
  predicate Survives(e: Entry, k: Entry) {
    && k.(fact := e.fact) == e
    && (Trivial(e) ==> k == e)
    && (k.fact != e.fact ==> k.fact.Some? && k.fact.value != "")
  }

  /** The gate passes exactly when no entry is stopped, and then it drops
      nothing: the kept list is the input, entry by entry, with the fact of
      each significant entry the Timekeeper found valid replaced by its
      truthy rewrite, and every other entry as it was. */
  lemma {:induction false} GatePassKeepsAll(v: Verdicts, entries: seq<Entry>, n: nat)
    requires n <= |entries|
    ensures GateUpTo(v, entries, n).Pass? <==> forall j :: 0 <= j < n ==> JudgeAt(v, entries, j).Keep?
    ensures GateUpTo(v, entries, n).Pass? ==>
              var kept := GateUpTo(v, entries, n).kept;
              |kept| == n && forall j :: 0 <= j < n ==> Survives(entries[j], kept[j])
    ensures GateUpTo(v, entries, n).Pass? ==>
              var kept := GateUpTo(v, entries, n).kept;
              forall j :: 0 <= j < n ==>
                kept[j] == if !Trivial(entries[j]) && v.time(j).Some? && v.time(j).value.valid == Some(true)
                           then Rewrite(entries[j], v.time(j).value.rewrittenFact)
                           else entries[j]
  {
    if n > 0 {
      GatePassKeepsAll(v, entries, n - 1);
      var d := JudgeAt(v, entries, n - 1);
      if d.Keep? {
        assert Survives(entries[n - 1], d.entry) by {
          if d.entry.fact != entries[n - 1].fact {
            var t := v.time(n - 1);
            assert t.Some? && t.value.valid == Some(true);
          }
        }
      }
    }
  }

  /** An interception names the first stopped entry: a significant entry
      whose Timekeeper check succeeded without a valid verdict, and whose
      Interceptor produced a non-empty question. */
  lemma {:induction false} GateInterceptIsFirstStop(v: Verdicts, entries: seq<Entry>, n: nat)
    requires n <= |entries| && GateUpTo(v, entries, n).Intercept?
    ensures var at := GateUpTo(v, entries, n).at;
            && at < n
            && JudgeAt(v, entries, at) == Stop(GateUpTo(v, entries, n).question)
            && (forall j :: 0 <= j < at ==> JudgeAt(v, entries, j).Keep?)
            && !Trivial(entries[at])
            && v.time(at).Some? && v.time(at).value.valid != Some(true)
            && v.question(at) == Some(GateUpTo(v, entries, n).question)
  {
    if GateUpTo(v, entries, n - 1).Intercept? {
      GateInterceptIsFirstStop(v, entries, n - 1);
    } else {
      GatePassKeepsAll(v, entries, n - 1);
    }
  }

  /** Entries of importance below 4 alone never reach the Timekeeper and
      come through the gate unchanged and in order. */
  lemma {:induction false} TrivialEntriesPass(v: Verdicts, entries: seq<Entry>, n: nat)
    requires n <= |entries|
    requires forall j :: 0 <= j < |entries| ==> Trivial(entries[j])
    ensures GateUpTo(v, entries, n) == Pass(entries[..n])
    ensures Significant(entries, n) == []
  {
    if n > 0 {
      TrivialEntriesPass(v, entries, n - 1);
      assert entries[..n] == entries[..n - 1] + [entries[n - 1]];
    }
  }
}
