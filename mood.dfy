/** Moods: memory.js's `sanitizeMood` and the cleaning of root and branch
    moods (memory.js:378-401), and main.js's mood update rule (main.js:222-242)
    over the keys of `MOOD_AUDIO` (main.js:11-21). */
module Mood {
  import opened Wrappers
  import opened Text
  import opened Graph

  /** The keys of `MOOD_AUDIO`. */
  const MoodKeys: set<string> :=
    {"NEUTRAL", "AFFECTIONATE", "CRYPTIC", "DISLIKE", "JOYFUL", "CURIOUS", "SAD", "GLITCH", "QUESTION"}

  /** `sanitizeMood` (memory.js:380-383): a falsy mood becomes NEUTRAL, any
      other is upper-cased and trimmed. It does not check the result against
      `MOOD_AUDIO`. */
  function Sanitize(m: Option<string>): (r: string)
    ensures IsUpper(r) && IsTrimmed(r)
    ensures !Truthy(m) ==> r == "NEUTRAL"
    ensures Truthy(m) ==> |r| <= |m.value| && r == Trim(Upper(m.value))
  {
    if !Truthy(m) then "NEUTRAL" else Trim(Upper(m.value))
  }

  lemma {:induction false} TrimStartUpper(s: string)
    ensures TrimStart(Upper(s)) == Upper(TrimStart(s))
    decreases |s|
  {
    if s != [] && IsSpace(s[0]) {
      assert Upper(s)[1..] == Upper(s[1..]);
      TrimStartUpper(s[1..]);
    }
  }

  lemma {:induction false} TrimEndUpper(s: string)
    ensures TrimEnd(Upper(s)) == Upper(TrimEnd(s))
    decreases |s|
  {
    if s != [] && IsSpace(s[|s| - 1]) {
      assert Upper(s)[..|s| - 1] == Upper(s[..|s| - 1]);
      TrimEndUpper(s[..|s| - 1]);
    }
  }

  /** Upper-casing never creates or removes white space, so `sanitizeMood`
      may as well trim first: a truthy mood becomes its trimmed text,
      upper-cased. */
  lemma SanitizeTrimsFirst(m: string)
    requires m != ""
    ensures Sanitize(Some(m)) == Upper(Trim(m))
  {
    TrimStartUpper(m);
    TrimEndUpper(TrimStart(m));
  }

  /** Trimming keeps an upper-case text upper-case. */
  lemma TrimKeepsUpper(s: string)
    requires IsUpper(s)
    ensures IsUpper(Trim(s))
  {
  }

  /** Sanitising a sanitised mood changes nothing, unless the first pass
      produced the empty text (a mood made only of white space). */
  lemma SanitizeIdempotent(m: Option<string>)
    requires Sanitize(m) != ""
    ensures Sanitize(Some(Sanitize(m))) == Sanitize(m)
  {
    var r := Sanitize(m);
    UpperOfUpper(r);
    TrimOfTrimmed(r);
  }

  /** Where idempotence fails: a blank mood sanitises to the empty text,
      which then sanitises to NEUTRAL. */
  lemma SanitizeBlank()
    ensures Sanitize(Some("  ")) == ""
    ensures Sanitize(Some("")) == "NEUTRAL"
  {
    assert IsSpace("  "[0]) && IsSpace("  "[1]);
    assert Upper("  ") == "  ";
    assert TrimStart("  ") == TrimStart(" ") == TrimStart("");
  }

  /** A non-empty mood without surrounding space is only upper-cased, whether
      or not the result is a `MOOD_AUDIO` key. */
  lemma SanitizeKeepsUnknown(m: string)
    requires m != "" && IsTrimmed(m)
    ensures Sanitize(Some(m)) == Upper(m)
  {
    var u := Upper(m);
    assert IsTrimmed(u) by {
      assert IsSpace(u[0]) == IsSpace(m[0]);
      assert IsSpace(u[|u| - 1]) == IsSpace(m[|m| - 1]);
    }
    TrimOfTrimmed(u);
  }

  /** For instance "happy" is published as HAPPY, which `MOOD_AUDIO` lacks. */
  lemma HappyIsUnknown()
    ensures Upper("happy") == "HAPPY"
    ensures "HAPPY" !in MoodKeys
  {
    var u := Upper("happy");
    forall i | 0 <= i < 5 ensures u[i] == "HAPPY"[i] {
    }
    forall k | k in MoodKeys ensures |k| != 5 {
    }
  }

  /** memory.js:395: `branch.mood = sanitizeMood(branch.mood)`. */
  function SanitizeBranch(b: Branch): (c: Branch)
    ensures c.(mood := b.mood) == b && c.mood == Some(Sanitize(b.mood))
  {
    b.(mood := Some(Sanitize(b.mood)))
  }

  function SanitizeBranches(bs: seq<Branch>): (cbs: seq<Branch>)
    ensures |cbs| == |bs| && forall j :: 0 <= j < |bs| ==> cbs[j] == SanitizeBranch(bs[j])
  {
    seq(|bs|, j requires 0 <= j < |bs| => SanitizeBranch(bs[j]))
  }

  /** memory.js:392-398 for one root: its mood and its branches' moods are
      sanitised; names, texts and leaves (with their moods) are untouched. */
  function SanitizeRoot(r: Root): (c: Root)
    ensures c.name == r.name && c.mood == Some(Sanitize(r.mood))
    ensures c.branches.Some? <==> r.branches.Some?
    ensures r.branches.Some? ==>
              |c.branches.value| == |r.branches.value|
              && forall j :: 0 <= j < |r.branches.value| ==> c.branches.value[j] == SanitizeBranch(r.branches.value[j])
  {
    match r.branches
    case None => r.(mood := Some(Sanitize(r.mood)))
    case Some(bs) =>
      r.(mood := Some(Sanitize(r.mood)), branches := Some(SanitizeBranches(bs)))
  }

  /** memory.js:394-397: the `map` over one root's branches. */
  method CleanBranches(bs: seq<Branch>) returns (cbs: seq<Branch>)
    ensures cbs == SanitizeBranches(bs)
  {
    cbs := [];
    var j := 0;
    while j < |bs|
      invariant 0 <= j <= |bs|
      invariant |cbs| == j
      invariant forall k :: 0 <= k < j ==> cbs[k] == SanitizeBranch(bs[k])
    {
      cbs := cbs + [bs[j].(mood := Some(Sanitize(bs[j].mood)))];
      j := j + 1;
    }
    assert cbs == SanitizeBranches(bs);
  }

  /** Every root cleaned, in order. */
  function SanitizeRoots(roots: seq<Root>): (clean: seq<Root>)
    ensures |clean| == |roots| && forall i :: 0 <= i < |roots| ==> clean[i] == SanitizeRoot(roots[i])
  {
    if roots == [] then [] else SanitizeRoots(roots[..|roots| - 1]) + [SanitizeRoot(roots[|roots| - 1])]
  }

  /** memory.js:392-398 for one root. */
  method CleanRoot(root: Root) returns (cleaned: Root)
    ensures cleaned == SanitizeRoot(root)
  {
    cleaned := root.(mood := Some(Sanitize(root.mood)));
    if root.branches.Some? {
      var cbs := CleanBranches(root.branches.value);
      cleaned := cleaned.(branches := Some(cbs));
    }
  }

  /** memory.js:391-400: the `map` over the roots that rewrites each root's
      and each branch's mood. */
  method CleanRoots(roots: seq<Root>) returns (clean: seq<Root>)
    ensures clean == SanitizeRoots(roots)
  {
    clean := [];
    var i := 0;
    while i < |roots|
      invariant 0 <= i <= |roots|
      invariant clean == SanitizeRoots(roots[..i])
    {
      var cleaned := CleanRoot(roots[i]);
      assert roots[..i + 1][..i] == roots[..i];
      clean := clean + [cleaned];
      i := i + 1;
    }
    assert roots[..i] == roots;
  }

  /** Cleaning leaves the graph's words alone: the walk over the cleaned roots
      is the walk over the original ones. */
  lemma {:induction false} SanitizeRootValues(r: Root)
    ensures RootValues(SanitizeRoot(r)) == RootValues(r)
  {
    if r.branches.Some? {
      var bs := r.branches.value;
      var cbs := SanitizeRoot(r).branches.value;
      SanitizeBranchesValues(bs, cbs);
    }
  }

  lemma {:induction false} SanitizeBranchesValues(bs: seq<Branch>, cbs: seq<Branch>)
    requires |cbs| == |bs| && forall j :: 0 <= j < |bs| ==> cbs[j] == SanitizeBranch(bs[j])
    ensures BranchesValues(cbs) == BranchesValues(bs)
  {
    if bs != [] {
      var n := |bs| - 1;
      SanitizeBranchesValues(bs[..n], cbs[..n]);
      assert BranchValues(cbs[n]) == BranchValues(bs[n]);
    }
  }

  lemma {:induction false} CleanRootsKeepWords(roots: seq<Root>)
    ensures Collected(SanitizeRoots(roots)) == Collected(roots)
  {
    if roots != [] {
      var n := |roots| - 1;
      var clean := SanitizeRoots(roots);
      assert clean[..n] == SanitizeRoots(roots[..n]);
      CleanRootsKeepWords(roots[..n]);
      SanitizeRootValues(roots[n]);
    }
  }

  /** Every root and branch mood of a cleaned graph is a sanitised text. */
  lemma CleanMoodsSanitized(roots: seq<Root>)
    ensures var clean := SanitizeRoots(roots);
            forall i :: 0 <= i < |clean| ==>
              && clean[i].mood.Some? && IsUpper(clean[i].mood.value) && IsTrimmed(clean[i].mood.value)
              && (clean[i].branches.Some? ==> forall j :: 0 <= j < |clean[i].branches.value| ==>
                    var b := clean[i].branches.value[j];
                    b.mood.Some? && IsUpper(b.mood.value) && IsTrimmed(b.mood.value))
  {
  }

  // ---------------------------------------------------------------------
  // main.js's mood update
  // ---------------------------------------------------------------------

  /** `json.mood ? json.mood.toUpperCase().trim() : ""` */
  function RawMood(mood: Option<string>): string {
    if Truthy(mood) then Trim(Upper(mood.value)) else ""
  }

  /** The Interceptor's mood reads as itself and is a `MOOD_AUDIO` key. */
  lemma CuriousIsKnown()
    ensures RawMood(Some("CURIOUS")) == "CURIOUS"
    ensures "CURIOUS" in MoodKeys
  {
    var curious := "CURIOUS";
    assert IsUpper(curious) by {
      forall c | c in curious ensures !IsLowerAscii(c) {
        var i :| 0 <= i < |curious| && curious[i] == c;
      }
    }
    UpperOfUpper(curious);
    assert IsTrimmed(curious) by {
      assert curious[0] == 'C' && curious[|curious| - 1] == 'S';
    }
    TrimOfTrimmed(curious);
  }

  /** main.js:222-242: QUESTION in question mode; otherwise the reply's mood
      when it names a `MOOD_AUDIO` key; otherwise the current mood when it is
      a key other than NEUTRAL; otherwise NEUTRAL. */
  function NextMood(questionMode: bool, current: string, mood: Option<string>): (r: string)
    ensures r in MoodKeys
    ensures questionMode ==> r == "QUESTION"
    ensures !questionMode ==> r == RawMood(mood) || r == current || r == "NEUTRAL"
    ensures !questionMode && RawMood(mood) in MoodKeys ==> r == RawMood(mood)
  {
    if questionMode then "QUESTION"
    else
      var raw := RawMood(mood);
      if raw != "" && raw in MoodKeys then raw
      else if current != "NEUTRAL" && current in MoodKeys then current
      else "NEUTRAL"
  }

  /** Applying the rule twice to the same reply is applying it once. */
  lemma NextMoodIdempotent(questionMode: bool, current: string, mood: Option<string>)
    ensures NextMood(questionMode, NextMood(questionMode, current, mood), mood) == NextMood(questionMode, current, mood)
  {
  }

  /** A reply without a known mood keeps a known current mood. */
  lemma NextMoodKeepsKnown(current: string, mood: Option<string>)
    requires current in MoodKeys && RawMood(mood) !in MoodKeys
    ensures NextMood(false, current, mood) == current
  {
  }

  /** The mood memory.js sets and the mood main.js then settles on: a
      sanitised mood outside `MOOD_AUDIO` is replaced by NEUTRAL. */
  lemma UnknownSanitizedMoodFallsBack(mood: Option<string>)
    requires Truthy(mood) && Sanitize(mood) !in MoodKeys
    ensures NextMood(false, Sanitize(mood), mood) == "NEUTRAL"
  {
  }
}
