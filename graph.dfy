/** The thought graph a generated reply carries (`roots` → `branches` →
    `leaves`), its flattening into display keywords (main.js:185-202) and the
    one-root graph built from a bare keyword list (main.js:208-217). */
module Graph {
  import opened Wrappers
  import opened Text

  /** The JSON `label` of a branch or root is the field `name` here (`label`
      is a Dafny keyword). A leaf is an object with an optional `text`, or a bare word. */
  datatype Leaf = LeafObject(text: Option<string>, mood: Option<string>) | LeafWord(word: string)

  datatype Branch = Branch(name: Option<string>, text: Option<string>, mood: Option<string>, leaves: Option<seq<Leaf>>)

  datatype Root = Root(name: Option<string>, mood: Option<string>, branches: Option<seq<Branch>>)

  /** JavaScript truthiness of a string value that may be missing. */
  predicate Truthy(v: Option<string>) {
    v.Some? && v.value != ""
  }

  /** `typeof leaf === 'object' ? leaf.text : leaf` */
  function LeafValue(leaf: Leaf): Option<string> {
    match leaf
    case LeafObject(text, _) => text
    case LeafWord(w) => Some(w)
  }

  /** `b.name || b.text` */
  function BranchHead(b: Branch): (v: Option<string>)
    ensures Truthy(b.name) ==> v == b.name
    ensures !Truthy(b.name) ==> v == b.text
  {
    if Truthy(b.name) then b.name else b.text
  }

  function LeafValues(leaves: seq<Leaf>): (r: seq<Option<string>>)
    ensures |r| == |leaves| && forall i :: 0 <= i < |leaves| ==> r[i] == LeafValue(leaves[i])
  {
    seq(|leaves|, i requires 0 <= i < |leaves| => LeafValue(leaves[i]))
  }

  /** What one branch contributes: its head, then its leaves. */
  function BranchValues(b: Branch): seq<Option<string>> {
    [BranchHead(b)] + match b.leaves case Some(ls) => LeafValues(ls) case None => []
  }

  /** The branches' contributions, in order. */
  function BranchesValues(bs: seq<Branch>): seq<Option<string>> {
    if bs == [] then [] else BranchesValues(bs[..|bs| - 1]) + BranchValues(bs[|bs| - 1])
  }

  /** What one root contributes: its label, then its branches. */
  function RootValues(r: Root): seq<Option<string>> {
    [r.name] + match r.branches case Some(bs) => BranchesValues(bs) case None => []
  }

  /** The pre-order walk of the whole graph. */
  function Collected(roots: seq<Root>): seq<Option<string>> {
    if roots == [] then [] else Collected(roots[..|roots| - 1]) + RootValues(roots[|roots| - 1])
  }

  /** `.filter(k => k).map(k => String(k).toUpperCase())` */
  function Keywords(values: seq<Option<string>>): (r: seq<string>)
    ensures |r| <= |values|
    ensures forall i :: 0 <= i < |r| ==> r[i] != "" && IsUpper(r[i])
    ensures (forall i :: 0 <= i < |values| ==> Truthy(values[i])) ==> |r| == |values|
  {
    if values == [] then []
    else (if Truthy(values[0]) then [Upper(values[0].value)] else []) + Keywords(values[1..])
  }

  lemma {:induction false} KeywordsAppend(a: seq<Option<string>>, b: seq<Option<string>>)
    ensures Keywords(a + b) == Keywords(a) + Keywords(b)
  {
    if a == [] {
      assert a + b == b;
    } else {
      assert (a + b)[0] == a[0];
      assert (a + b)[1..] == a[1..] + b;
      KeywordsAppend(a[1..], b);
    }
  }

  /** With KeywordsAppend this pins Keywords down: one value becomes its
      upper-cased text when truthy, and nothing otherwise. */
  lemma KeywordsOne(v: Option<string>)
    ensures Keywords([v]) == if Truthy(v) then [Upper(v.value)] else []
  {
    assert [v][1..] == [];
  }

  /** The innermost `forEach`: every leaf value pushed in order. */
  method PushLeaves(flat: seq<Option<string>>, leaves: seq<Leaf>) returns (r: seq<Option<string>>)
    ensures r == flat + LeafValues(leaves)
  {
    r := flat;
    var k := 0;
    while k < |leaves|
      invariant 0 <= k <= |leaves|
      invariant r == flat + LeafValues(leaves[..k])
    {
      assert LeafValues(leaves[..k + 1]) == LeafValues(leaves[..k]) + [LeafValue(leaves[k])];
      r := r + [LeafValue(leaves[k])];
      k := k + 1;
    }
    assert leaves[..k] == leaves;
  }

  /** The middle `forEach`: each branch head followed by its leaves. */
  method PushBranches(flat: seq<Option<string>>, bs: seq<Branch>) returns (r: seq<Option<string>>)
    ensures r == flat + BranchesValues(bs)
  {
    r := flat;
    var j := 0;
    while j < |bs|
      invariant 0 <= j <= |bs|
      invariant r == flat + BranchesValues(bs[..j])
    {
      var b := bs[j];
      assert bs[..j + 1][..j] == bs[..j];
      r := r + [BranchHead(b)];
      if b.leaves.Some? {
        r := PushLeaves(r, b.leaves.value);
      }
      j := j + 1;
    }
    assert bs[..j] == bs;
  }

  /** main.js:186-201: the nested `forEach` pushing every root label, branch
      head and leaf value onto `flatKeywords`, in pre-order. */
  method FlattenGraph(roots: seq<Root>) returns (flat: seq<Option<string>>)
    ensures flat == Collected(roots)
  {
    flat := [];
    var i := 0;
    while i < |roots|
      invariant 0 <= i <= |roots|
      invariant flat == Collected(roots[..i])
    {
      var root := roots[i];
      assert roots[..i + 1][..i] == roots[..i];
      flat := flat + [root.name];
      if root.branches.Some? {
        flat := PushBranches(flat, root.branches.value);
      }
      i := i + 1;
    }
    assert roots[..i] == roots;
  }

  /** One leafless branch per keyword. */
  function FallbackBranches(words: seq<string>): (bs: seq<Branch>)
    ensures |bs| == |words|
    ensures forall j :: 0 <= j < |words| ==> bs[j] == Branch(Some(words[j]), None, None, Some([]))
  {
    seq(|words|, i requires 0 <= i < |words| => Branch(Some(words[i]), None, None, Some([])))
  }

  /** main.js:210-215: one root labelled with the first keyword and one
      leafless branch per remaining keyword. An empty list gives a root
      without label (`keywords[0]` is undefined). */
  function FallbackGraph(keywords: seq<string>): (g: seq<Root>)
    ensures |g| == 1 && g[0].branches.Some?
    ensures |keywords| >= 1 ==> g[0].name == Some(keywords[0]) && g[0].branches.value == FallbackBranches(keywords[1..])
    ensures |keywords| == 0 ==> g[0].name.None? && g[0].branches.value == []
  {
    if |keywords| > 0 then [Root(Some(keywords[0]), None, Some(FallbackBranches(keywords[1..])))]
    else [Root(None, None, Some([]))]
  }

  /** Every keyword of the list, as present values. */
  function Present(keywords: seq<string>): (r: seq<Option<string>>)
    ensures |r| == |keywords| && forall i :: 0 <= i < |keywords| ==> r[i] == Some(keywords[i])
  {
    seq(|keywords|, i requires 0 <= i < |keywords| => Some(keywords[i]))
  }

  lemma {:induction false} FallbackBranchesValues(words: seq<string>)
    requires forall j :: 0 <= j < |words| ==> words[j] != ""
    ensures BranchesValues(FallbackBranches(words)) == Present(words)
  {
    if words != [] {
      var n := |words| - 1;
      var bs := FallbackBranches(words);
      assert bs[..n] == FallbackBranches(words[..n]);
      FallbackBranchesValues(words[..n]);
      assert BranchValues(bs[n]) == [Some(words[n])];
      assert Present(words) == Present(words[..n]) + [Some(words[n])];
    }
  }

  /** Walking the fallback graph gives back the keyword list it was built
      from: the same words a flattened graph with those labels would show. */
  lemma FallbackGraphRoundTrip(keywords: seq<string>)
    requires |keywords| >= 1
    requires forall j :: 0 <= j < |keywords| ==> keywords[j] != ""
    ensures Collected(FallbackGraph(keywords)) == Present(keywords)
  {
    var g := FallbackGraph(keywords);
    FallbackBranchesValues(keywords[1..]);
    assert g[..0] == [];
    assert Collected(g) == RootValues(g[0]);
    assert Present(keywords) == [Some(keywords[0])] + Present(keywords[1..]);
  }
}
