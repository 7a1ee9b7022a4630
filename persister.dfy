/** Step 5 of processMemoryChat (memory.js:415-466): the decision, entry by
    entry, to store a memory candidate, with the LLM deduplication check that
    runs when the last retrieved context is long enough. The store request
    itself is fire-and-forget; `stored` lists the entries it is sent for. */
module Persister {
  import opened Wrappers
  import opened Text
  import opened Retry
  import opened Extraction

  /** `{ status }` */
  datatype DedupJson = DedupJson(status: Option<string>)

  /** The deduplication validator: `d.status` is truthy. */
  predicate DedupShape(d: DedupJson) {
    d.status.Some? && d.status.value != ""
  }

  /** The deduplication backend: the reply to attempt k of the check about
      entry j, and the JSON parser of the answer. */
  datatype Deduplicator = Deduplicator(backend: nat -> nat -> Reply, parse: string -> Option<DedupJson>)

  const DedupThreshold := 50

  /** memory.js:418: an entry without a fact, with an empty one or with the
      text "null" is never stored. */
  predicate Storable(e: Entry) {
    e.fact.Some? && e.fact.value != "" && e.fact.value != "null"
  }

  /** memory.js:421: the check runs only when the last retrieved context is
      longer than 50 UTF-16 code units. */
  predicate DedupActive(context: Option<string>) {
    context.Some? && Utf16Length(context.value) > DedupThreshold
  }

  /** The check about entry j settled on status "DUPLICATE". A failed check
      and any other status do not count. */
  predicate IsDuplicate(d: Deduplicator, j: nat) {
    var f := Fetch(d.backend(j), d.parse, DedupShape);
    f.Some? && f.value.parsed.status == Some("DUPLICATE")
  }

  /** The settled answer of every check, as a function of the entry's position. */
  function Duplicates(d: Deduplicator): nat -> bool {
    (j: nat) => IsDuplicate(d, j)
  }

  /** `duplicate` holds the answers the deduplication backend settles on. */
  ghost predicate DecidedBy(duplicate: nat -> bool, d: Deduplicator) {
    forall j: nat {:trigger IsDuplicate(d, j)} :: duplicate(j) == IsDuplicate(d, j)
  }

  lemma DuplicatesDecided(d: Deduplicator)
    ensures DecidedBy(Duplicates(d), d)
  {
  }

  /** Entry j is sent to the store, given which checks settle on "DUPLICATE". */
  predicate Stores(entries: seq<Entry>, context: Option<string>, duplicate: nat -> bool, j: nat)
    requires j < |entries|
  {
    Storable(entries[j]) && !(DedupActive(context) && duplicate(j))
  }

  /** Entry j is checked for duplication. */
  predicate Checks(entries: seq<Entry>, context: Option<string>, j: nat)
    requires j < |entries|
  {
    Storable(entries[j]) && DedupActive(context)
  }

  /** The positions below n of the entries sent to the store, in order. */
  function StoredPositions(entries: seq<Entry>, context: Option<string>, duplicate: nat -> bool, n: nat): (pos: seq<nat>)
    requires n <= |entries|
    ensures forall k :: 0 <= k < |pos| ==> pos[k] < n && Stores(entries, context, duplicate, pos[k])
  {
    if n == 0 then []
    else StoredPositions(entries, context, duplicate, n - 1) + (if Stores(entries, context, duplicate, n - 1) then [n - 1] else [])
  }

  /** The stored entries form an order-preserving subsequence of the input:
      their positions increase, and a position is among them exactly when
      that entry is stored. */
  lemma {:induction false} StoredPositionsOrdered(entries: seq<Entry>, context: Option<string>, duplicate: nat -> bool, n: nat)
    requires n <= |entries|
    ensures var pos := StoredPositions(entries, context, duplicate, n);
            && (forall k, l :: 0 <= k < l < |pos| ==> pos[k] < pos[l])
            && (forall j: nat :: j in pos <==> j < n && Stores(entries, context, duplicate, j))
  {
    if n > 0 {
      StoredPositionsOrdered(entries, context, duplicate, n - 1);
    }
  }

  /** The positions below n of the entries checked for duplication, in order. */
  function CheckedPositions(entries: seq<Entry>, context: Option<string>, n: nat): (pos: seq<nat>)
    requires n <= |entries|
    ensures forall j: nat :: j in pos <==> j < n && Checks(entries, context, j)
  {
    if n == 0 then []
    else CheckedPositions(entries, context, n - 1) + (if Checks(entries, context, n - 1) then [n - 1] else [])
  }

  /** The entries at the given positions. */
  function At(entries: seq<Entry>, pos: seq<nat>): (r: seq<Entry>)
    requires forall k :: 0 <= k < |pos| ==> pos[k] < |entries|
    ensures |r| == |pos| && forall k :: 0 <= k < |pos| ==> r[k] == entries[pos[k]]
  {
    seq(|pos|, k requires 0 <= k < |pos| => entries[pos[k]])
  }

  /** Appending a position appends its entry. */
  lemma AtSnoc(entries: seq<Entry>, pos: seq<nat>, p: nat)
    requires forall k :: 0 <= k < |pos| ==> pos[k] < |entries|
    requires p < |entries|
    ensures At(entries, pos + [p]) == At(entries, pos) + [entries[p]]
  {
  }

  /** memory.js:418-448 for entry j: whether it is checked for duplication
      and whether it is then saved. */
  method Decide(entries: seq<Entry>, context: Option<string>, d: Deduplicator, ghost duplicate: nat -> bool, j: nat)
    returns (save: bool, checkedIt: bool)
    requires DecidedBy(duplicate, d) && j < |entries|
    ensures save == Stores(entries, context, duplicate, j)
    ensures checkedIt == Checks(entries, context, j)
  {
    var entry := entries[j];
    if entry.fact.None? || entry.fact.value == "" || entry.fact.value == "null" {
      return false, false;
    }
    if context.Some? && Utf16Length(context.value) > DedupThreshold {
      var check, _ := FetchWithRetry(d.backend(j), d.parse, DedupShape, "Deduplication");
      assert duplicate(j) == IsDuplicate(d, j);
      if check.Success? && check.value.parsed.status == Some("DUPLICATE") {
        return false, true;
      }
      return true, true;
    }
    return true, false;
  }

  /** memory.js:417-464: the sequential loop, skipping unstorable entries
      and confirmed duplicates with `continue` and saving every other entry. */
  method Persist(entries: seq<Entry>, context: Option<string>, d: Deduplicator, ghost duplicate: nat -> bool)
    returns (stored: seq<Entry>, checked: seq<nat>)
    requires DecidedBy(duplicate, d)
    ensures stored == At(entries, StoredPositions(entries, context, duplicate, |entries|))
    ensures checked == CheckedPositions(entries, context, |entries|)
  {
    stored := [];
    checked := [];
    var j := 0;
    while j < |entries|
      invariant 0 <= j <= |entries|
      invariant stored == At(entries, StoredPositions(entries, context, duplicate, j))
      invariant checked == CheckedPositions(entries, context, j)
    {
      var save, checkedIt := Decide(entries, context, d, duplicate, j);
      if checkedIt {
        checked := checked + [j];
      }
      if save {
        AtSnoc(entries, StoredPositions(entries, context, duplicate, j), j);
        stored := stored + [entries[j]];
      }
      j := j + 1;
    }
  }

  /** When every decision comes down to the entry being storable, exactly the
      storable entries are stored, in their original order. */
  lemma {:induction false} StoresExactlyStorable(entries: seq<Entry>, context: Option<string>, duplicate: nat -> bool, n: nat)
    requires n <= |entries|
    requires forall j :: 0 <= j < |entries| ==> (Stores(entries, context, duplicate, j) <==> Storable(entries[j]))
    ensures At(entries, StoredPositions(entries, context, duplicate, n)) == Filter(Storable, entries[..n])
  {
    if n > 0 {
      var e := entries[n - 1];
      var prev := StoredPositions(entries, context, duplicate, n - 1);
      StoresExactlyStorable(entries, context, duplicate, n - 1);
      assert Stores(entries, context, duplicate, n - 1) <==> Storable(e);
      assert entries[..n] == entries[..n - 1] + [e];
      FilterAppend(Storable, entries[..n - 1], [e]);
      assert Filter(Storable, [e]) == if Storable(e) then [e] else [];
      if Storable(e) {
        AtSnoc(entries, prev, n - 1);
      } else {
        assert StoredPositions(entries, context, duplicate, n) == prev;
      }
    }
  }

  lemma {:induction false} NothingChecked(entries: seq<Entry>, context: Option<string>, n: nat)
    requires n <= |entries| && !DedupActive(context)
    ensures CheckedPositions(entries, context, n) == []
  {
    if n > 0 {
      NothingChecked(entries, context, n - 1);
    }
  }

  /** With a context of at most 50 characters no check runs and every
      storable entry is stored. */
  lemma ShortContextStoresAll(entries: seq<Entry>, context: Option<string>, duplicate: nat -> bool)
    requires !DedupActive(context)
    ensures CheckedPositions(entries, context, |entries|) == []
    ensures At(entries, StoredPositions(entries, context, duplicate, |entries|)) == Filter(Storable, entries)
  {
    StoresExactlyStorable(entries, context, duplicate, |entries|);
    assert entries[..|entries|] == entries;
    NothingChecked(entries, context, |entries|);
  }

  /** Only a settled "DUPLICATE" keeps a storable entry out of the store. */
  lemma NoDuplicateStoresAll(entries: seq<Entry>, context: Option<string>, duplicate: nat -> bool)
    requires forall j :: 0 <= j < |entries| ==> !duplicate(j)
    ensures At(entries, StoredPositions(entries, context, duplicate, |entries|)) == Filter(Storable, entries)
  {
    StoresExactlyStorable(entries, context, duplicate, |entries|);
    assert entries[..|entries|] == entries;
  }
}
