/** fetchWithCognitiveRetry (memory.js:51-78): every completion request of the
    pipeline goes through this loop. The backend's answer to attempt k is an
    input (`backend(k)`); JSON.parse and the stage's validator are the
    parameters `parse` and `valid`. */
module Retry {
  import opened Wrappers
  import opened Decoder

  /** What one request to the completion endpoint yields: a network failure,
      a response without `choices`, or the text of the first choice. */
  datatype Reply = TransportError | NoChoices | Content(text: string)

  /** `{ parsed, cleaned }`: the accepted value and the text it was parsed from. */
  datatype Payload<J> = Payload(parsed: J, cleaned: string)

  const MaxRetries: nat := 2

  /** One attempt of the loop body: a payload exactly when the reply carries
      text whose decoded form parses to a value the validator accepts. A
      transport error, a missing `choices`, a parse error and a rejected
      value all make the attempt fail (the catch of memory.js:75-77). */
  function Attempt<J>(reply: Reply, parse: string -> Option<J>, valid: J -> bool): (p: Option<Payload<J>>)
    ensures p.Some? ==> reply.Content? && p.value.cleaned == Decode(reply.text)
                        && parse(p.value.cleaned) == Some(p.value.parsed) && valid(p.value.parsed)
    ensures reply.Content? && parse(Decode(reply.text)).Some? && valid(parse(Decode(reply.text)).value) ==> p.Some?
  {
    if reply.Content? then
      var clean := Decode(reply.text);
      var parsed := parse(clean);
      if parsed.Some? && valid(parsed.value) then Some(Payload(parsed.value, clean)) else None
    else None
  }

  /** The outcome of each attempt, numbered from 1. */
  function Outcomes<J>(backend: nat -> Reply, parse: string -> Option<J>, valid: J -> bool): nat -> Option<Payload<J>> {
    (k: nat) => Attempt(backend(k), parse, valid)
  }

  /** What the loop settles on, given the outcome of every attempt: the first
      successful outcome among attempts k..MaxRetries, if any. */
  function FirstAccepted<P>(outcome: nat -> Option<P>, k: nat): Option<P>
    decreases MaxRetries + 1 - k
  {
    if k > MaxRetries then None
    else if outcome(k).Some? then outcome(k)
    else FirstAccepted(outcome, k + 1)
  }

  /** What a complete call settles on. */
  function Fetch<J>(backend: nat -> Reply, parse: string -> Option<J>, valid: J -> bool): Option<Payload<J>> {
    FirstAccepted(Outcomes(backend, parse, valid), 1)
  }

  /** The settled outcome is that of the first successful attempt, and there is
      none exactly when every attempt fails. */
  lemma {:induction false} FirstAcceptedIsFirst<P>(outcome: nat -> Option<P>, k: nat)
    ensures FirstAccepted(outcome, k).None? <==> forall i :: k <= i <= MaxRetries ==> outcome(i).None?
    ensures FirstAccepted(outcome, k).Some? ==>
              exists i :: k <= i <= MaxRetries && FirstAccepted(outcome, k) == outcome(i)
                && forall m :: k <= m < i ==> outcome(m).None?
    decreases MaxRetries + 1 - k
  {
    if k <= MaxRetries && outcome(k).None? {
      FirstAcceptedIsFirst(outcome, k + 1);
      if FirstAccepted(outcome, k).Some? {
        var i :| k + 1 <= i <= MaxRetries && FirstAccepted(outcome, k + 1) == outcome(i)
                 && forall m :: k + 1 <= m < i ==> outcome(m).None?;
        assert forall m :: k <= m < i ==> outcome(m).None?;
      }
    }
  }

  /** A settled payload is one an attempt produced, so it passed the parse
      and the validator. */
  lemma FetchAccepted<J>(backend: nat -> Reply, parse: string -> Option<J>, valid: J -> bool)
    ensures Fetch(backend, parse, valid).Some? ==>
              var p := Fetch(backend, parse, valid).value;
              parse(p.cleaned) == Some(p.parsed) && valid(p.parsed)
  {
    var outcome := Outcomes(backend, parse, valid);
    FirstAcceptedIsFirst(outcome, 1);
    if Fetch(backend, parse, valid).Some? {
      var i :| 1 <= i <= MaxRetries && FirstAccepted(outcome, 1) == outcome(i);
      assert outcome(i) == Attempt(backend(i), parse, valid);
    }
  }

  /** The error message thrown once the attempts are exhausted. */
  function FailureMessage(name: string): (m: string)
    ensures |m| > |name| && m[..|name|] == name
  {
    name + " Failed."
  }

  /** Makes at most MaxRetries attempts and returns the first accepted one,
      or fails with the labelled error when none is accepted; a partial or
      rejected payload is never returned. `attempts` is the number of
      requests sent. */
  method FetchWithRetry<J>(backend: nat -> Reply, parse: string -> Option<J>, valid: J -> bool, name: string)
    returns (r: Result<Payload<J>, string>, attempts: nat)
    ensures r == if Fetch(backend, parse, valid).Some? then Success(Fetch(backend, parse, valid).value)
                 else Failure(FailureMessage(name))
    ensures 1 <= attempts <= MaxRetries
    ensures r.Success? ==> Outcomes(backend, parse, valid)(attempts) == Some(r.value)
    ensures r.Failure? ==> attempts == MaxRetries
    ensures forall k :: 1 <= k < attempts ==> Outcomes(backend, parse, valid)(k).None?
  {
    var attempt := 1;
    while attempt <= MaxRetries
      invariant 1 <= attempt <= MaxRetries + 1
      invariant forall k :: 1 <= k < attempt ==> Outcomes(backend, parse, valid)(k).None?
      invariant Fetch(backend, parse, valid) == FirstAccepted(Outcomes(backend, parse, valid), attempt)
    {
      var outcome := Outcomes(backend, parse, valid)(attempt);
      if outcome.Some? {
        return Success(outcome.value), attempt;
      }
      attempt := attempt + 1;
    }
    return Failure(FailureMessage(name)), MaxRetries;
  }
}
