/** The bounded retry loop the three adapters share (`_aws.py`, `_anthropic.py` and
    `_openai.py` each spell it out):

      retries = 0
      while retries < MAX_RETRIES:
          await limiter.acquire(tokens)
          try:   response = <call>; if <usable response>: break
          except <provider error>: retries += 1; sleep(wait); wait *= 2
          except Exception: raise RuntimeError(...)
      else:  raise RuntimeError("... after {retries} retries")

    The network is an input: the outcome of each attempt, in order. The random initial
    wait is an integer `w0`, and sleeping is recorded rather than performed. */
module Retry {

  import opened Limiters

  const MaxRetries: nat := 3

  /** What one call to the provider did. */
  datatype Attempt<R> =
    | Returned(response: R)  // the call came back with a response
    | Transient              // the provider's own error class (retried)
    | Unrecognized           // any other exception (wrapped and raised at once)

  /** How the loop ended. `Stalled` only says that the model ran out of given outcomes
      before the loop ended; it is not a behaviour of the source. */
  datatype Ending<R> = Done(response: R) | Exhausted(retries: nat) | Wrapped | Stalled

  /** A whole run: the number of attempts (each preceded by one limiter acquisition),
      the waits slept, in order, and the ending. */
  datatype Run<R> = Run(attempts: nat, waits: seq<nat>, ending: Ending<R>)

  /** The errors the adapters raise, by the message they carry. */
  datatype ChatError =
    | ConnectFailed(model: string)             // "Failed to connect to {model}: {e}"
    | RetriesExhausted(model: string, retries: nat)  // "... after {retries} retries"
    | IllFormatted                             // "Ill-formatted Claude response"
    | IndexOutOfRange                          // `IndexError` reading the reply
    | OutcomesExhausted                        // the model's inputs ran out

  /** One more attempt in front of a run, sleeping `waits` after it. */
  function After<R>(waits: seq<nat>, r: Run<R>): Run<R> {
    Run(r.attempts + 1, waits + r.waits, r.ending)
  }

  /** The specification of the loop from a state with `retries` used and the next wait
      `wait`, facing `outcomes`. A response that `usable` rejects is tried again without
      spending a retry. */
  function Loop<R>(outcomes: seq<Attempt<R>>, usable: R -> bool, retries: nat, wait: nat): Run<R>
    decreases |outcomes|
  {
    if retries >= MaxRetries then Run(0, [], Exhausted(retries))
    else if outcomes == [] then Run(0, [], Stalled)
    else match outcomes[0]
      case Returned(r) =>
        if usable(r) then Run(1, [], Done(r)) else After([], Loop(outcomes[1..], usable, retries, wait))
      case Transient => After([wait], Loop(outcomes[1..], usable, retries + 1, 2 * wait))
      case Unrecognized => Run(1, [], Wrapped)
  }

  /** `r` after `n` earlier attempts that slept `waits`. */
  function Prefixed<R>(n: nat, waits: seq<nat>, r: Run<R>): Run<R> {
    Run(n + r.attempts, waits + r.waits, r.ending)
  }

  lemma PrefixedAfter<R>(n: nat, waits: seq<nat>, w: seq<nat>, r: Run<R>)
    ensures Prefixed(n, waits, After(w, r)) == Prefixed(n + 1, waits + w, r)
  {
    assert waits + (w + r.waits) == (waits + w) + r.waits;
  }

  /** One step of `Loop` on the suffix of `outcomes` from `i`, as `RetryLoop`'s invariant needs it. */
  lemma Unroll<R>(outcomes: seq<Attempt<R>>, i: nat, usable: R -> bool, retries: nat, wait: nat)
    requires i < |outcomes| && retries < MaxRetries
    ensures outcomes[i].Returned? && usable(outcomes[i].response) ==>
              Loop(outcomes[i..], usable, retries, wait) == Run(1, [], Done(outcomes[i].response))
    ensures outcomes[i].Returned? && !usable(outcomes[i].response) ==>
              Loop(outcomes[i..], usable, retries, wait) == After([], Loop(outcomes[i + 1..], usable, retries, wait))
    ensures outcomes[i].Transient? ==>
              Loop(outcomes[i..], usable, retries, wait) == After([wait], Loop(outcomes[i + 1..], usable, retries + 1, 2 * wait))
    ensures outcomes[i].Unrecognized? ==> Loop(outcomes[i..], usable, retries, wait) == Run(1, [], Wrapped)
  {
    assert outcomes[i..][1..] == outcomes[i + 1..];
  }

  function Copies(n: nat, k: nat): (s: seq<nat>)
    ensures |s| == k && forall i :: 0 <= i < k ==> s[i] == n
  {
    if k == 0 then [] else [n] + Copies(n, k - 1)
  }

  function Pow2(k: nat): (p: nat)
    ensures p >= 1
  {
    if k == 0 then 1 else 2 * Pow2(k - 1)
  }

  /** The loop itself. It acquires `tokens` from `limiter` before every attempt and
      behaves as `Loop` says. */
  method RetryLoop<R>(outcomes: seq<Attempt<R>>, usable: R -> bool, limiter: Limiter, tokens: nat, w0: nat)
    returns (run: Run<R>)
    modifies limiter
    ensures run == Loop(outcomes, usable, 0, w0)
    ensures limiter.acquired == old(limiter.acquired) + Copies(tokens, run.attempts)
  {
    var retries, wait, i, waits := 0, w0, 0, [];
    while retries < MaxRetries
      invariant 0 <= i <= |outcomes| && retries <= MaxRetries
      invariant Loop(outcomes, usable, 0, w0) == Prefixed(i, waits, Loop(outcomes[i..], usable, retries, wait))
      invariant limiter.acquired == old(limiter.acquired) + Copies(tokens, i)
      decreases |outcomes| - i
    {
      if i == |outcomes| {
        run := Run(i, waits, Stalled);
        return;
      }
      Unroll(outcomes, i, usable, retries, wait);
      limiter.Acquire(tokens);
      assert Copies(tokens, i) + [tokens] == Copies(tokens, i + 1);
      match outcomes[i] {
        case Returned(r) =>
          if usable(r) {
            run := Run(i + 1, waits, Done(r));
            return;
          }
          PrefixedAfter(i, waits, [], Loop(outcomes[i + 1..], usable, retries, wait));
        case Transient =>
          PrefixedAfter(i, waits, [wait], Loop(outcomes[i + 1..], usable, retries + 1, 2 * wait));
          retries := retries + 1;
          waits := waits + [wait];
          wait := 2 * wait;
        case Unrecognized =>
          run := Run(i + 1, waits, Wrapped);
          return;
      }
      i := i + 1;
    }
    run := Run(i, waits, Exhausted(retries));
  }

  /** An attempt after which the loop goes on: a provider error, or a response the
      adapter does not accept. */
  predicate Continues<R>(a: Attempt<R>, usable: R -> bool) {
    a.Transient? || (a.Returned? && !usable(a.response))
  }

  function CountTransient<R>(outcomes: seq<Attempt<R>>): nat {
    if outcomes == [] then 0
    else (if outcomes[0].Transient? then 1 else 0) + CountTransient(outcomes[1..])
  }

  /** The waits double from the initial one, there is one per provider error, at most
      `MaxRetries` of them, and the loop is exhausted exactly when the last retry is used
      up, reporting `MaxRetries` retries. */
  lemma {:induction false} LoopWaits<R>(outcomes: seq<Attempt<R>>, usable: R -> bool, retries: nat, wait: nat)
    requires retries <= MaxRetries
    ensures var r := Loop(outcomes, usable, retries, wait);
      && r.attempts <= |outcomes|
      && |r.waits| <= MaxRetries - retries
      && (forall k :: 0 <= k < |r.waits| ==> r.waits[k] == wait * Pow2(k))
      && (r.ending.Exhausted? <==> |r.waits| == MaxRetries - retries)
      && (r.ending.Exhausted? ==> r.ending.retries == MaxRetries)
      && |r.waits| == CountTransient(outcomes[..r.attempts])
    decreases |outcomes|
  {
    var r := Loop(outcomes, usable, retries, wait);
    if retries < MaxRetries && outcomes != [] {
      var tail := outcomes[1..];
      match outcomes[0] {
        case Returned(x) =>
          if !usable(x) {
            LoopWaits(tail, usable, retries, wait);
            assert outcomes[..r.attempts][1..] == tail[..r.attempts - 1];
          } else {
            assert outcomes[..r.attempts][1..] == [];
          }
        case Transient =>
          var t := Loop(tail, usable, retries + 1, 2 * wait);
          LoopWaits(tail, usable, retries + 1, 2 * wait);
          assert outcomes[..r.attempts][1..] == tail[..t.attempts];
          forall k | 0 <= k < |r.waits|
            ensures r.waits[k] == wait * Pow2(k)
          {
            if k > 0 {
              assert r.waits[k] == t.waits[k - 1];
            }
          }
        case Unrecognized =>
          assert outcomes[..r.attempts][1..] == [];
      }
    } else {
      assert outcomes[..r.attempts] == [];
    }
  }

  /** What the last attempt was, for each ending, and that every attempt before it let
      the loop go on. A run that ran out of outcomes consumed all of them. */
  lemma {:induction false} LoopEndings<R>(outcomes: seq<Attempt<R>>, usable: R -> bool, retries: nat, wait: nat)
    ensures var r := Loop(outcomes, usable, retries, wait);
      && r.attempts <= |outcomes|
      && (r.ending.Done? ==>
            r.attempts >= 1 && outcomes[r.attempts - 1] == Returned(r.ending.response) && usable(r.ending.response))
      && (r.ending.Wrapped? ==> r.attempts >= 1 && outcomes[r.attempts - 1] == Unrecognized)
      && (r.ending.Stalled? ==> r.attempts == |outcomes|)
      && (r.ending.Exhausted? || r.ending.Stalled? ==>
            forall k :: 0 <= k < r.attempts ==> Continues(outcomes[k], usable))
      && (r.ending.Done? || r.ending.Wrapped? ==>
            forall k :: 0 <= k < r.attempts - 1 ==> Continues(outcomes[k], usable))
    decreases |outcomes|
  {
    var r := Loop(outcomes, usable, retries, wait);
    if retries < MaxRetries && outcomes != [] {
      var tail := outcomes[1..];
      var t: Run<R>;
      match outcomes[0] {
        case Returned(x) =>
          if !usable(x) {
            t := Loop(tail, usable, retries, wait);
            LoopEndings(tail, usable, retries, wait);
          } else {
            return;
          }
        case Transient =>
          t := Loop(tail, usable, retries + 1, 2 * wait);
          LoopEndings(tail, usable, retries + 1, 2 * wait);
        case Unrecognized =>
          return;
      }
      assert r.attempts == t.attempts + 1 && r.ending == t.ending;
      forall k | 0 <= k < r.attempts - 1
        ensures Continues(outcomes[k], usable)
      {
        if k > 0 {
          assert outcomes[k] == tail[k - 1];
        }
      }
    }
  }

  /** When every response is usable (the AWS adapter breaks on any response), the loop
      makes at most `MaxRetries` attempts. */
  lemma {:induction false} LoopAttemptsBounded<R>(outcomes: seq<Attempt<R>>, usable: R -> bool, retries: nat, wait: nat)
    requires retries <= MaxRetries
    requires forall x :: usable(x)
    ensures Loop(outcomes, usable, retries, wait).attempts <= MaxRetries - retries
    decreases |outcomes|
  {
    if retries < MaxRetries && outcomes != [] && outcomes[0].Transient? {
      LoopAttemptsBounded(outcomes[1..], usable, retries + 1, 2 * wait);
    }
  }

  /** Unusable responses do not spend the budget: any number of them in front of a run
      only adds attempts. */
  lemma {:induction false} UnusableResponsesAreFree<R>(
    junk: seq<Attempt<R>>, outcomes: seq<Attempt<R>>, usable: R -> bool, retries: nat, wait: nat)
    requires retries < MaxRetries
    requires forall k :: 0 <= k < |junk| ==> junk[k].Returned? && !usable(junk[k].response)
    ensures Loop(junk + outcomes, usable, retries, wait) == Prefixed(|junk|, [], Loop(outcomes, usable, retries, wait))
    decreases |junk|
  {
    var l := Loop(outcomes, usable, retries, wait);
    if junk == [] {
      assert junk + outcomes == outcomes;
      assert [] + l.waits == l.waits;
    } else {
      assert (junk + outcomes)[1..] == junk[1..] + outcomes;
      UnusableResponsesAreFree(junk[1..], outcomes, usable, retries, wait);
      assert [] + ([] + l.waits) == [] + l.waits;
    }
  }

  /** Two provider errors and then a usable response: three attempts, waits `w0` and
      `2 * w0`, and the response. */
  lemma TwoErrorsThenSuccess<R>(x: R, usable: R -> bool, w0: nat)
    requires usable(x)
    ensures Loop([Transient, Transient, Returned(x)], usable, 0, w0) == Run(3, [w0, 2 * w0], Done(x))
  {
    var o: seq<Attempt<R>> := [Transient, Transient, Returned(x)];
    assert o[1..] == [Transient, Returned(x)];
    assert o[1..][1..] == [Returned(x)];
    assert Loop([Returned(x)], usable, 2, 4 * w0) == Run(1, [], Done(x));
    assert Loop(o[1..], usable, 1, 2 * w0) == Run(2, [2 * w0], Done(x));
  }

  /** Three provider errors end the loop with "after 3 retries", whatever follows. */
  lemma ThreeErrorsExhaust<R>(rest: seq<Attempt<R>>, usable: R -> bool, w0: nat)
    ensures Loop([Transient, Transient, Transient] + rest, usable, 0, w0)
         == Run(3, [w0, 2 * w0, 4 * w0], Exhausted(3))
  {
    var o: seq<Attempt<R>> := [Transient, Transient, Transient] + rest;
    assert o[1..] == [Transient, Transient] + rest;
    assert o[1..][1..] == [Transient] + rest;
    assert Loop(o[1..][1..], usable, 2, 4 * w0) == Run(1, [4 * w0], Exhausted(3));
    assert Loop(o[1..], usable, 1, 2 * w0) == Run(2, [2 * w0, 4 * w0], Exhausted(3));
  }
}
