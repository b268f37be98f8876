/**
 * What the readiness pollers share: the trace of what they did (probes and
 * sleeps), and the clock they read. The clock is the sequence of readings of
 * `time.time() - start_time`: `clock(k)` is the reading taken right after the
 * k-th sleep.
 */
module Polling {
  import opened Python

  /** The pause between two probes, in seconds (`time.sleep(0.5)`). */
  const PollInterval: real := 0.5

  datatype PollEvent = Probe(path: string) | Sleep(seconds: real)

  /** What a poller returned, and what it did on the way. */
  datatype Poll = Poll(result: Result<bool, Error>, trace: seq<PollEvent>)

  /** The trace after `done` was already recorded. */
  function Prepend(done: seq<PollEvent>, p: Poll): Poll {
    Poll(p.result, done + p.trace)
  }

  /** Each sleep lasts at least the interval, so after k sleeps at least
      k times the interval has elapsed. */
  ghost predicate ClockAdvances(clock: nat -> real) {
    forall k: nat :: k as real * PollInterval <= clock(k)
  }

  /** The events of `n` rounds of probe-then-sleep. */
  function Rounds(path: string, n: nat): (t: seq<PollEvent>)
    ensures |t| == 2 * n
    ensures forall i :: 0 <= i < |t| ==> t[i] == if i % 2 == 0 then Probe(path) else Sleep(PollInterval)
  {
    seq(2 * n, i => if i % 2 == 0 then Probe(path) else Sleep(PollInterval))
  }

  /** Recording `a` and then `b` is recording `a + b`. */
  lemma PrependTwice(a: seq<PollEvent>, b: seq<PollEvent>, p: Poll)
    ensures Prepend(a, Prepend(b, p)) == Prepend(a + b, p)
  {
    assert a + (b + p.trace) == (a + b) + p.trace;
  }

  /** A trace of whole probe-then-sleep rounds, possibly followed by one
      last probe. */
  predicate Alternates(path: string, t: seq<PollEvent>) {
    t == Rounds(path, |t| / 2) + (if |t| % 2 == 1 then [Probe(path)] else [])
  }

  /** The traces of a poller that stops at once, or after its first probe. */
  lemma AlternatesBase(path: string)
    ensures Alternates(path, [])
    ensures Alternates(path, [Probe(path)])
  {
    assert [Probe(path)] == Rounds(path, 0) + [Probe(path)];
  }

  /** A round in front of an alternating trace keeps it alternating. */
  lemma AlternatesCons(path: string, t: seq<PollEvent>)
    requires Alternates(path, t)
    ensures Alternates(path, [Probe(path), Sleep(PollInterval)] + t)
  {
    var round := [Probe(path), Sleep(PollInterval)];
    var n := |t| / 2;
    var tail := if |t| % 2 == 1 then [Probe(path)] else [];
    assert |round + t| / 2 == n + 1 && |round + t| % 2 == |t| % 2;
    assert round + Rounds(path, n) == Rounds(path, n + 1);
    assert round + (Rounds(path, n) + tail) == (round + Rounds(path, n)) + tail;
  }
}
