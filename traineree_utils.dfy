/**
 * ai_traineree_client/utils.py: the readiness poller `wait_until_agent_exists`
 * and the coercion `to_list` used to shape `step` data.
 */
module TraineereUtils {
  import opened Python
  import opened Polling

  /** What a `for` loop over `x` visits, or None when `x` is not iterable:
      a list's or tuple's items, a string's characters, a dict's keys. */
  function Iterate(x: Value): Option<seq<Value>> {
    match x
    case VList(items) => Some(items)
    case VTuple(items) => Some(items)
    case VStr(s) => Some(seq(|s|, i requires 0 <= i < |s| => VStr([s[i]])))
    case VDict(entries) =>
      var ks := DictKeys(entries);
      Some(seq(|ks|, i requires 0 <= i < |ks| => VStr(ks[i])))
    case _ => None
  }

  /** `to_list(x)`: a list is returned as it is, an int or float (a bool
      included) is wrapped in a one-element list, anything else is
      materialised with `list(x)`, which raises for a non-iterable. */
  function ToList(x: Value): (r: Result<Value, Error>)
    ensures r.Ok? ==> r.value.VList?
    ensures x.VList? ==> r == Ok(x)
    ensures IsNumber(x) ==> r == Ok(VList([x]))
    ensures !IsNumber(x) ==> r == (if Iterate(x).Some? then Ok(VList(Iterate(x).value)) else Err(NotIterable))
  {
    if x.VList? then Ok(x)
    else if IsNumber(x) then Ok(VList([x]))
    else match Iterate(x)
      case Some(items) => Ok(VList(items))
      case None => Err(NotIterable)
  }

  /** Every result is a list, so coercing twice is coercing once. */
  lemma ToListIdempotent(x: Value)
    requires ToList(x).Ok?
    ensures ToList(ToList(x).value) == ToList(x)
  {
  }

  /** Coercion keeps exactly the elements a loop over the value would see. */
  lemma ToListKeepsElements(x: Value)
    requires !IsNumber(x) && x != VNone
    ensures ToList(x).Ok? && ToList(x).value.items == Iterate(x).value
  {
  }

  /** The path every request about one agent goes to, below the API base URL. */
  function AgentPath(agentName: string): (path: string)
    ensures path == "/agents/" + agentName
  {
    "/agents/" + agentName
  }

  /** `wait_until_agent_exists` from the k-th probe on: probe, which raises
      when the read of `agent.exists` does; on True return True; otherwise
      sleep, read the clock, and return False once the elapsed time exceeds
      `maxSeconds`. */
  function ExistsPoll(path: string, probe: nat -> Result<bool, Error>, clock: nat -> real, maxSeconds: int, k: nat): (p: Poll)
    requires ClockAdvances(clock)
    requires k == 0 || clock(k) <= maxSeconds as real
    ensures p.trace != [] && p.trace[0] == Probe(path)
    ensures probe(k).Err? ==> p == Poll(Err(probe(k).error), [Probe(path)])
    ensures probe(k) == Ok(true) ==> p == Poll(Ok(true), [Probe(path)])
    decreases if 2 * maxSeconds + 2 - k > 0 then 2 * maxSeconds + 2 - k else 0
  {
    match probe(k)
    case Err(e) => Poll(Err(e), [Probe(path)])
    case Ok(found) =>
      if found then Poll(Ok(true), [Probe(path)])
      else if clock(k + 1) > maxSeconds as real then Poll(Ok(false), [Probe(path), Sleep(PollInterval)])
      else
        assert (k + 1) as real * PollInterval <= clock(k + 1);
        Prepend([Probe(path), Sleep(PollInterval)], ExistsPoll(path, probe, clock, maxSeconds, k + 1))
  }

  /** The shape of what the poller does from the k-th probe on: probe and
      sleep alternate, starting with a probe; True and an exception come
      right after a probe, False right after a sleep. */
  lemma {:induction false} ExistsPollShape(path: string, probe: nat -> Result<bool, Error>, clock: nat -> real, maxSeconds: int, k: nat)
    requires ClockAdvances(clock)
    requires k == 0 || clock(k) <= maxSeconds as real
    ensures var p := ExistsPoll(path, probe, clock, maxSeconds, k);
            && Alternates(path, p.trace)
            && (p.result != Ok(false) <==> |p.trace| % 2 == 1)
            && (p.result == Ok(false) ==> |p.trace| >= 2)
    decreases if 2 * maxSeconds + 2 - k > 0 then 2 * maxSeconds + 2 - k else 0
  {
    AlternatesBase(path);
    if probe(k) == Ok(false) {
      if clock(k + 1) <= maxSeconds as real {
        assert (k + 1) as real * PollInterval <= clock(k + 1);
        ExistsPollShape(path, probe, clock, maxSeconds, k + 1);
        AlternatesCons(path, ExistsPoll(path, probe, clock, maxSeconds, k + 1).trace);
      } else {
        AlternatesCons(path, []);
      }
    }
  }

  /** What the poller observed from the k-th probe on, after n sleeps: every
      probe but the last reported absence, and every clock reading but a
      final one that ends the wait was within the limit. So True is returned
      only after a probe that reported existence, an exception only as the
      one the last probe raised, and False only once the elapsed time
      exceeds the limit, with no probe after it. */
  lemma {:induction false} ExistsPollObserved(path: string, probe: nat -> Result<bool, Error>, clock: nat -> real, maxSeconds: int, k: nat)
    requires ClockAdvances(clock)
    requires k == 0 || clock(k) <= maxSeconds as real
    ensures var p := ExistsPoll(path, probe, clock, maxSeconds, k);
            var n := |p.trace| / 2;
            && (forall j :: k <= j < k + n ==> probe(j) == Ok(false))
            && (forall j :: k < j < k + n ==> clock(j) <= maxSeconds as real)
            && (p.result != Ok(false) ==> p.result == probe(k + n) && (n == 0 || clock(k + n) <= maxSeconds as real))
            && (p.result == Ok(false) ==> n >= 1 && clock(k + n) > maxSeconds as real)
    decreases if 2 * maxSeconds + 2 - k > 0 then 2 * maxSeconds + 2 - k else 0
  {
    if probe(k) == Ok(false) && clock(k + 1) <= maxSeconds as real {
      assert (k + 1) as real * PollInterval <= clock(k + 1);
      ExistsPollObserved(path, probe, clock, maxSeconds, k + 1);
      var q := ExistsPoll(path, probe, clock, maxSeconds, k + 1);
      assert |ExistsPoll(path, probe, clock, maxSeconds, k).trace| / 2 == |q.trace| / 2 + 1;
    }
  }

  /** `wait_until_agent_exists(agent, max_seconds)`: `probe(k)` is what the
      k-th read of `agent.exists` gives (True, False, or its exception). */
  method WaitUntilAgentExists(agentName: string, probe: nat -> Result<bool, Error>, clock: nat -> real, maxSeconds: int := 20)
    returns (r: Result<bool, Error>, trace: seq<PollEvent>)
    requires ClockAdvances(clock)
    ensures Poll(r, trace) == ExistsPoll(AgentPath(agentName), probe, clock, maxSeconds, 0)
  {
    var path := AgentPath(agentName);
    var k: nat := 0;
    trace := [];
    while true
      invariant k == 0 || clock(k) <= maxSeconds as real
      invariant ExistsPoll(path, probe, clock, maxSeconds, 0) == Prepend(trace, ExistsPoll(path, probe, clock, maxSeconds, k))
      decreases if 2 * maxSeconds + 2 - k > 0 then 2 * maxSeconds + 2 - k else 0
    {
      var answer := probe(k);
      if answer.Err? {
        return Err(answer.error), trace + [Probe(path)];
      }
      if answer.value {
        return Ok(true), trace + [Probe(path)];
      }
      var done := trace;
      trace := trace + [Probe(path), Sleep(PollInterval)];
      var elapsed := clock(k + 1);
      if elapsed > maxSeconds as real {
        return Ok(false), trace;
      }
      assert (k + 1) as real * PollInterval <= clock(k + 1);
      assert ExistsPoll(path, probe, clock, maxSeconds, k)
          == Prepend([Probe(path), Sleep(PollInterval)], ExistsPoll(path, probe, clock, maxSeconds, k + 1));
      PrependTwice(done, [Probe(path), Sleep(PollInterval)], ExistsPoll(path, probe, clock, maxSeconds, k + 1));
      k := k + 1;
    }
  }
}
