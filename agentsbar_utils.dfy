/**
 * agents_bar/utils.py: the readiness pollers `wait_until_active` and
 * `wait_until_exists` with their agent wrappers, `to_list`, and the error
 * check `response_raise_error_if_any`.
 *
 * Both pollers return True on every normal exit, the timeout included
 * (agents_bar/utils.py:39 and :70); only the entity assertion and an
 * exception while reading a probe's body leave them otherwise.
 */
module AgentsBarUtils {
  import opened Python
  import opened Http
  import opened Polling
  import TraineereUtils

  const SupportedEntities: seq<string> := ["agent", "environment", "experiment"]

  /** The path a poller reads for an entity, below the client's base URL. */
  function EntityPath(entity: string, name: string): string {
    "/" + entity + "s/" + name
  }

  /** The condition a poller waits for. */
  datatype Readiness = Exists | Active

  /** Whether one probe ends the wait: `response.ok` for `wait_until_exists`;
      `response.ok and response.json()['is_active']` for `wait_until_active`,
      whose second operand can raise. A request that gets no response at all
      raises out of the poller. */
  function ReadyCheck(kind: Readiness, reply: Exchange): (r: Result<bool, Error>)
    ensures reply.Unreachable? ==> r == Err(ConnectionFailed)
    ensures reply.Answered? && kind.Exists? ==> r == Ok(IsOk(reply.response.status))
    ensures reply.Answered? && kind.Active? && !IsOk(reply.response.status) ==> r == Ok(false)
    ensures reply.Answered? && kind.Active? && IsOk(reply.response.status) && reply.response.json.None? ==>
              r == Err(BadJson)
    ensures reply.Answered? && kind.Active? && IsOk(reply.response.status) && reply.response.json.Some? ==>
              r == (if Subscript(reply.response.json.value, "is_active").Ok?
                    then Ok(Truthy(Subscript(reply.response.json.value, "is_active").value))
                    else Err(Subscript(reply.response.json.value, "is_active").error))
    ensures kind.Active? && r == Ok(true) ==>
              && reply.Answered? && IsOk(reply.response.status) && reply.response.json.Some?
              && Subscript(reply.response.json.value, "is_active").Ok?
              && Truthy(Subscript(reply.response.json.value, "is_active").value)
  {
    match reply
    case Unreachable => Err(ConnectionFailed)
    case Answered(resp) =>
      match kind
      case Exists => Ok(IsOk(resp.status))
      case Active =>
        if !IsOk(resp.status) then Ok(false)
        else match resp.json
          case None => Err(BadJson)
          case Some(body) =>
            match Subscript(body, "is_active")
            case Err(e) => Err(e)
            case Ok(flag) => Ok(Truthy(flag))
  }

  /** `elapsed_time` at the k-th test of the loop guard. */
  function Elapsed(clock: nat -> real, k: nat): real {
    if k == 0 then 0.0 else clock(k)
  }

  /** The loop of `wait_until_active` / `wait_until_exists` from its k-th
      guard test on: while the elapsed time is below the limit, probe; stop
      on readiness, else sleep and read the clock. */
  function GuardPoll(kind: Readiness, path: string, probe: nat -> Exchange, clock: nat -> real, maxSeconds: int, k: nat): (p: Poll)
    requires ClockAdvances(clock)
    ensures !(Elapsed(clock, k) < maxSeconds as real) ==> p == Poll(Ok(true), [])
    ensures Elapsed(clock, k) < maxSeconds as real ==> p.trace != [] && p.trace[0] == Probe(path)
    decreases if 2 * maxSeconds + 1 - k > 0 then 2 * maxSeconds + 1 - k else 0
  {
    if !(Elapsed(clock, k) < maxSeconds as real) then Poll(Ok(true), [])
    else
      match ReadyCheck(kind, probe(k))
      case Err(e) => Poll(Err(e), [Probe(path)])
      case Ok(ready) =>
        if ready then Poll(Ok(true), [Probe(path)])
        else
          assert k as real * PollInterval <= clock(k);
          Prepend([Probe(path), Sleep(PollInterval)], GuardPoll(kind, path, probe, clock, maxSeconds, k + 1))
  }

  /** Either poller as a whole: the entity assertion, then the loop. It
      never answers False, and whatever it reads is the entity's own path. */
  function WaitSpec(kind: Readiness, entity: string, name: string, probe: nat -> Exchange, clock: nat -> real, maxSeconds: int): (p: Poll)
    requires ClockAdvances(clock)
    ensures entity !in SupportedEntities ==> p == Poll(Err(UnsupportedEntity(entity)), [])
    ensures p.result != Ok(false)
    ensures p.trace != [] ==> p.trace[0] == Probe(EntityPath(entity, name))
  {
    if entity !in SupportedEntities then Poll(Err(UnsupportedEntity(entity)), [])
    else
      GuardPollNeverFalse(kind, EntityPath(entity, name), probe, clock, maxSeconds, 0);
      GuardPoll(kind, EntityPath(entity, name), probe, clock, maxSeconds, 0)
  }

  /** The loop never returns False: every result it produces is True or an
      exception. */
  lemma {:induction false} GuardPollNeverFalse(kind: Readiness, path: string, probe: nat -> Exchange, clock: nat -> real, maxSeconds: int, k: nat)
    requires ClockAdvances(clock)
    ensures GuardPoll(kind, path, probe, clock, maxSeconds, k).result != Ok(false)
    decreases if 2 * maxSeconds + 1 - k > 0 then 2 * maxSeconds + 1 - k else 0
  {
    if Elapsed(clock, k) < maxSeconds as real && ReadyCheck(kind, probe(k)) == Ok(false) {
      assert k as real * PollInterval <= clock(k);
      GuardPollNeverFalse(kind, path, probe, clock, maxSeconds, k + 1);
    }
  }

  /** The shape of what the loop does from its k-th guard test on: probe and
      sleep alternate, starting with a probe; it ends after a probe when a
      probe stopped it, and after a sleep (or at once) when time ran out. */
  lemma {:induction false} GuardPollShape(kind: Readiness, path: string, probe: nat -> Exchange, clock: nat -> real, maxSeconds: int, k: nat)
    requires ClockAdvances(clock)
    ensures Alternates(path, GuardPoll(kind, path, probe, clock, maxSeconds, k).trace)
    decreases if 2 * maxSeconds + 1 - k > 0 then 2 * maxSeconds + 1 - k else 0
  {
    AlternatesBase(path);
    if Elapsed(clock, k) < maxSeconds as real && ReadyCheck(kind, probe(k)) == Ok(false) {
      assert k as real * PollInterval <= clock(k);
      GuardPollShape(kind, path, probe, clock, maxSeconds, k + 1);
      AlternatesCons(path, GuardPoll(kind, path, probe, clock, maxSeconds, k + 1).trace);
    }
  }

  /** What the loop observed from its k-th guard test on, after n sleeps:
      every probe was made with the elapsed time below the limit; every probe
      but the last one made was not ready; a final probe either was ready
      (result True) or raised (that exception); a run that ends after a sleep
      or at once ends because the elapsed time reached the limit, with True. */
  lemma {:induction false} GuardPollObserved(kind: Readiness, path: string, probe: nat -> Exchange, clock: nat -> real, maxSeconds: int, k: nat)
    requires ClockAdvances(clock)
    ensures var p := GuardPoll(kind, path, probe, clock, maxSeconds, k);
            var n := |p.trace| / 2;
            && (forall j :: k <= j < k + n ==> Elapsed(clock, j) < maxSeconds as real && ReadyCheck(kind, probe(j)) == Ok(false))
            && (|p.trace| % 2 == 1 ==>
                  && Elapsed(clock, k + n) < maxSeconds as real
                  && ReadyCheck(kind, probe(k + n)) != Ok(false)
                  && p.result == (if ReadyCheck(kind, probe(k + n)).Err? then Err(ReadyCheck(kind, probe(k + n)).error) else Ok(true)))
            && (|p.trace| % 2 == 0 ==> !(Elapsed(clock, k + n) < maxSeconds as real) && p.result == Ok(true))
    decreases if 2 * maxSeconds + 1 - k > 0 then 2 * maxSeconds + 1 - k else 0
  {
    if Elapsed(clock, k) < maxSeconds as real && ReadyCheck(kind, probe(k)) == Ok(false) {
      assert k as real * PollInterval <= clock(k);
      GuardPollObserved(kind, path, probe, clock, maxSeconds, k + 1);
      var q := GuardPoll(kind, path, probe, clock, maxSeconds, k + 1);
      assert |GuardPoll(kind, path, probe, clock, maxSeconds, k).trace| == |q.trace| + 2;
    }
  }

  /** With no time allowed (`max_seconds <= 0`) no probe is made, and the
      answer is still True. */
  lemma NoTimeNoProbe(kind: Readiness, entity: string, name: string, probe: nat -> Exchange, clock: nat -> real, maxSeconds: int)
    requires ClockAdvances(clock) && entity in SupportedEntities && maxSeconds <= 0
    ensures WaitSpec(kind, entity, name, probe, clock, maxSeconds) == Poll(Ok(true), [])
  {
  }

  /** An unsupported entity fails the assertion before any probe. */
  lemma UnsupportedEntityNoProbe(kind: Readiness, entity: string, name: string, probe: nat -> Exchange, clock: nat -> real, maxSeconds: int)
    requires ClockAdvances(clock) && entity !in SupportedEntities
    ensures WaitSpec(kind, entity, name, probe, clock, maxSeconds) == Poll(Err(UnsupportedEntity(entity)), [])
  {
  }

  /** The loop shared by both pollers; `probe(k)` is the response of the
      k-th `client.get(path)`, or
      Unreachable when it got none. */
  method WaitUntil(kind: Readiness, entity: string, name: string, probe: nat -> Exchange, clock: nat -> real, maxSeconds: int)
    returns (r: Result<bool, Error>, trace: seq<PollEvent>)
    requires ClockAdvances(clock)
    ensures Poll(r, trace) == WaitSpec(kind, entity, name, probe, clock, maxSeconds)
  {
    if entity !in SupportedEntities {
      return Err(UnsupportedEntity(entity)), [];
    }
    var path := EntityPath(entity, name);
    var elapsed: real := 0.0;
    var k: nat := 0;
    trace := [];
    while elapsed < maxSeconds as real
      invariant elapsed == Elapsed(clock, k)
      invariant GuardPoll(kind, path, probe, clock, maxSeconds, 0) == Prepend(trace, GuardPoll(kind, path, probe, clock, maxSeconds, k))
      decreases if 2 * maxSeconds + 1 - k > 0 then 2 * maxSeconds + 1 - k else 0
    {
      var response := probe(k);
      var ready := ReadyCheck(kind, response);
      if ready.Err? {
        return Err(ready.error), trace + [Probe(path)];
      }
      if ready.value {
        trace := trace + [Probe(path)];
        break;
      }
      assert k as real * PollInterval <= clock(k);
      assert GuardPoll(kind, path, probe, clock, maxSeconds, k)
          == Prepend([Probe(path), Sleep(PollInterval)], GuardPoll(kind, path, probe, clock, maxSeconds, k + 1));
      PrependTwice(trace, [Probe(path), Sleep(PollInterval)], GuardPoll(kind, path, probe, clock, maxSeconds, k + 1));
      trace := trace + [Probe(path), Sleep(PollInterval)];
      k := k + 1;
      elapsed := clock(k);
    }
    r := Ok(true);
  }

  /** `wait_until_active(client, entity, name, max_seconds)`. */
  method WaitUntilActive(entity: string, name: string, probe: nat -> Exchange, clock: nat -> real, maxSeconds: int := 20)
    returns (r: Result<bool, Error>, trace: seq<PollEvent>)
    requires ClockAdvances(clock)
    ensures Poll(r, trace) == WaitSpec(Active, entity, name, probe, clock, maxSeconds)
  {
    r, trace := WaitUntil(Active, entity, name, probe, clock, maxSeconds);
  }

  /** `wait_until_exists(client, entity, name, max_seconds)`. */
  method WaitUntilExists(entity: string, name: string, probe: nat -> Exchange, clock: nat -> real, maxSeconds: int := 20)
    returns (r: Result<bool, Error>, trace: seq<PollEvent>)
    requires ClockAdvances(clock)
    ensures Poll(r, trace) == WaitSpec(Exists, entity, name, probe, clock, maxSeconds)
  {
    r, trace := WaitUntil(Exists, entity, name, probe, clock, maxSeconds);
  }

  /** `wait_until_agent_is_active(agent, max_seconds)`: the active poller on
      the agent's own name. */
  method WaitUntilAgentIsActive(agentName: string, probe: nat -> Exchange, clock: nat -> real, maxSeconds: int := 20)
    returns (r: Result<bool, Error>, trace: seq<PollEvent>)
    requires ClockAdvances(clock)
    ensures Poll(r, trace) == GuardPoll(Active, TraineereUtils.AgentPath(agentName), probe, clock, maxSeconds, 0)
  {
    assert "agent" in SupportedEntities;
    assert EntityPath("agent", agentName) == TraineereUtils.AgentPath(agentName);
    r, trace := WaitUntilActive("agent", agentName, probe, clock, maxSeconds);
  }

  /** `wait_until_agent_exists(agent, max_seconds)`: the existence poller on
      the agent's own name. */
  method WaitUntilAgentExists(agentName: string, probe: nat -> Exchange, clock: nat -> real, maxSeconds: int := 20)
    returns (r: Result<bool, Error>, trace: seq<PollEvent>)
    requires ClockAdvances(clock)
    ensures Poll(r, trace) == GuardPoll(Exists, TraineereUtils.AgentPath(agentName), probe, clock, maxSeconds, 0)
  {
    assert "agent" in SupportedEntities;
    assert EntityPath("agent", agentName) == TraineereUtils.AgentPath(agentName);
    r, trace := WaitUntilExists("agent", agentName, probe, clock, maxSeconds);
  }

  /** The examples of the `to_list` docstring (agents_bar/utils.py holds the
      same function as ai_traineree_client/utils.py). */
  lemma ToListExamples()
    ensures TraineereUtils.ToList(VInt(1)) == Ok(VList([VInt(1)]))
    ensures TraineereUtils.ToList(VList([VInt(1), VInt(2)])) == Ok(VList([VInt(1), VInt(2)]))
    ensures TraineereUtils.ToList(VTuple([VFloat(1.2), VFloat(3.0), VFloat(0.0)]))
              == Ok(VList([VFloat(1.2), VFloat(3.0), VFloat(0.0)]))
  {
  }

  /** The reason `response_raise_error_if_any` reports: the body's 'detail'
      (None if absent) when the body parses as a dict, else the raw text. */
  function Reason(resp: Response): (reason: Value)
    ensures !(resp.json.Some? && resp.json.value.VDict?) ==> reason == VStr(resp.text)
    ensures resp.json.Some? && resp.json.value.VDict? ==>
              reason == (if "detail" in KeysOf(resp.json.value.entries) then DictToMap(resp.json.value.entries)["detail"] else VNone)
  {
    match resp.json
    case Some(VDict(entries)) => DictGet(DictToMap(entries), "detail")
    case _ => VStr(resp.text)
  }

  /** `response_raise_error_if_any(response)`: raises exactly for a client or
      server error status, with the server's reason; passes silently
      otherwise. */
  function RaiseErrorIfAny(resp: Response): (r: Result<(), Error>)
    ensures r.Err? <==> 400 <= resp.status < 600
    ensures r.Err? ==> r.error == HttpErrorWithReason(resp.status, Reason(resp))
    ensures r.Ok? <==> IsOk(resp.status)
  {
    if IsOk(resp.status) then Ok(()) else Err(HttpErrorWithReason(resp.status, Reason(resp)))
  }

  /** The reason is the 'detail' member exactly when the body is a JSON
      object, and None when that object has no 'detail'. */
  lemma ReasonCases(resp: Response)
    ensures resp.json.Some? && resp.json.value.VDict? && "detail" in KeysOf(resp.json.value.entries) ==>
              Reason(resp) == Subscript(resp.json.value, "detail").value
    ensures resp.json.Some? && resp.json.value.VDict? && "detail" !in KeysOf(resp.json.value.entries) ==>
              Reason(resp) == VNone
    ensures !(resp.json.Some? && resp.json.value.VDict?) ==> Reason(resp) == VStr(resp.text)
  {
  }
}
