/**
 * The HTTP layer the client talks through, reduced to what the client
 * observes: a response's status, text and parsed JSON body, and whether a
 * request got any response at all. The transport is a script of replies that
 * successive requests consume, with a log of the requests sent.
 */
module Http {
  import opened Python

  /** A response. `json` is None when the body is not valid JSON, so that
      `response.json()` raises. */
  datatype Response = Response(status: int, text: string, json: Option<Value>)

  /** `response.ok`: false exactly when `raise_for_status()` raises, that is
      for a client error (4xx) or a server error (5xx). */
  predicate IsOk(status: int) {
    !(400 <= status < 600)
  }

  /** What one request yields: a response, or a network failure. */
  datatype Exchange = Answered(response: Response) | Unreachable

  datatype Verb = Get | Post | Delete

  /** Request bodies the client sends. */
  datatype Body =
    | NoBody
      /** a JSON document (`json=` or `data=json.dumps(...)`) */
    | Json(value: Value)
      /** form fields (`data=dict(...)`) */
    | Form(fields: seq<(string, Value)>)
      /** the JSON object {name, model, description, config} of agent
          creation; the key order of `config` is not modelled */
    | AgentSpec(name: string, model: Value, description: string, config: map<string, Value>)

  /** A request: method, full URL, query parameters, the bearer token of the
      `Authorization` header (None when no header is sent) and the body. */
  datatype Request = Request(verb: Verb, url: string, query: seq<(string, Value)>, bearer: Option<Value>, body: Body)

  /** The reply the `i`-th next request receives; past the end of the script
      every request fails. */
  function ReplyAt(replies: seq<Exchange>, i: nat): Exchange {
    if i < |replies| then replies[i] else Unreachable
  }

  /** The script after `n` requests. */
  function Drop(replies: seq<Exchange>, n: nat): (rest: seq<Exchange>)
    ensures forall i: nat :: ReplyAt(rest, i) == ReplyAt(replies, n + i)
  {
    if n <= |replies| then replies[n..] else []
  }

  /** Taking `n` replies and then `m` more is taking `n + m`. */
  lemma DropTwice(replies: seq<Exchange>, n: nat, m: nat)
    ensures Drop(Drop(replies, n), m) == Drop(replies, n + m)
  {
  }

  /** `n` copies of one request. */
  function Repeat(req: Request, n: nat): (reqs: seq<Request>)
    ensures |reqs| == n
    ensures forall i :: 0 <= i < n ==> reqs[i] == req
  {
    seq(n, _ => req)
  }

  class Transport {
    /** the replies still to come, in order */
    var replies: seq<Exchange>
    /** every request sent so far, in order */
    var sent: seq<Request>

    constructor (script: seq<Exchange>)
      ensures replies == script && sent == []
    {
      replies := script;
      sent := [];
    }

    /** Sends one request and takes the next reply of the script. */
    method Send(req: Request) returns (e: Exchange)
      modifies this
      ensures e == ReplyAt(old(replies), 0)
      ensures replies == Drop(old(replies), 1)
      ensures sent == old(sent) + [req]
    {
      e := ReplyAt(replies, 0);
      replies := Drop(replies, 1);
      sent := sent + [req];
    }
  }
}
