/** The judge client: three backends selected by a string identifier
    (`response_dict`, helpers.py:50-52), and an oracle that stands for the
    backends. The oracle answers from a queue of canned replies and keeps a
    log of every request it receives; an exhausted queue stands for a backend
    failure, which aborts the evaluation of the row. */
module Judge {
  import opened Wrappers
  import opened Prompts

  datatype Model = Gpt4o | Gpt4oMini | Phi3

  /** The key under which `response_dict` registers each backend. */
  function ModelId(m: Model): string {
    match m
    case Gpt4o => "gpt4o"
    case Gpt4oMini => "gpt4o_mini"
    case Phi3 => "phi3"
  }

  /** `response_dict[id]`: defined exactly for the three registered keys. */
  function LookupModel(id: string): (r: Option<Model>)
    ensures r.Some? <==> id in {"gpt4o", "gpt4o_mini", "phi3"}
    ensures r.Some? ==> ModelId(r.value) == id
  {
    if id == "gpt4o" then Some(Gpt4o)
    else if id == "gpt4o_mini" then Some(Gpt4oMini)
    else if id == "phi3" then Some(Phi3)
    else None
  }

  /** Looking up a backend's own key finds that backend. */
  lemma LookupModelId(m: Model)
    ensures LookupModel(ModelId(m)) == Some(m)
  {
    match m
    case Gpt4o =>
    case Gpt4oMini =>
    case Phi3 =>
  }

  /** One call to a backend: which model, and the prompt it is sent
      (as the conversation `Messages(prompt)`). */
  datatype Request = Request(model: Model, prompt: Prompt)

  /** What aborts a row: a `KeyError` on an unknown model id, or a backend error. */
  datatype Failure = UnknownModel(id: string) | BackendFailure

  datatype Result<T> = Ok(value: T) | Err(failure: Failure)

  /** The specification of one strategy run against a queue of replies: what
      it returns, the requests it sends in order, and the replies left over. */
  datatype Run<T> = Run(result: Result<T>, calls: seq<Request>, rest: seq<string>)

  /** Loop bookkeeping for a strategy in progress: the run still to come,
      `tail`, completes the requests already in the log into the whole run `full`. */
  ghost predicate Completes<T>(full: Run<T>, tail: Run<T>, log0: seq<Request>, log: seq<Request>) {
    tail.result == full.result && tail.rest == full.rest && log + tail.calls == log0 + full.calls
  }

  /** The reply the oracle gives when its queue is `pending`. */
  function Answer(pending: seq<string>): (r: Result<string>)
    ensures r.Ok? <==> pending != []
    ensures r.Ok? ==> r.value == pending[0]
  {
    if pending == [] then Err(BackendFailure) else Ok(pending[0])
  }

  /** The queue after one call. */
  function Remaining(pending: seq<string>): (rest: seq<string>)
    ensures pending != [] ==> pending == [pending[0]] + rest
    ensures pending == [] ==> rest == []
  {
    if pending == [] then [] else pending[1..]
  }

  class Oracle {
    /** Replies still to be given, in order. */
    var pending: seq<string>
    /** Every request received so far, in order. */
    ghost var log: seq<Request>

    constructor (script: seq<string>)
      ensures pending == script && log == []
    {
      pending := script;
      log := [];
    }

    /** Sends one request and waits for its reply. */
    method Complete(request: Request) returns (r: Result<string>)
      modifies this
      ensures log == old(log) + [request]
      ensures r == Answer(old(pending)) && pending == Remaining(old(pending))
    {
      log := log + [request];
      if pending == [] {
        r := Err(BackendFailure);
      } else {
        r := Ok(pending[0]);
        pending := pending[1..];
      }
    }
  }
}
