// Proxy::Command and ProxyPar::Command on top of the request pipeline: the response handler of the k-th
// request is the OnResponse of the k-th promise.
module Command {
  import opened Options
  import P = Pipeline
  import Q = PipelineRuns
  import M = ProxyModel
  import R = ProxyRuns
  import Y = ProxyPlain

  datatype State = State(http: P.State, promises: seq<M.State>, results: seq<M.Value>)

  const Init := State(P.Init, [], [])

  // `message` is the text of the error code and `value` what the body decodes to.
  datatype Event =
    | Issue(kind: M.Kind, request: P.Request, result: M.Value)
    | Attach(k: nat, c: M.Call)
    | Completion(i: nat, out: P.Outcome, message: string, value: Option<string>)
    | Returned

  predicate Enabled(s: State, e: Event) {
    match e
    case Issue(_, _, _) => true
    case Attach(k, c) => k < |s.promises| && R.CalmCall(c)
    case Completion(i, out, _, _) => P.Enabled(s.http, P.Completed(i, out))
    case Returned => P.Enabled(s.http, P.Returned)
  }

  function ToResponse(reply: P.Reply, message: string, value: Option<string>, result: M.Value): M.Response {
    M.Response(reply.failed, message, reply.message.status, reply.message.reason, value, result)
  }

  // Hands a new answer, if there is one, to its promise.
  function Deliver(s: State, http: P.State, message: string, value: Option<string>): State {
    var n := |s.http.log.answered|;
    if |http.log.answered| <= n then s.(http := http)
    else
      var a := http.log.answered[n];
      if a.ticket >= |s.promises| || a.ticket >= |s.results| then s.(http := http)
      else
        var m := M.Respond(s.promises[a.ticket], ToResponse(a.reply, message, value, s.results[a.ticket])).s;
        s.(http := http, promises := s.promises[a.ticket := m])
  }

  function Step(s: State, e: Event): State
    requires Enabled(s, e)
  {
    match e
    case Issue(kind, r, result) =>
      State(P.Submit(s.http, r), s.promises + [M.New(kind)], s.results + [result])
    case Attach(k, c) => s.(promises := s.promises[k := M.Register(s.promises[k], c).s])
    case Completion(i, out, message, value) => Deliver(s, P.Complete(s.http, i, out), message, value)
    case Returned => s.(http := P.Return(s.http))
  }

  predicate IsRun(es: seq<Event>)
    decreases |es|, 0
  {
    es == [] || (IsRun(es[..|es| - 1]) && Enabled(Run(es[..|es| - 1]), es[|es| - 1]))
  }

  function Run(es: seq<Event>): State
    requires IsRun(es)
    decreases |es|, 1
  {
    if es == [] then Init else Step(Run(es[..|es| - 1]), es[|es| - 1])
  }
}
