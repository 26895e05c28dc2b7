// What holds over every run of commands, attachments and completions, told by the events alone.
module CommandRuns {
  import opened Options
  import opened Command
  import P = Pipeline
  import Q = PipelineRuns
  import M = ProxyModel
  import R = ProxyRuns
  import Y = ProxyPlain

  datatype Issued = Issued(kind: M.Kind, request: P.Request, result: M.Value)

  function Issues(es: seq<Event>): seq<Issued> {
    if es == [] then []
    else
      var e := es[|es| - 1];
      Issues(es[..|es| - 1]) + (if e.Issue? then [Issued(e.kind, e.request, e.result)] else [])
  }

  // The handlers attached to side x of the k-th command, in order.
  function Attached(es: seq<Event>, k: nat, x: M.Side): seq<M.Handler> {
    if es == [] then []
    else
      var e := es[|es| - 1];
      Attached(es[..|es| - 1], k, x) + (if e.Attach? && e.k == k && e.c.side == x then [e.c.h] else [])
  }

  // All that happened before the k-th request was answered.
  function Before(es: seq<Event>, k: nat): (pre: seq<Event>)
    requires IsRun(es)
    ensures pre <= es && IsRun(pre) && |Run(pre).http.log.answered| <= k
    decreases |es|
  {
    if |Run(es).http.log.answered| <= k then es else Before(es[..|es| - 1], k)
  }

  // ---- the pipeline below ----

  function HttpEvents(es: seq<Event>): seq<P.Event> {
    if es == [] then []
    else
      HttpEvents(es[..|es| - 1]) +
      match es[|es| - 1]
      case Issue(_, r, _) => [P.Submitted(r)]
      case Attach(_, _) => []
      case Completion(i, out, _, _) => [P.Completed(i, out)]
      case Returned => [P.Returned]
  }

  // A run of commands is a run of the pipeline, so every theorem about the pipeline is about commands.
  lemma {:induction false} HttpRun(es: seq<Event>)
    requires IsRun(es)
    ensures P.IsRun(P.Init, HttpEvents(es)) && P.Run(P.Init, HttpEvents(es)) == Run(es).http
    decreases |es|
  {
    if es != [] {
      var front, e := es[..|es| - 1], es[|es| - 1];
      HttpRun(front);
      if !e.Attach? {
        var h := HttpEvents(es)[|HttpEvents(front)|];
        assert HttpEvents(es) == HttpEvents(front) + [h] && [h][1..] == [];
        Q.RunAppend(P.Init, HttpEvents(front), [h]);
      } else {
        assert HttpEvents(es) == HttpEvents(front);
      }
    }
  }

  lemma {:induction false} HttpRequests(es: seq<Event>)
    ensures |Q.Requests(HttpEvents(es))| == |Issues(es)|
    ensures forall k :: 0 <= k < |Issues(es)| ==> Q.Requests(HttpEvents(es))[k] == Issues(es)[k].request
    decreases |es|
  {
    if es != [] {
      var front, e := es[..|es| - 1], es[|es| - 1];
      HttpRequests(front);
      var tail := HttpEvents(es)[|HttpEvents(front)|..];
      assert HttpEvents(es) == HttpEvents(front) + tail;
      RequestsAppend(HttpEvents(front), tail);
      assert Q.Requests(tail) == if e.Issue? then [e.request] else [];
    }
  }

  lemma {:induction false} RequestsAppend(a: seq<P.Event>, b: seq<P.Event>)
    ensures Q.Requests(a + b) == Q.Requests(a) + Q.Requests(b)
    decreases |a|
  {
    if a == [] {
      assert a + b == b;
    } else {
      assert (a + b)[1..] == a[1..] + b;
      RequestsAppend(a[1..], b);
    }
  }

  // The pipeline below has been given the requests issued, and keeps its invariant.
  lemma HttpIssues(es: seq<Event>)
    requires IsRun(es)
    ensures P.Inv(Run(es).http) && |Run(es).http.log.submitted| == |Issues(es)|
    ensures forall k :: 0 <= k < |Issues(es)| ==> Run(es).http.log.submitted[k] == Issues(es)[k].request
  {
    HttpRun(es);
    HttpRequests(es);
    P.RunInv(P.Init, HttpEvents(es));
    Q.RunLog(P.Init, HttpEvents(es));
    assert [] + Q.Requests(HttpEvents(es)) == Q.Requests(HttpEvents(es));
  }

  // ---- what the events say about one command ----

  datatype Lists = Lists(afters: seq<M.Handler>, errors: seq<M.Handler>)

  function On(l: Lists, x: M.Side): seq<M.Handler> {
    if x == M.After then l.afters else l.errors
  }

  // The handlers attached before the answer and by now, and the answer.
  datatype Story = Story(kind: M.Kind, response: Option<M.Response>, before: Lists, now: Lists)

  function AttachedTo(es: seq<Event>, k: nat): Lists {
    Lists(Attached(es, k, M.After), Attached(es, k, M.OnError))
  }

  function Answered(es: seq<Event>): nat
    requires IsRun(es)
  {
    |Run(es).http.log.answered|
  }

  // The response as the completion event tells it.
  function Heard(reply: P.Reply, e: Event, result: M.Value): M.Response
    requires e.Completion?
  {
    M.Response(reply.failed, e.message, reply.message.status, reply.message.reason, e.value, result)
  }

  function Told(es: seq<Event>, k: nat): Story
    requires IsRun(es) && k < |Issues(es)|
  {
    var pre, i := Before(es, k), Issues(es)[k];
    Story(i.kind,
          if k < Answered(es) && |pre| < |es| && es[|pre|].Completion?
          then Some(Heard(Run(es).http.log.answered[k].reply, es[|pre|], i.result)) else None,
          AttachedTo(pre, k), AttachedTo(es, k))
  }

  predicate PlainLists(l: Lists) {
    Y.AllPlain(l.afters) && Y.AllPlain(l.errors)
  }

  // The promise knows that story.
  ghost predicate Knows(p: M.State, v: Story) {
    && p.env.kind == v.kind && R.PromiseInv(p)
    && if v.response.None? then
         p.log.responses == [] && forall x :: M.Registered(p, x) == On(v.now, x)
       else
         && p.log.responses == [v.response.value] && p.log.early == |v.before.afters|
         && forall x :: KnowsSide(p, v, x)
  }

  // What was attached to side x is registered, and in this order if it is all plain.
  ghost predicate KnowsSide(p: M.State, v: Story, x: M.Side) {
    && On(v.before, x) <= M.Registered(p, x)
    && multiset(On(v.now, x)) <= multiset(M.Registered(p, x))
    && (PlainLists(v.now) ==> M.Registered(p, x) == On(v.now, x) && (M.Settled(p.env, x) ==> Y.InOrder(p, x)))
  }

  function Add(l: Lists, c: M.Call): Lists {
    if c.side == M.After then l.(afters := l.afters + [c.h]) else l.(errors := l.errors + [c.h])
  }

  lemma OneMore(a: seq<M.Handler>, r: seq<M.Handler>, m: seq<M.Handler>, t: seq<M.Handler>, h: M.Handler)
    requires multiset(a) <= multiset(r) && (m == r || m == r + [h]) && m <= t
    ensures multiset(a) <= multiset(t)
    ensures m == r + [h] ==> multiset(a + [h]) <= multiset(t)
  {
    assert t == m + t[|m|..];
  }

  // Before the answer an attachment is noted, and afterwards too.
  lemma AttachKnown(p: M.State, v: Story, c: M.Call)
    requires Knows(p, v) && R.CalmCall(c)
    ensures v.response.None? ==> Knows(M.Register(p, c).s, v.(before := Add(v.now, c), now := Add(v.now, c)))
    ensures v.response.Some? ==> Knows(M.Register(p, c).s, v.(now := Add(v.now, c)))
  {
    R.RegisterInv(p, c);
    M.RegisterDoes(p, c);
    if v.response.Some? {
      forall x
        ensures KnowsSide(M.Register(p, c).s, v.(now := Add(v.now, c)), x)
      {
        AttachSide(p, v, c, x);
      }
    }
  }

  lemma AttachSide(p: M.State, v: Story, c: M.Call, x: M.Side)
    requires KnowsSide(p, v, x) && (PlainLists(v.now) ==> KnowsSide(p, v, c.side))
    ensures KnowsSide(M.Register(p, c).s, v.(now := Add(v.now, c)), x)
  {
    var t, now := M.Register(p, c).s, Add(v.now, c);
    M.RegisterDoes(p, c);
    R.RegisterGrows(p, c, x);
    OneMore(On(v.now, x), M.Registered(p, x), M.Registered(M.Note(p, c.side, c.h), x), M.Registered(t, x), c.h);
    if PlainLists(now) {
      PlainBefore(v.now, c);
      Y.RegisterPlain(p, c, x);
    }
  }

  lemma PlainBefore(l: Lists, c: M.Call)
    requires PlainLists(Add(l, c))
    ensures PlainLists(l) && Y.Plain(c.h)
  {
    var now := Add(l, c);
    assert On(now, c.side)[|On(l, c.side)|] == c.h;
    assert forall i :: 0 <= i < |l.afters| ==> l.afters[i] == now.afters[i];
    assert forall i :: 0 <= i < |l.errors| ==> l.errors[i] == now.errors[i];
  }

  // The answer is heard.
  lemma AnswerKnown(p: M.State, v: Story, r: M.Response)
    requires Knows(p, v) && v.response.None?
    ensures Knows(M.Respond(p, r).s, v.(response := Some(r), before := v.now))
  {
    R.ArrivalInv(p, r);
    R.RespondGrows(p, r, M.After);
    assert p.log.afters == On(v.now, M.After);
    forall x
      ensures KnowsSide(M.Respond(p, r).s, v.(response := Some(r), before := v.now), x)
    {
      AnswerSide(p, v, r, x);
    }
  }

  lemma AnswerSide(p: M.State, v: Story, r: M.Response, x: M.Side)
    requires Knows(p, v) && v.response.None?
    ensures KnowsSide(M.Respond(p, r).s, v.(response := Some(r), before := v.now), x)
  {
    R.RespondGrows(p, r, x);
    assert p.log.afters == On(v.now, M.After) && p.log.errors == On(v.now, M.OnError);
    if PlainLists(v.now) { AnswerPlain(p, r); }
    hide R.PromiseInv, M.Respond;
    var a, b := M.Registered(p, x), M.Registered(M.Respond(p, r).s, x);
    assert b == a + b[|a|..];
  }

  lemma AnswerPlain(p: M.State, r: M.Response)
    requires R.PromiseInv(p) && p.log.responses == [] && Y.AllPlain(p.log.afters) && Y.AllPlain(p.log.errors)
    ensures var t := M.Respond(p, r).s;
      forall x :: M.Registered(t, x) == M.Registered(p, x) && (M.Settled(t.env, x) ==> Y.InOrder(t, x))
  {
    Y.RespondPlain(p, r);
    R.ArrivalInv(p, r);
    R.SucceedsIsResult(p.env.kind, r);
  }

  // ---- one more event ----

  // A completion answers the front request or no request at all.
  lemma AnswersGrow(s: P.State, i: nat, out: P.Outcome)
    requires P.Inv(s) && P.Enabled(s, P.Completed(i, out))
    ensures var t := P.Complete(s, i, out);
      && s.log.answered <= t.log.answered
      && (t.log.answered == s.log.answered
          || (|t.log.answered| == |s.log.answered| + 1
              && t.log.answered[|s.log.answered|].ticket == |s.log.answered| < |s.log.submitted|))
  {
    P.OneOperation(s, i);
  }

  lemma StepAnswers(es: seq<Event>)
    requires IsRun(es) && es != []
    ensures var front, e := es[..|es| - 1], es[|es| - 1];
      var a, b := Run(front).http.log.answered, Run(es).http.log.answered;
      && a <= b && |b| <= |a| + 1
      && (|b| > |a| ==> e.Completion? && b[|a|].ticket == |a| < |Issues(front)|)
  {
    var front, e := es[..|es| - 1], es[|es| - 1];
    HttpIssues(front);
    if e.Completion? { AnswersGrow(Run(front).http, e.i, e.out); }
  }

  lemma BeforeStep(es: seq<Event>, k: nat)
    requires IsRun(es) && es != []
    ensures var front := es[..|es| - 1];
      if k < Answered(front) then Before(es, k) == Before(front, k)
      else Before(front, k) == front && Before(es, k) == if k < Answered(es) then front else es
  {
    StepAnswers(es);
  }

  // How an event changes the story of a command.
  lemma TellStep(es: seq<Event>, k: nat)
    requires IsRun(es) && es != [] && k < |Issues(es[..|es| - 1])|
    requires Answered(es[..|es| - 1]) > k ==> Told(es[..|es| - 1], k).response.Some?
    ensures k < |Issues(es)|
    ensures var front, e := es[..|es| - 1], es[|es| - 1];
      var v, w := Told(front, k), Told(es, k);
      && (Answered(es) > k ==> w.response.Some?)
      && if e.Attach? && e.k == k then
           && w.now == Add(v.now, e.c) && w.before == (if v.response.None? then w.now else v.before)
           && w.kind == v.kind && w.response == v.response
         else if Answered(front) <= k < Answered(es) then
           && v.response.None? && e.Completion?
           && w == v.(response := Some(Heard(Run(es).http.log.answered[k].reply, e, Issues(front)[k].result)),
                      before := v.now)
         else w == v
  {
    hide Run, Before, Issues, Attached;
    BeforeStep(es, k);
    StepAnswers(es);
    IssuesStep(es);
    ListsStep(es, k);
    var front := es[..|es| - 1];
    if k < Answered(front) { assert es[|Before(es, k)|] == front[|Before(es, k)|]; }
  }

  lemma ListsStep(es: seq<Event>, k: nat)
    requires es != []
    ensures var front, e := es[..|es| - 1], es[|es| - 1];
      AttachedTo(es, k) == if e.Attach? && e.k == k then Add(AttachedTo(front, k), e.c) else AttachedTo(front, k)
  {
  }

  lemma IssuesStep(es: seq<Event>)
    requires es != []
    ensures Issues(es[..|es| - 1]) <= Issues(es)
    ensures |Issues(es)| == |Issues(es[..|es| - 1])| + if es[|es| - 1].Issue? then 1 else 0
  {
  }

  ghost predicate AllKnown(es: seq<Event>)
    requires IsRun(es)
  {
    Sizes(es) && forall k :: 0 <= k < |Issues(es)| ==> KnowsItsStory(es, k)
  }

  ghost predicate Sizes(es: seq<Event>)
    requires IsRun(es)
  {
    var s := Run(es);
    && |s.promises| == |s.results| == |Issues(es)|
    && (forall k :: 0 <= k < |Issues(es)| ==> s.results[k] == Issues(es)[k].result)
    && (forall k: nat :: k >= |Issues(es)| ==> AttachedTo(es, k) == Lists([], []))
  }

  ghost predicate KnowsItsStory(es: seq<Event>, k: nat)
    requires IsRun(es)
  {
    && k < |Run(es).promises| && k < |Issues(es)|
    && Knows(Run(es).promises[k], Told(es, k))
    && (Answered(es) > k ==> Told(es, k).response.Some?)
  }

  // What an event does to the promises.
  lemma PromisesStep(es: seq<Event>, k: nat)
    requires IsRun(es) && es != [] && AllKnown(es[..|es| - 1]) && k < |Issues(es[..|es| - 1])|
    ensures k < |Run(es).promises|
    ensures var front, e := es[..|es| - 1], es[|es| - 1];
      var p, q := Run(front).promises[k], Run(es).promises[k];
      q == if e.Attach? && e.k == k then M.Register(p, e.c).s
           else if Answered(front) <= k < Answered(es) && e.Completion? then
             M.Respond(p, Heard(Run(es).http.log.answered[k].reply, e, Issues(front)[k].result)).s
           else p
  {
    StepAnswers(es);
  }

  lemma KnownStep(es: seq<Event>, k: nat)
    requires IsRun(es) && es != [] && AllKnown(es[..|es| - 1]) && k < |Issues(es[..|es| - 1])|
    ensures KnowsItsStory(es, k)
  {
    var front, e := es[..|es| - 1], es[|es| - 1];
    assert KnowsItsStory(front, k);
    TellStep(es, k);
    PromisesStep(es, k);
    var p, v := Run(front).promises[k], Told(front, k);
    StepAnswers(es);
    hide Knows, Told, Run, IsRun;
    if e.Attach? && e.k == k {
      AttachKnown(p, v, e.c);
    } else if Answered(front) <= k < Answered(es) {
      AnswerKnown(p, v, Heard(Run(es).http.log.answered[k].reply, e, Issues(front)[k].result));
    }
  }

  lemma NewKnown(es: seq<Event>)
    requires IsRun(es) && es != [] && AllKnown(es[..|es| - 1]) && es[|es| - 1].Issue?
    ensures KnowsItsStory(es, |Issues(es[..|es| - 1])|)
  {
    var k := |Issues(es[..|es| - 1])|;
    NewPromise(es, k);
    NewTold(es, k);
    hide Run, IsRun, AllKnown, Told, Knows;
    NewKnows(es[|es| - 1].kind, Told(es, k));
  }

  lemma NewPromise(es: seq<Event>, k: nat)
    requires IsRun(es) && es != [] && AllKnown(es[..|es| - 1]) && es[|es| - 1].Issue? && k == |Issues(es[..|es| - 1])|
    ensures |Issues(es)| == k + 1 == |Run(es).promises| && Run(es).promises[k] == M.New(es[|es| - 1].kind)
  {
  }

  lemma NewTold(es: seq<Event>, k: nat)
    requires IsRun(es) && es != [] && AllKnown(es[..|es| - 1]) && es[|es| - 1].Issue? && k == |Issues(es[..|es| - 1])|
    ensures k < |Issues(es)| && Answered(es) <= k
    ensures var v := Told(es, k); v.kind == es[|es| - 1].kind && v.response.None? && v.now == Lists([], [])
  {
    var front := es[..|es| - 1];
    HttpIssues(front);
    StepAnswers(es);
    hide AllKnown;
    assert AttachedTo(front, k) == Lists([], []) by { KeepsEmpty(front, k); }
    assert AttachedTo(es, k) == Lists([], []);
  }

  lemma KeepsEmpty(es: seq<Event>, k: nat)
    requires IsRun(es) && AllKnown(es) && k >= |Issues(es)|
    ensures AttachedTo(es, k) == Lists([], [])
  {
  }

  lemma NewKnows(kind: M.Kind, v: Story)
    requires v.kind == kind && v.response.None? && v.now == Lists([], [])
    ensures Knows(M.New(kind), v)
  {
  }

  lemma {:induction false} RunKnown(es: seq<Event>)
    requires IsRun(es)
    ensures AllKnown(es)
    decreases |es|
  {
    if es != [] {
      RunKnown(es[..|es| - 1]);
      AllKnownStep(es);
    }
  }

  lemma AllKnownStep(es: seq<Event>)
    requires IsRun(es) && es != [] && AllKnown(es[..|es| - 1])
    ensures AllKnown(es)
  {
    hide Run, IsRun, Issues, Sizes, KnowsItsStory;
    RunSizes(es);
    forall k | 0 <= k < |Issues(es)|
      ensures KnowsItsStory(es, k)
    {
      OneKnown(es, k);
    }
  }

  lemma OneKnown(es: seq<Event>, k: nat)
    requires IsRun(es) && es != [] && AllKnown(es[..|es| - 1]) && k < |Issues(es)|
    ensures KnowsItsStory(es, k)
  {
    hide Run, IsRun, AllKnown, KnowsItsStory;
    IssuesStep(es);
    if k < |Issues(es[..|es| - 1])| { KnownStep(es, k); } else { NewKnown(es); }
  }

  lemma RunSizes(es: seq<Event>)
    requires IsRun(es) && es != [] && Sizes(es[..|es| - 1])
    ensures Sizes(es)
  {
    var front := es[..|es| - 1];
    SizesStep(es);
    IssuesStep(es);
    forall k: nat | k >= |Issues(es)|
      ensures AttachedTo(es, k) == Lists([], [])
    {
      assert AttachedTo(front, k) == Lists([], []);
      hide Run, IsRun, Issues;
    }
  }

  lemma SizesStep(es: seq<Event>)
    requires IsRun(es) && es != [] && Sizes(es[..|es| - 1])
    ensures var s := Run(es);
      && |s.promises| == |s.results| == |Issues(es)|
      && (forall k :: 0 <= k < |Issues(es)| ==> s.results[k] == Issues(es)[k].result)
    ensures es[|es| - 1].Attach? ==> es[|es| - 1].k < |Issues(es)|
  {
  }

  // In every run of commands, attachments and completions, for the k-th command:
  //   - until its request is answered nothing attached has been called;
  //   - then all calls on it have had the arguments this answer means, on the matching side only;
  //   - every handler attached to that side has been called, as often as it was attached at least, and in the
  //     order of attachment exactly if the handlers attached register nothing themselves;
  //   - except that by a success of Proxy (ProxyImpl<void>) the After handlers called are just those attached
  //     before the answer, in order.
  lemma CommandsSettleTheirPromise(es: seq<Event>, k: nat)
    requires IsRun(es) && k < |Issues(es)|
    ensures |Run(es).promises| == |Run(es).http.log.submitted| == |Issues(es)|
    ensures Run(es).http.log.submitted[k] == Issues(es)[k].request
    ensures k >= Answered(es) ==> Run(es).promises[k].log.fired == []
    ensures k < Answered(es) ==>
      && |Before(es, k)| < |es| && es[|Before(es, k)|].Completion?
      && var r := Heard(Run(es).http.log.answered[k].reply, es[|Before(es, k)|], Issues(es)[k].result);
         Settled(Run(es).promises[k], Issues(es)[k].kind, r, AttachedTo(Before(es, k), k), AttachedTo(es, k))
  {
    RunKnown(es);
    HttpIssues(es);
    assert KnowsItsStory(es, k);
    var p := Run(es).promises[k];
    R.PromiseArguments(p);
    if k < Answered(es) { StorySettles(p, Told(es, k)); }
  }

  // What the response has done to a promise with these handlers attached before it and by now.
  ghost predicate Settled(p: M.State, kind: M.Kind, r: M.Response, before: Lists, now: Lists) {
    var m := R.Delivered(kind, r);
    var x := R.SideOf(m);
    && (forall i :: 0 <= i < |p.log.fired| ==> p.log.fired[i].payload == m)
    && R.Called(p, if x == M.After then M.OnError else M.After) == []
    && if kind == M.OfVoid && x == M.After then R.Called(p, x) == On(before, x)
       else
         && multiset(On(now, x)) <= multiset(R.Called(p, x)) == multiset(M.Registered(p, x))
         && (PlainLists(now) ==> R.Called(p, x) == On(now, x))
  }

  lemma StorySettles(p: M.State, v: Story)
    requires Knows(p, v) && v.response.Some?
    ensures Settled(p, v.kind, v.response.value, v.before, v.now)
  {
    var r := v.response.value;
    R.PromiseArguments(p);
    R.SucceedsIsResult(p.env.kind, r);
    assert KnowsSide(p, v, R.SideOf(R.Delivered(v.kind, r)));
  }
}
