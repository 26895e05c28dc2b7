// What holds over every run of a promise: registrations in any order, also from inside handlers, and one response.
module ProxyRuns {
  import opened Options
  import opened ProxyModel

  function SideOf(p: Payload): Side {
    if p.Result? then After else OnError
  }

  function FiredOn(fs: seq<Firing>, x: Side): seq<Handler> {
    if fs == [] then []
    else FiredOn(fs[..|fs| - 1], x) + (if SideOf(fs[|fs| - 1].payload) == x then [fs[|fs| - 1].h] else [])
  }

  function Called(s: State, x: Side): seq<Handler> {
    FiredOn(s.log.fired, x)
  }

  lemma CalledOne(s: State, f: Firing, x: Side)
    ensures FiredOn(s.log.fired + [f], x) == Called(s, x) + (if SideOf(f.payload) == x then [f.h] else [])
  {
    assert (s.log.fired + [f])[..|s.log.fired|] == s.log.fired;
  }

  // A handler that does not throw, and registers only such handlers.
  predicate Calm(h: Handler)
    decreases h
  {
    !h.throws && CalmScript(h.script)
  }

  predicate CalmScript(cs: seq<Call>)
    decreases cs
  {
    cs == [] || (CalmCall(cs[0]) && CalmScript(cs[1..]))
  }

  predicate CalmCall(c: Call)
    decreases c
  {
    Calm(c.h)
  }

  predicate CalmAll(hs: seq<Handler>) {
    forall i :: 0 <= i < |hs| ==> Calm(hs[i])
  }

  // ---- an unsettled side only collects: nothing but `extra` is called on it, and its closure goes on
  // denoting the registration-ordered list ----

  ghost predicate Tracks(s: State, x: Side) {
    Waiting(s, x) == Registered(s, x)
  }

  ghost predicate Collects(s: State, r: Res, x: Side, extra: seq<Handler>) {
    && r.s.env == s.env
    && (Tracks(s, x) ==> Tracks(r.s, x))
    && Called(r.s, x) == Called(s, x) + extra
    && Registered(s, x) <= Registered(r.s, x)
  }

  function Extra(h: Handler, p: Payload, x: Side): seq<Handler> {
    if SideOf(p) == x then [h] else []
  }

  lemma {:induction false} RegisterCollects(s: State, c: Call, x: Side)
    requires !Settled(s.env, x)
    ensures Collects(s, Register(s, c), x, [])
    decreases c
  {
    if Settled(s.env, c.side) {
      FireCollects(Note(s, c.side, c.h), c.h, Kept(s.env, c.side), x);
    }
  }

  lemma {:induction false} FireCollects(s: State, h: Handler, p: Payload, x: Side)
    requires !Settled(s.env, x)
    ensures Collects(s, Fire(s, h, p), x, Extra(h, p, x))
    decreases h
  {
    var t := s.(log := s.log.(fired := s.log.fired + [Firing(h, p)]));
    CalledOne(s, Firing(h, p), x);
    ScriptCollects(t, h.script, x);
  }

  lemma {:induction false} ScriptCollects(s: State, cs: seq<Call>, x: Side)
    requires !Settled(s.env, x)
    ensures Collects(s, RunScript(s, cs), x, [])
    decreases cs
  {
    if cs != [] {
      var r := Register(s, cs[0]);
      RegisterCollects(s, cs[0], x);
      if !r.threw { ScriptCollects(r.s, cs[1..], x); }
    }
  }

  // ---- a settled side owes nothing: whatever is registered on it is called once ----

  ghost predicate Balances(s: State, r: Res, x: Side, extra: seq<Handler>) {
    && r.s.env == s.env && !r.threw
    && multiset(Called(r.s, x)) + multiset(Registered(s, x))
       == multiset(Called(s, x)) + multiset(Registered(r.s, x)) + multiset(extra)
    && Registered(s, x) <= Registered(r.s, x)
  }

  lemma BalancesThen(s: State, r1: Res, r2: Res, x: Side, e1: seq<Handler>, e2: seq<Handler>)
    requires Balances(s, r1, x, e1) && Balances(r1.s, r2, x, e2)
    ensures Balances(s, r2, x, e1 + e2)
  {
    Chained(multiset(Called(s, x)), multiset(Called(r1.s, x)), multiset(Called(r2.s, x)),
            multiset(Registered(s, x)), multiset(Registered(r1.s, x)), multiset(Registered(r2.s, x)),
            multiset(e1), multiset(e2));
  }

  lemma Chained<T>(c0: multiset<T>, c1: multiset<T>, c2: multiset<T>, r0: multiset<T>, r1: multiset<T>, r2: multiset<T>,
                   e1: multiset<T>, e2: multiset<T>)
    requires c1 + r0 == c0 + r1 + e1
    requires c2 + r1 == c1 + r2 + e2
    ensures c2 + r0 == c0 + r2 + (e1 + e2)
  {
    forall v: T
      ensures (c2 + r0)[v] == (c0 + r2 + (e1 + e2))[v]
    {
      assert (c1 + r0)[v] == (c0 + r1 + e1)[v];
      assert (c2 + r1)[v] == (c1 + r2 + e2)[v];
    }
  }

  lemma Cancelled<T>(c1: multiset<T>, c0: multiset<T>, r0: multiset<T>, r1: multiset<T>, e: multiset<T>)
    requires c1 + (r0 + e) == c0 + r1 + e
    ensures c1 + r0 == c0 + r1
  {
    forall v: T
      ensures (c1 + r0)[v] == (c0 + r1)[v]
    {
      assert (c1 + (r0 + e))[v] == (c0 + r1 + e)[v];
    }
  }

  lemma {:induction false} RegisterBalances(s: State, c: Call, x: Side)
    requires Settled(s.env, x) && CalmCall(c)
    ensures Balances(s, Register(s, c), x, [])
    decreases c
  {
    var t := Note(s, c.side, c.h);
    assert Registered(t, x) == Registered(s, x) + (if c.side == x then [c.h] else []);
    if Settled(s.env, c.side) {
      FireBalances(t, c.h, Kept(s.env, c.side), x);
      var r := Fire(t, c.h, Kept(s.env, c.side));
      if c.side == x {
        Cancelled(multiset(Called(r.s, x)), multiset(Called(s, x)), multiset(Registered(s, x)),
                  multiset(Registered(r.s, x)), multiset([c.h]));
      }
    }
  }

  lemma {:induction false} FireBalances(s: State, h: Handler, p: Payload, x: Side)
    requires Settled(s.env, x) && Calm(h)
    ensures Balances(s, Fire(s, h, p), x, Extra(h, p, x))
    decreases h
  {
    var t := s.(log := s.log.(fired := s.log.fired + [Firing(h, p)]));
    CalledOne(s, Firing(h, p), x);
    ScriptBalances(t, h.script, x);
  }

  lemma {:induction false} ScriptBalances(s: State, cs: seq<Call>, x: Side)
    requires Settled(s.env, x) && CalmScript(cs)
    ensures Balances(s, RunScript(s, cs), x, [])
    decreases cs
  {
    if cs != [] {
      RegisterBalances(s, cs[0], x);
      var r := Register(s, cs[0]);
      ScriptBalances(r.s, cs[1..], x);
      BalancesThen(s, r, RunScript(r.s, cs[1..]), x, [], []);
    }
  }

  // Running a closure on side `side`, seen from side x.
  lemma {:induction false} ClosureCollects(s: State, c: Closure, p: Payload, x: Side)
    requires !Settled(s.env, x)
    requires SideOf(p) == x ==> CalmAll(Flatten(c))
    ensures Collects(s, RunClosure(s, c, p), x, if SideOf(p) == x then Flatten(c) else [])
    ensures SideOf(p) == x ==> !RunClosure(s, c, p).threw
  {
    match c {
      case Single(h) =>
        FireCollects(s, h, p, x);
        if SideOf(p) == x {
          assert Calm(Flatten(c)[0]);
          FireCalm(s, h, p);
        }
      case Then(g, f) =>
        assert SideOf(p) == x ==> forall i :: 0 <= i < |Flatten(g)| ==> Flatten(g)[i] == Flatten(c)[i];
        ClosureCollects(s, g, p, x);
        var r := RunClosure(s, g, p);
        if !r.threw { FireCollects(r.s, f, p, x); }
        if SideOf(p) == x {
          assert Calm(Flatten(c)[|Flatten(g)|]);
          FireCalm(r.s, f, p);
        }
    }
  }

  lemma {:induction false} ClosureBalances(s: State, c: Closure, p: Payload, x: Side)
    requires Settled(s.env, x) && CalmAll(Flatten(c))
    ensures Balances(s, RunClosure(s, c, p), x, if SideOf(p) == x then Flatten(c) else [])
  {
    match c {
      case Single(h) =>
        assert Calm(Flatten(c)[0]);
        FireBalances(s, h, p, x);
      case Then(g, f) =>
        assert forall i :: 0 <= i < |Flatten(g)| ==> Flatten(g)[i] == Flatten(c)[i];
        assert Calm(Flatten(c)[|Flatten(g)|]);
        ClosureBalances(s, g, p, x);
        var r := RunClosure(s, g, p);
        FireBalances(r.s, f, p, x);
        BalancesThen(s, r, Fire(r.s, f, p), x, if SideOf(p) == x then Flatten(g) else [], Extra(f, p, x));
    }
  }

  // Calm handlers let no exception out, wherever they run.
  lemma {:induction false} FireCalm(s: State, h: Handler, p: Payload)
    requires Calm(h)
    ensures !Fire(s, h, p).threw
    decreases h
  {
    ScriptCalm(s.(log := s.log.(fired := s.log.fired + [Firing(h, p)])), h.script);
  }

  lemma {:induction false} ScriptCalm(s: State, cs: seq<Call>)
    requires CalmScript(cs)
    ensures !RunScript(s, cs).threw
    decreases cs
  {
    if cs != [] {
      RegisterCalm(s, cs[0]);
      ScriptCalm(Register(s, cs[0]).s, cs[1..]);
    }
  }

  lemma {:induction false} RegisterCalm(s: State, c: Call)
    requires CalmCall(c)
    ensures !Register(s, c).threw
    decreases c
  {
    if Settled(s.env, c.side) {
      FireCalm(Note(s, c.side, c.h), c.h, Kept(s.env, c.side));
    }
  }

  // ---- arguments ----

  // Every handler of a side is called with the same arguments: those the promise keeps for that side.
  ghost predicate SameArguments(s: State) {
    forall i :: 0 <= i < |s.log.fired| ==>
      s.log.fired[i].payload == Kept(s.env, SideOf(s.log.fired[i].payload))
  }

  ghost predicate TokenArguments(e: Env, ts: seq<Token>) {
    forall i :: 0 <= i < |ts| && ts[i].Ran? ==> ts[i].f.payload == Kept(e, SideOf(ts[i].f.payload))
  }

  lemma {:induction false} UnfoldArguments(e: Env, h: Handler, p: Payload)
    requires p == Kept(e, SideOf(p))
    ensures TokenArguments(e, Unfold(e, h, p))
    decreases h
  {
    UnfoldScriptArguments(e, h.script);
  }

  lemma {:induction false} UnfoldScriptArguments(e: Env, cs: seq<Call>)
    ensures TokenArguments(e, UnfoldScript(e, cs))
    decreases cs
  {
    if cs != [] {
      UnfoldCallArguments(e, cs[0]);
      UnfoldScriptArguments(e, cs[1..]);
    }
  }

  lemma {:induction false} UnfoldCallArguments(e: Env, c: Call)
    ensures TokenArguments(e, UnfoldCall(e, c))
    decreases c
  {
    if Settled(e, c.side) {
      UnfoldArguments(e, c.h, Kept(e, c.side));
    }
  }

  lemma {:induction false} UnfoldAllArguments(e: Env, hs: seq<Handler>, p: Payload)
    requires p == Kept(e, SideOf(p))
    ensures TokenArguments(e, UnfoldAll(e, hs, p))
    decreases |hs|
  {
    if hs != [] {
      UnfoldAllArguments(e, hs[..|hs| - 1], p);
      UnfoldArguments(e, hs[|hs| - 1], p);
    }
  }

  lemma {:induction false} CutArguments(e: Env, ts: seq<Token>)
    requires TokenArguments(e, ts)
    ensures forall i :: 0 <= i < |Cut(ts)| ==> Cut(ts)[i].payload == Kept(e, SideOf(Cut(ts)[i].payload))
  {
    if ts != [] && !ts[0].Thrown? {
      CutArguments(e, ts[1..]);
    }
  }

  lemma DoesSameArguments(s: State, r: Res, ts: seq<Token>)
    requires Does(s, r, ts) && SameArguments(s) && TokenArguments(s.env, ts)
    ensures SameArguments(r.s)
  {
    CutArguments(s.env, ts);
  }

  // ---- one response ----

  ghost predicate Fresh(s: State) {
    s.log.responses == [] && !s.env.done && !s.env.error && s.log.fired == [] && Tracks(s, After) && Tracks(s, OnError)
  }

  predicate Succeeds(kind: Kind, r: Response) {
    !r.failed && r.status / 100 == 2 && Outcome(kind, r).Some?
  }

  // What error handlers are called with when a response is not a success.
  function Complaint(r: Response): Payload {
    if r.failed then Failure(Network, r.message)
    else Failure(Unknown, if r.status / 100 != 2 then r.reason else BAD_BODY)
  }

  function Completed(e: Env, v: Value): Env {
    if e.kind == OfVoid then e else e.(done := true, resultValue := v)
  }

  function Erred(e: Env, p: Payload): Env
    requires p.Failure?
  {
    e.(error := true, errorCode := p.code, errorMsg := p.msg)
  }

  function Arrived(s: State, r: Response): State {
    s.(log := s.log.(responses := s.log.responses + [r], early := |s.log.afters|))
  }

  // Exactly the handlers registered so far run, in registration order, each followed by what it registers
  // on the settled side, up to the first exception. The string specialisation catches an exception of an After
  // handler, and then runs the error handlers: those registered so far and those the After handlers left.
  lemma ResponseRunsRegisteredList(s: State, r: Response)
    requires Fresh(s)
    ensures var t := Respond(s, r);
      if !Succeeds(s.env.kind, r) then
        var ts := UnfoldAll(Erred(s.env, Complaint(r)), s.log.errors, Complaint(r));
        t.s.env == Erred(s.env, Complaint(r)) && t.s.log.fired == Cut(ts) && t.threw == (Thrown in ts)
      else
        var v := Outcome(s.env.kind, r).value;
        var ts := UnfoldAll(Completed(s.env, v), s.log.afters, Result(v));
        if s.env.kind == OfString && Thrown in ts then
          var p := Failure(Unknown, HANDLER_ERROR);
          var us := UnfoldAll(t.s.env, s.log.errors + Left(ts, OnError), p);
          t.s.env == Erred(Completed(s.env, v), p) && t.s.log.fired == Cut(ts) + Cut(us) && t.threw == (Thrown in us)
        else t.s.log.fired == Cut(ts) && t.threw == (Thrown in ts) && t.s.env == Completed(s.env, v)
  {
    if !Succeeds(s.env.kind, r) {
      FailureRuns(s, r);
    } else {
      var v := Outcome(s.env.kind, r).value;
      SuccessRuns(s, r, v);
      if s.env.kind == OfString && Thrown in UnfoldAll(Completed(s.env, v), s.log.afters, Result(v)) {
        CaughtRuns(s, r, v);
      }
    }
  }

  lemma FailureRuns(s: State, r: Response)
    requires Fresh(s) && !Succeeds(s.env.kind, r)
    ensures var t := Respond(s, r);
      var ts := UnfoldAll(Erred(s.env, Complaint(r)), s.log.errors, Complaint(r));
      t.s.env == Erred(s.env, Complaint(r)) && t.s.log.fired == Cut(ts) && t.threw == (Thrown in ts)
  {
    var u := Arrived(s, r).(env := Erred(s.env, Complaint(r)));
    assert Waiting(u, OnError) == Waiting(s, OnError);
    SlotDoes(u, OnError, Complaint(r));
  }

  // Up to the catch of the string specialisation.
  lemma SuccessRuns(s: State, r: Response, v: Value)
    requires Fresh(s) && Succeeds(s.env.kind, r) && Outcome(s.env.kind, r) == Some(v)
    ensures var c := Complete(Arrived(s, r), v);
      var ts := UnfoldAll(Completed(s.env, v), s.log.afters, Result(v));
      && c.s.env == Completed(s.env, v) && c.s.log.fired == Cut(ts) && c.threw == (Thrown in ts)
      && Waiting(c.s, OnError) == s.log.errors + Left(ts, OnError)
      && (s.env.kind != OfString || !c.threw ==> Respond(s, r) == c)
  {
    var u := Arrived(s, r).(env := Completed(s.env, v));
    assert Waiting(u, After) == Waiting(s, After) && Waiting(u, OnError) == Waiting(s, OnError);
    SlotDoes(u, After, Result(v));
    assert Complete(Arrived(s, r), v) == RunSlot(u, After, Result(v));
  }

  lemma CaughtRuns(s: State, r: Response, v: Value)
    requires Fresh(s) && Succeeds(s.env.kind, r) && Outcome(s.env.kind, r) == Some(v) && s.env.kind == OfString
    requires Thrown in UnfoldAll(Completed(s.env, v), s.log.afters, Result(v))
    ensures var t := Respond(s, r);
      var p := Failure(Unknown, HANDLER_ERROR);
      var ts := UnfoldAll(Completed(s.env, v), s.log.afters, Result(v));
      var us := UnfoldAll(Erred(Completed(s.env, v), p), s.log.errors + Left(ts, OnError), p);
      t.s.env == Erred(Completed(s.env, v), p) && t.s.log.fired == Cut(ts) + Cut(us) && t.threw == (Thrown in us)
  {
    SuccessRuns(s, r, v);
    var c := Complete(Arrived(s, r), v);
    var w := c.s.(env := Erred(c.s.env, Failure(Unknown, HANDLER_ERROR)));
    assert Waiting(w, OnError) == Waiting(c.s, OnError);
    SlotDoes(w, OnError, Failure(Unknown, HANDLER_ERROR));
  }

  // Handlers that neither register nor throw run in registration order, each once, with the same arguments.
  lemma {:induction false} ListRunsInOrder(e: Env, hs: seq<Handler>, p: Payload)
    requires forall i :: 0 <= i < |hs| ==> hs[i].script == [] && !hs[i].throws
    ensures Thrown !in UnfoldAll(e, hs, p)
    ensures Cut(UnfoldAll(e, hs, p)) == Firings(hs, p)
    decreases |hs|
  {
    if hs != [] {
      var front, last := hs[..|hs| - 1], hs[|hs| - 1];
      ListRunsInOrder(e, front, p);
      assert UnfoldAll(e, hs, p) == UnfoldAll(e, front, p) + Unfold(e, last, p);
      UnfoldPlain(e, last, p);
      CutAppend(UnfoldAll(e, front, p), [Ran(Firing(last, p))]);
      assert Firings(hs, p) == Firings(front, p) + [Firing(last, p)];
    }
  }

  function Firings(hs: seq<Handler>, p: Payload): seq<Firing> {
    seq(|hs|, i requires 0 <= i < |hs| => Firing(hs[i], p))
  }

  lemma UnfoldPlain(e: Env, h: Handler, p: Payload)
    requires h.script == [] && !h.throws
    ensures Unfold(e, h, p) == [Ran(Firing(h, p))]
    ensures Cut(Unfold(e, h, p)) == [Firing(h, p)]
  {
  }

  // A 2xx response whose body has no readable value reaches error handlers only, with Error::unknown.
  lemma StringWithoutValue(s: State, r: Response)
    requires Fresh(s) && s.env.kind == OfString && !r.failed && r.status / 100 == 2 && r.value.None?
    ensures var t := Respond(s, r).s;
      && Called(t, After) == [] && !t.env.done && t.env.error && t.env.errorCode == Unknown
      && t.log.fired == Cut(UnfoldAll(t.env, s.log.errors, Failure(Unknown, BAD_BODY)))
  {
    ResponseRunsRegisteredList(s, r);
    var u := Arrived(s, r).(env := Erred(s.env, Complaint(r)));
    if Slot(u, OnError).Some? {
      ClosureCollects(u, Slot(u, OnError).value, Complaint(r), After);
    }
  }

  // ---- whole runs, handlers not throwing ----

  datatype Event = Registration(c: Call) | Arrival(r: Response)

  function Step(s: State, e: Event): State {
    match e
    case Registration(c) => Register(s, c).s
    case Arrival(r) => Respond(s, r).s
  }

  function Run(s: State, es: seq<Event>): State {
    if es == [] then s else Step(Run(s, es[..|es| - 1]), es[|es| - 1])
  }

  function Arrivals(es: seq<Event>): nat {
    if es == [] then 0 else Arrivals(es[..|es| - 1]) + (if es[|es| - 1].Arrival? then 1 else 0)
  }

  predicate CalmEvents(es: seq<Event>) {
    forall i :: 0 <= i < |es| && es[i].Registration? ==> CalmCall(es[i].c)
  }

  ghost predicate Succeeded(s: State, r: Response) {
    && Succeeds(s.env.kind, r)
    && s.env == Completed(New(s.env.kind).env, Outcome(s.env.kind, r).value)
    && Called(s, OnError) == [] && Tracks(s, OnError)
    && if s.env.kind == OfVoid
       then Tracks(s, After) && s.log.early <= |s.log.afters| && Called(s, After) == s.log.afters[..s.log.early]
       else multiset(Called(s, After)) == multiset(s.log.afters)
  }

  ghost predicate Failed(s: State, r: Response) {
    && s.env == Erred(New(s.env.kind).env, Complaint(r))
    && Called(s, After) == [] && Tracks(s, After)
    && multiset(Called(s, OnError)) == multiset(s.log.errors)
  }

  // Nothing runs before the response. After a success each After handler has run once and no error handler
  // has; after a failure the reverse. ProxyImpl<void> never sets `done`: there the After handlers registered
  // by the time of the response have run, in order, and later ones never do.
  ghost predicate PromiseInv(s: State) {
    && SameArguments(s)
    && |s.log.responses| <= 1
    && if s.log.responses == [] then
         Fresh(s) && s.env == New(s.env.kind).env && CalmAll(s.log.afters) && CalmAll(s.log.errors)
       else if Succeeds(s.env.kind, s.log.responses[0]) then Succeeded(s, s.log.responses[0])
       else Failed(s, s.log.responses[0])
  }

  lemma RegisterArguments(s: State, c: Call)
    requires SameArguments(s)
    ensures SameArguments(Register(s, c).s)
  {
    RegisterDoes(s, c);
    UnfoldCallArguments(s.env, c);
    DoesSameArguments(s, Register(s, c), UnfoldCall(s.env, c));
  }

  lemma RegisterSide(s: State, c: Call, x: Side)
    requires CalmCall(c)
    ensures Settled(s.env, x) ==> Balances(s, Register(s, c), x, [])
    ensures !Settled(s.env, x) ==> Collects(s, Register(s, c), x, [])
  {
    if Settled(s.env, x) { RegisterBalances(s, c, x); } else { RegisterCollects(s, c, x); }
  }

  // A side that has called what was registered on it, or is just about to, is even afterwards.
  lemma PaidOff(s: State, r: Res, x: Side, extra: seq<Handler>)
    requires Balances(s, r, x, extra) && multiset(Called(s, x)) + multiset(extra) == multiset(Registered(s, x))
    ensures multiset(Called(r.s, x)) == multiset(Registered(r.s, x))
  {
    var c0, c1, r0, r1, e := multiset(Called(s, x)), multiset(Called(r.s, x)), multiset(Registered(s, x)),
      multiset(Registered(r.s, x)), multiset(extra);
    forall v: Handler
      ensures c1[v] == r1[v]
    {
      assert (c1 + r0)[v] == (c0 + r1 + e)[v];
      assert (c0 + e)[v] == r0[v];
    }
    assert c1 == r1;
  }

  lemma RegisterFresh(s: State, c: Call)
    requires PromiseInv(s) && s.log.responses == [] && CalmCall(c)
    ensures PromiseInv(Register(s, c).s) && Register(s, c).s.log.responses == []
  {
    var t := Register(s, c).s;
    assert t == Chain(Note(s, c.side, c.h), c.side, c.h);
    assert CalmAll(t.log.afters) && CalmAll(t.log.errors);
    assert Tracks(t, After) && Tracks(t, OnError);
  }

  lemma RegisterSucceeded(s: State, c: Call, r: Response)
    requires Succeeded(s, r) && CalmCall(c)
    ensures Succeeded(Register(s, c).s, r)
  {
    RegisterDoes(s, c);
    RegisterSide(s, c, OnError);
    if s.env.kind != OfVoid { SettledStaysEven(s, c, After); } else { RegisterCollects(s, c, After); }
  }

  lemma SettledStaysEven(s: State, c: Call, x: Side)
    requires Settled(s.env, x) && CalmCall(c) && multiset(Called(s, x)) == multiset(Registered(s, x))
    ensures multiset(Called(Register(s, c).s, x)) == multiset(Registered(Register(s, c).s, x))
  {
    RegisterBalances(s, c, x);
    assert multiset(Called(s, x)) + multiset([]) == multiset(Registered(s, x));
    PaidOff(s, Register(s, c), x, []);
  }

  lemma RegisterFailed(s: State, c: Call, r: Response)
    requires Failed(s, r) && CalmCall(c)
    ensures Failed(Register(s, c).s, r)
  {
    RegisterDoes(s, c);
    RegisterSide(s, c, After);
    SettledStaysEven(s, c, OnError);
  }

  lemma RegisterInv(s: State, c: Call)
    requires PromiseInv(s) && CalmCall(c)
    ensures PromiseInv(Register(s, c).s) && Register(s, c).s.log.responses == s.log.responses
    ensures Register(s, c).s.env == s.env
  {
    RegisterDoes(s, c);
    if s.log.responses == [] {
      RegisterFresh(s, c);
    } else {
      RegisterArguments(s, c);
      var r := s.log.responses[0];
      if Succeeds(s.env.kind, r) { RegisterSucceeded(s, c, r); } else { RegisterFailed(s, c, r); }
    }
  }

  // A closure holding the whole list is run on a side that has just been settled, ...
  lemma SettledSlot(s: State, x: Side, p: Payload)
    requires SideOf(p) == x && Settled(s.env, x) && s.log.fired == []
    requires Tracks(s, x) && CalmAll(Registered(s, x))
    ensures multiset(Called(RunSlot(s, x, p).s, x)) == multiset(Registered(RunSlot(s, x, p).s, x))
    ensures !RunSlot(s, x, p).threw
  {
    if Slot(s, x).Some? {
      var c := Slot(s, x).value;
      ClosureBalances(s, c, p, x);
      PaidOff(s, RunClosure(s, c, p), x, Flatten(c));
    }
  }

  // ... or, by ProxyImpl<void>, on a side that stays unsettled.
  lemma UnsettledSlot(s: State, x: Side, p: Payload)
    requires SideOf(p) == x && !Settled(s.env, x) && s.log.fired == []
    requires Tracks(s, x) && CalmAll(Registered(s, x))
    ensures var r := RunSlot(s, x, p);
      Called(r.s, x) == Registered(s, x) <= Registered(r.s, x) && Tracks(r.s, x) && !r.threw
  {
    if Slot(s, x).Some? {
      ClosureCollects(s, Slot(s, x).value, p, x);
    }
  }

  lemma OtherSide(s: State, x: Side, p: Payload, y: Side)
    requires SideOf(p) == x != y && !Settled(s.env, y) && s.log.fired == [] && Tracks(s, y)
    ensures Called(RunSlot(s, x, p).s, y) == [] && Tracks(RunSlot(s, x, p).s, y)
  {
    if Slot(s, x).Some? {
      ClosureCollects(s, Slot(s, x).value, p, y);
    }
  }

  lemma SlotArguments(s: State, x: Side, p: Payload)
    requires SideOf(p) == x && p == Kept(s.env, x) && s.log.fired == []
    ensures var r := RunSlot(s, x, p);
      r.s.env == s.env && SameArguments(r.s) && r.s.log.responses == s.log.responses && r.s.log.early == s.log.early
  {
    SlotDoes(s, x, p);
    UnfoldAllArguments(s.env, Waiting(s, x), p);
    DoesSameArguments(s, RunSlot(s, x, p), UnfoldAll(s.env, Waiting(s, x), p));
  }

  lemma ArrivalInv(s: State, r: Response)
    requires PromiseInv(s) && s.log.responses == []
    ensures PromiseInv(Respond(s, r).s)
    ensures Respond(s, r).s.log.responses == [r] && Respond(s, r).s.env.kind == s.env.kind
  {
    var a := Arrived(s, r);
    if Succeeds(s.env.kind, r) {
      SuccessInv(s, r);
    } else {
      var p := Complaint(r);
      var u := a.(env := Erred(s.env, p));
      assert Tracks(u, After) && Tracks(u, OnError);
      SlotArguments(u, OnError, p);
      SettledSlot(u, OnError, p);
      OtherSide(u, OnError, p, After);
    }
  }

  lemma SuccessInv(s: State, r: Response)
    requires PromiseInv(s) && s.log.responses == [] && Succeeds(s.env.kind, r)
    ensures PromiseInv(Respond(s, r).s)
    ensures Respond(s, r).s.log.responses == [r] && Respond(s, r).s.env.kind == s.env.kind
  {
    var a := Arrived(s, r);
    var v := Outcome(s.env.kind, r).value;
    var u := a.(env := Completed(s.env, v));
    assert Tracks(u, After) && Tracks(u, OnError);
    SlotArguments(u, After, Result(v));
    OtherSide(u, After, Result(v), OnError);
    if s.env.kind == OfVoid { UnsettledSlot(u, After, Result(v)); } else { SettledSlot(u, After, Result(v)); }
    var t := RunSlot(u, After, Result(v));
    assert Complete(a, v) == t && Respond(s, r) == t;
    assert Succeeded(t.s, r);
  }

  // The exactly-once theorem: any registrations, nested or not, before or after one response.
  lemma {:induction false} HandlersRunOnce(kind: Kind, es: seq<Event>)
    requires CalmEvents(es) && Arrivals(es) <= 1
    ensures PromiseInv(Run(New(kind), es))
    ensures Run(New(kind), es).env.kind == kind && |Run(New(kind), es).log.responses| == Arrivals(es)
    decreases |es|
  {
    if es != [] {
      var front, last := es[..|es| - 1], es[|es| - 1];
      HandlersRunOnce(kind, front);
      var s := Run(New(kind), front);
      match last {
        case Registration(c) => RegisterInv(s, c); RegisterDoes(s, c);
        case Arrival(r) => ArrivalInv(s, r);
      }
    }
  }

  // What a response means to the handlers: the code and text of an error, or the value of the command.
  function Delivered(kind: Kind, r: Response): Payload {
    if r.failed then Failure(Network, r.message)
    else if r.status < 200 || r.status > 299 then Failure(Unknown, r.reason)
    else
      match kind
      case Plain => Result(r.result)
      case OfString => if r.value.Some? then Result(Text(r.value.value)) else Failure(Unknown, BAD_BODY)
      case OfVoid => Result(NoValue)
  }

  lemma SucceedsIsResult(kind: Kind, r: Response)
    ensures Succeeds(kind, r) <==> Delivered(kind, r).Result?
    ensures Delivered(kind, r) == if Succeeds(kind, r) then Result(Outcome(kind, r).value) else Complaint(r)
  {
  }

  // Whatever handler is called, early or late, gets what the response means.
  lemma HandlersGetTheResponse(kind: Kind, es: seq<Event>)
    requires CalmEvents(es) && Arrivals(es) <= 1
    ensures var s := Run(New(kind), es);
      && (s.log.responses == [] ==> s.log.fired == [])
      && (s.log.responses != [] ==>
            forall i :: 0 <= i < |s.log.fired| ==> s.log.fired[i].payload == Delivered(kind, s.log.responses[0]))
  {
    HandlersRunOnce(kind, es);
    var s := Run(New(kind), es);
    PromiseArguments(s);
  }

  lemma PromiseArguments(s: State)
    requires PromiseInv(s)
    ensures s.log.responses == [] ==> s.log.fired == []
    ensures s.log.responses != [] ==>
      forall i :: 0 <= i < |s.log.fired| ==> s.log.fired[i].payload == Delivered(s.env.kind, s.log.responses[0])
  {
    if s.log.responses != [] {
      var r := s.log.responses[0];
      SucceedsIsResult(s.env.kind, r);
      forall i | 0 <= i < |s.log.fired|
        ensures s.log.fired[i].payload == Delivered(s.env.kind, r)
      {
        FiringIsCall(s.log.fired, i);
        assert s.log.fired[i].h in Called(s, SideOf(s.log.fired[i].payload));
      }
    }
  }

  lemma {:induction false} FiringIsCall(fs: seq<Firing>, i: nat)
    requires i < |fs|
    ensures fs[i].h in FiredOn(fs, SideOf(fs[i].payload))
    decreases |fs|
  {
    if i < |fs| - 1 {
      FiringIsCall(fs[..|fs| - 1], i);
    }
  }

  // ---- runs with handlers that may throw ----

  // The handlers that a run registers on a side, from outside handlers.
  function Handlers(es: seq<Event>, x: Side): seq<Handler> {
    if es == [] then []
    else
      var e := es[|es| - 1];
      Handlers(es[..|es| - 1], x) + (if e.Registration? && e.c.side == x then [e.c.h] else [])
  }

  lemma {:induction false} FreshUntilResponse(kind: Kind, es: seq<Event>)
    requires Arrivals(es) == 0
    ensures var s := Run(New(kind), es);
      Fresh(s) && s.env == New(kind).env && s.log.afters == Handlers(es, After) && s.log.errors == Handlers(es, OnError)
    decreases |es|
  {
    if es != [] {
      FreshUntilResponse(kind, es[..|es| - 1]);
    }
  }

  lemma {:induction false} RunAppend(s: State, a: seq<Event>, b: seq<Event>)
    ensures Run(s, a + b) == Run(Run(s, a), b)
    decreases |b|
  {
    if b == [] {
      assert a + b == a;
    } else {
      assert (a + b)[..|a + b| - 1] == a + b[..|b| - 1];
      RunAppend(s, a, b[..|b| - 1]);
    }
  }

  // Registrations change nothing but the lists of a promise, and call nothing on an unsettled side.
  lemma {:induction false} RegistrationsOnly(s: State, es: seq<Event>)
    requires Arrivals(es) == 0
    ensures var t := Run(s, es);
      && t.env == s.env && t.log.responses == s.log.responses
      && (forall x :: Registered(s, x) <= Registered(t, x))
      && (forall x :: !Settled(s.env, x) ==> Called(t, x) == Called(s, x))
    decreases |es|
  {
    if es != [] {
      RegistrationsOnly(s, es[..|es| - 1]);
      var u, c := Run(s, es[..|es| - 1]), es[|es| - 1].c;
      RegisterDoes(u, c);
      forall x
        ensures Registered(u, x) <= Registered(Register(u, c).s, x)
        ensures !Settled(u.env, x) ==> Called(Register(u, c).s, x) == Called(u, x)
      {
        RegisterGrows(u, c, x);
        if !Settled(u.env, x) { RegisterCollects(u, c, x); }
      }
    }
  }

  lemma {:induction false} RegisterGrows(s: State, c: Call, x: Side)
    ensures Registered(Note(s, c.side, c.h), x) <= Registered(Register(s, c).s, x)
    ensures Registered(s, x) <= Registered(Register(s, c).s, x)
    decreases c
  {
    if Settled(s.env, c.side) {
      FireGrows(Note(s, c.side, c.h), c.h, Kept(s.env, c.side), x);
    }
  }

  lemma {:induction false} FireGrows(s: State, h: Handler, p: Payload, x: Side)
    ensures Registered(s, x) <= Registered(Fire(s, h, p).s, x)
    decreases h
  {
    ScriptGrows(s.(log := s.log.(fired := s.log.fired + [Firing(h, p)])), h.script, x);
  }

  lemma {:induction false} ScriptGrows(s: State, cs: seq<Call>, x: Side)
    ensures Registered(s, x) <= Registered(RunScript(s, cs).s, x)
    decreases cs
  {
    if cs != [] {
      var r := Register(s, cs[0]);
      RegisterGrows(s, cs[0], x);
      if !r.threw { ScriptGrows(r.s, cs[1..], x); }
    }
  }

  lemma {:induction false} ClosureGrows(s: State, c: Closure, p: Payload, x: Side)
    ensures Registered(s, x) <= Registered(RunClosure(s, c, p).s, x)
  {
    match c {
      case Single(h) => FireGrows(s, h, p, x);
      case Then(g, f) =>
        ClosureGrows(s, g, p, x);
        var r := RunClosure(s, g, p);
        if !r.threw { FireGrows(r.s, f, p, x); }
    }
  }

  lemma SlotGrows(s: State, y: Side, p: Payload, x: Side)
    ensures Registered(s, x) <= Registered(RunSlot(s, y, p).s, x)
    ensures RunSlot(s, y, p).s.log.responses == s.log.responses && RunSlot(s, y, p).s.log.early == s.log.early
  {
    SlotDoes(s, y, p);
    if Slot(s, y).Some? { ClosureGrows(s, Slot(s, y).value, p, x); }
  }

  // A response forgets no handler, and marks how many After handlers came before it.
  lemma RespondGrows(s: State, r: Response, x: Side)
    ensures var t := Respond(s, r).s;
      && t.log.responses == s.log.responses + [r] && t.log.early == |s.log.afters|
      && Registered(s, x) <= Registered(t, x)
  {
    var a := Arrived(s, r);
    ErrorGrows(a, Complaint(r), x);
    if Succeeds(s.env.kind, r) {
      var v := Outcome(s.env.kind, r).value;
      SlotGrows(a.(env := Completed(s.env, v)), After, Result(v), x);
      ErrorGrows(Complete(a, v).s, Failure(Unknown, HANDLER_ERROR), x);
    }
  }

  lemma ErrorGrows(s: State, p: Payload, x: Side)
    requires p.Failure?
    ensures var t := SetError(s, p.code, p.msg).s;
      t.log.responses == s.log.responses && t.log.early == s.log.early && Registered(s, x) <= Registered(t, x)
  {
    SlotGrows(s.(env := Erred(s.env, p)), OnError, p, x);
  }

  // ProxyImpl<std::string>, in every run with one response: done and error are both set exactly when an After
  // handler throws while a 2xx response with a readable value is being delivered.
  lemma StringDoneAndError(es: seq<Event>, r: Response, more: seq<Event>)
    requires Arrivals(es) == 0 && Arrivals(more) == 0
    ensures var e := Run(New(OfString), es + [Arrival(r)] + more).env;
      e.done && e.error <==>
        !r.failed && r.status / 100 == 2 && r.value.Some?
        && var v := Text(r.value.value);
           Thrown in UnfoldAll(Completed(New(OfString).env, v), Handlers(es, After), Result(v))
  {
    FreshUntilResponse(OfString, es);
    var s := Run(New(OfString), es);
    ResponseRunsRegisteredList(s, r);
    RunAppend(New(OfString), es + [Arrival(r)], more);
    assert (es + [Arrival(r)])[..|es|] == es;
    RegistrationsOnly(Respond(s, r).s, more);
  }

  // ProxyImpl<void> never settles its After side, ...
  lemma {:induction false} VoidNeverDone(es: seq<Event>)
    ensures var s := Run(New(OfVoid), es); s.env.kind == OfVoid && !s.env.done
    decreases |es|
  {
    if es != [] {
      VoidNeverDone(es[..|es| - 1]);
      var s := Run(New(OfVoid), es[..|es| - 1]);
      match es[|es| - 1] {
        case Registration(c) => RegisterDoes(s, c);
        case Arrival(r) =>
          SlotDoes(Arrived(s, r), After, Result(NoValue));
          SlotDoes(Arrived(s, r).(env := Erred(s.env, Complaint(r))), OnError, Complaint(r));
      }
    }
  }

  // ... so after a success only the After handlers registered by the time of the response have been called, and
  // no After handler is called any more, whatever is registered later: not even at once.
  lemma VoidLateAfterNeverRuns(es: seq<Event>, more: seq<Event>)
    requires CalmEvents(es) && Arrivals(es) == 1 && Arrivals(more) == 0
    requires var s := Run(New(OfVoid), es); |s.log.responses| == 1 && Succeeds(OfVoid, s.log.responses[0])
    ensures var s, t := Run(New(OfVoid), es), Run(New(OfVoid), es + more);
      && s.log.early <= |s.log.afters| && s.log.afters <= t.log.afters
      && Called(t, After) == Called(s, After) == s.log.afters[..s.log.early]
  {
    HandlersRunOnce(OfVoid, es);
    VoidNeverDone(es);
    RunAppend(New(OfVoid), es, more);
    RegistrationsOnly(Run(New(OfVoid), es), more);
  }
}
