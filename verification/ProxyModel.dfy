// The promise objects behind Proxy and ProxyPar: After and OnError handlers accumulate as nested closures
// until the response arrives. A user handler is modelled by the registrations it makes on the same promise
// while it runs, in order, and by whether it throws when it is done with them.
module ProxyModel {
  import opened Options

  datatype ErrorCode = Network | Unknown
  datatype Value = NoValue | Text(text: string) | Object(id: nat)
  datatype Side = After | OnError

  // The arguments of a handler call.
  datatype Payload = Result(value: Value) | Failure(code: ErrorCode, msg: string)

  datatype Handler = Handler(id: nat, script: seq<Call>, throws: bool)
  datatype Call = Call(side: Side, h: Handler)

  // The std::function held by afterHandler or errorHandler: a handler, or the lambda calling g and then f.
  datatype Closure = Single(h: Handler) | Then(g: Closure, f: Handler)

  // ProxyImpl<T>, ProxyImpl<std::string> and ProxyImpl<void>.
  datatype Kind = Plain | OfString | OfVoid

  datatype Firing = Firing(h: Handler, payload: Payload)

  // What OnResponse is given. `value` is what FromJson and Get<std::string>(json, {"value"}) make of the body
  // (None when they throw); `result` is the object the command was issued with.
  datatype Response = Response(
    failed: bool, message: string, status: int, reason: string, value: Option<string>, result: Value)

  // Registrations in order, handler calls in order, the responses received, and how many After handlers
  // were registered before the last one.
  datatype Log = Log(
    afters: seq<Handler>, errors: seq<Handler>, fired: seq<Firing>, responses: seq<Response>, early: nat)

  datatype Env = Env(kind: Kind, done: bool, resultValue: Value, error: bool, errorCode: ErrorCode, errorMsg: string)

  datatype State = State(env: Env, afterHandler: Option<Closure>, errorHandler: Option<Closure>, log: Log)

  function New(kind: Kind): State {
    State(Env(kind, false, NoValue, false, Network, ""), None, None, Log([], [], [], [], 0))
  }

  // A state and whether an exception is on its way out.
  datatype Res = Res(s: State, threw: bool)

  const BAD_BODY := "unreadable body"
  const HANDLER_ERROR := "handler exception"

  // ---- what the code does ----

  function Slot(s: State, side: Side): Option<Closure> {
    if side == After then s.afterHandler else s.errorHandler
  }

  function Registered(s: State, side: Side): seq<Handler> {
    if side == After then s.log.afters else s.log.errors
  }

  predicate Settled(e: Env, side: Side) {
    if side == After then e.done else e.error
  }

  // What a settled promise calls a late handler with.
  function Kept(e: Env, side: Side): Payload {
    if side == OnError then Failure(e.errorCode, e.errorMsg)
    else Result(if e.kind == OfVoid then NoValue else e.resultValue)
  }

  function Note(s: State, side: Side, h: Handler): State {
    if side == After then s.(log := s.log.(afters := s.log.afters + [h]))
    else s.(log := s.log.(errors := s.log.errors + [h]))
  }

  function Extend(c: Option<Closure>, h: Handler): Option<Closure> {
    if c.Some? then Some(Then(c.value, h)) else Some(Single(h))
  }

  function Chain(s: State, side: Side, h: Handler): State {
    if side == After then s.(afterHandler := Extend(s.afterHandler, h))
    else s.(errorHandler := Extend(s.errorHandler, h))
  }

  // After and OnError.
  function Register(s: State, c: Call): Res
    decreases c
  {
    var t := Note(s, c.side, c.h);
    if Settled(t.env, c.side) then Fire(t, c.h, Kept(t.env, c.side)) else Res(Chain(t, c.side, c.h), false)
  }

  function Fire(s: State, h: Handler, p: Payload): Res
    decreases h
  {
    var r := RunScript(s.(log := s.log.(fired := s.log.fired + [Firing(h, p)])), h.script);
    if r.threw then r else Res(r.s, h.throws)
  }

  function RunScript(s: State, cs: seq<Call>): Res
    decreases cs
  {
    if cs == [] then Res(s, false)
    else
      var r := Register(s, cs[0]);
      if r.threw then r else RunScript(r.s, cs[1..])
  }

  function RunClosure(s: State, c: Closure, p: Payload): Res {
    match c
    case Single(h) => Fire(s, h, p)
    case Then(g, f) =>
      var r := RunClosure(s, g, p);
      if r.threw then r else Fire(r.s, f, p)
  }

  function RunSlot(s: State, side: Side, p: Payload): Res {
    if Slot(s, side).Some? then RunClosure(s, Slot(s, side).value, p) else Res(s, false)
  }

  function SetError(s: State, code: ErrorCode, msg: string): Res {
    RunSlot(s.(env := s.env.(error := true, errorCode := code, errorMsg := msg)), OnError, Failure(code, msg))
  }

  // The value a 2xx response completes the promise with, if there is one.
  function Outcome(kind: Kind, r: Response): Option<Value> {
    match kind
    case Plain => Some(r.result)
    case OfString => if r.value.Some? then Some(Text(r.value.value)) else None
    case OfVoid => Some(NoValue)
  }

  function Complete(s: State, v: Value): Res {
    if s.env.kind == OfVoid then RunSlot(s, After, Result(NoValue))
    else RunSlot(s.(env := s.env.(done := true, resultValue := v)), After, Result(v))
  }

  function Respond(s0: State, r: Response): Res {
    var s := s0.(log := s0.log.(responses := s0.log.responses + [r], early := |s0.log.afters|));
    if r.failed then SetError(s, Network, r.message)
    else if r.status / 100 != 2 then SetError(s, Unknown, r.reason)
    else if Outcome(s.env.kind, r).None? then SetError(s, Unknown, BAD_BODY)
    else
      var c := Complete(s, Outcome(s.env.kind, r).value);
      if c.threw && s.env.kind == OfString then SetError(c.s, Unknown, HANDLER_ERROR) else c
  }

  // ---- an independent account of which handlers run: lists and trees instead of closures and state ----

  // A handler was called, a handler was stored for later, an exception came up.
  datatype Token = Ran(f: Firing) | Stored(side: Side, h: Handler) | Thrown

  // What a handler leads to on a promise in this condition, depth first.
  function Unfold(e: Env, h: Handler, p: Payload): seq<Token>
    decreases h
  {
    [Ran(Firing(h, p))] + UnfoldScript(e, h.script) + (if h.throws then [Thrown] else [])
  }

  function UnfoldScript(e: Env, cs: seq<Call>): seq<Token>
    decreases cs
  {
    if cs == [] then []
    else UnfoldCall(e, cs[0]) + UnfoldScript(e, cs[1..])
  }

  function UnfoldCall(e: Env, c: Call): seq<Token>
    decreases c
  {
    if Settled(e, c.side) then Unfold(e, c.h, Kept(e, c.side)) else [Stored(c.side, c.h)]
  }

  function UnfoldAll(e: Env, hs: seq<Handler>, p: Payload): seq<Token> {
    if hs == [] then [] else UnfoldAll(e, hs[..|hs| - 1], p) + Unfold(e, hs[|hs| - 1], p)
  }

  // An exception ends it all: the calls before the first one, ...
  function Cut(ts: seq<Token>): seq<Firing> {
    if ts == [] || ts[0].Thrown? then []
    else if ts[0].Ran? then [ts[0].f] + Cut(ts[1..])
    else Cut(ts[1..])
  }

  // ... and the handlers stored on a side before it.
  function Left(ts: seq<Token>, side: Side): seq<Handler> {
    if ts == [] || ts[0].Thrown? then []
    else if ts[0].Stored? && ts[0].side == side then [ts[0].h] + Left(ts[1..], side)
    else Left(ts[1..], side)
  }

  lemma {:induction false} CutAppend(a: seq<Token>, b: seq<Token>)
    ensures Cut(a + b) == if Thrown in a then Cut(a) else Cut(a) + Cut(b)
  {
    if a == [] {
      assert a + b == b;
    } else if !a[0].Thrown? {
      assert (a + b)[1..] == a[1..] + b;
      CutAppend(a[1..], b);
    }
  }

  lemma {:induction false} LeftAppend(a: seq<Token>, b: seq<Token>, side: Side)
    ensures Left(a + b, side) == if Thrown in a then Left(a, side) else Left(a, side) + Left(b, side)
  {
    if a == [] {
      assert a + b == b;
    } else if !a[0].Thrown? {
      assert (a + b)[1..] == a[1..] + b;
      LeftAppend(a[1..], b, side);
    }
  }

  // The list a closure denotes.
  function Flatten(c: Closure): seq<Handler> {
    match c
    case Single(h) => [h]
    case Then(g, f) => Flatten(g) + [f]
  }

  function Waiting(s: State, side: Side): seq<Handler> {
    if Slot(s, side).Some? then Flatten(Slot(s, side).value) else []
  }

  // `r` is what `ts` describes, started in `s`.
  ghost predicate Does(s: State, r: Res, ts: seq<Token>) {
    && r.s.env == s.env
    && r.s.log.fired == s.log.fired + Cut(ts)
    && Waiting(r.s, After) == Waiting(s, After) + Left(ts, After)
    && Waiting(r.s, OnError) == Waiting(s, OnError) + Left(ts, OnError)
    && r.threw == (Thrown in ts)
    && r.s.log.responses == s.log.responses && r.s.log.early == s.log.early
  }

  lemma One(t: Token)
    ensures Cut([t]) == if t.Ran? then [t.f] else []
    ensures forall x :: Left([t], x) == if t.Stored? && t.side == x then [t.h] else []
  {
    assert [t][1..] == [];
  }

  lemma DoesThen(s: State, r1: Res, r2: Res, a: seq<Token>, b: seq<Token>)
    requires Does(s, r1, a)
    requires !r1.threw ==> Does(r1.s, r2, b)
    ensures Does(s, if r1.threw then r1 else r2, a + b)
  {
    CutAppend(a, b);
    LeftAppend(a, b, After);
    LeftAppend(a, b, OnError);
    hide Cut, Left, Waiting;
    if !r1.threw {
      Joined(s.log.fired, Cut(a), Cut(b));
      Joined(Waiting(s, After), Left(a, After), Left(b, After));
      Joined(Waiting(s, OnError), Left(a, OnError), Left(b, OnError));
    }
  }

  lemma Joined<T>(x: seq<T>, y: seq<T>, z: seq<T>)
    ensures x + y + z == x + (y + z)
  {
  }

  lemma {:induction false} RegisterDoes(s: State, c: Call)
    ensures Does(s, Register(s, c), UnfoldCall(s.env, c))
    decreases c
  {
    if Settled(s.env, c.side) {
      FireDoes(Note(s, c.side, c.h), c.h, Kept(s.env, c.side));
    } else {
      One(Stored(c.side, c.h));
    }
  }

  lemma {:induction false} FireDoes(s: State, h: Handler, p: Payload)
    ensures Does(s, Fire(s, h, p), Unfold(s.env, h, p))
    decreases h
  {
    var t := s.(log := s.log.(fired := s.log.fired + [Firing(h, p)]));
    var r := RunScript(t, h.script);
    ScriptDoes(t, h.script);
    var first := [Ran(Firing(h, p))];
    One(Ran(Firing(h, p)));
    One(Thrown);
    DoesThen(s, Res(t, false), r, first, UnfoldScript(s.env, h.script));
    DoesThen(s, r, Res(r.s, h.throws), first + UnfoldScript(s.env, h.script), if h.throws then [Thrown] else []);
  }

  lemma {:induction false} ScriptDoes(s: State, cs: seq<Call>)
    ensures Does(s, RunScript(s, cs), UnfoldScript(s.env, cs))
    decreases cs
  {
    if cs != [] {
      var r := Register(s, cs[0]);
      RegisterDoes(s, cs[0]);
      if !r.threw { ScriptDoes(r.s, cs[1..]); }
      DoesThen(s, r, RunScript(r.s, cs[1..]), UnfoldCall(s.env, cs[0]), UnfoldScript(s.env, cs[1..]));
    }
  }

  lemma {:induction false} ClosureDoes(s: State, c: Closure, p: Payload)
    ensures Does(s, RunClosure(s, c, p), UnfoldAll(s.env, Flatten(c), p))
  {
    match c {
      case Single(h) =>
        FireDoes(s, h, p);
        assert [h][..0] == [];
        assert UnfoldAll(s.env, [h], p) == [] + Unfold(s.env, h, p) == Unfold(s.env, h, p);
      case Then(g, f) =>
        ClosureDoes(s, g, p);
        var r := RunClosure(s, g, p);
        FireDoes(r.s, f, p);
        var hs := Flatten(g);
        assert (hs + [f])[..|hs|] == hs;
        DoesThen(s, r, Fire(r.s, f, p), UnfoldAll(s.env, hs, p), Unfold(s.env, f, p));
    }
  }

  lemma SlotDoes(s: State, side: Side, p: Payload)
    ensures Does(s, RunSlot(s, side, p), UnfoldAll(s.env, Waiting(s, side), p))
  {
    if Slot(s, side).Some? {
      ClosureDoes(s, Slot(s, side).value, p);
    }
  }
}
