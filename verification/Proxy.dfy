// ProxyImpl, in the form of the source. The three specialisations share their text; `kind` selects the few
// places where they differ. A method returns whether an exception leaves it.
module Proxies {
  import opened Options
  import opened ProxyModel

  class ProxyImpl {
    const kind: Kind
    var afterHandler: Option<Closure>
    var errorHandler: Option<Closure>
    var done: bool
    var resultValue: Value
    var error: bool
    var errorCode: ErrorCode
    var errorMsg: string
    var log: Log

    ghost function Abs(): State
      reads this
    {
      State(Env(kind, done, resultValue, error, errorCode, errorMsg), afterHandler, errorHandler, log)
    }

    constructor (kind: Kind)
      ensures this.kind == kind && Abs() == New(kind)
    {
      this.kind := kind;
      afterHandler, errorHandler := None, None;
      done, resultValue, error, errorCode, errorMsg := false, NoValue, false, Network, "";
      log := Log([], [], [], [], 0);
    }

    method AddAfter(f: Handler) returns (threw: bool)
      modifies this
      ensures Res(Abs(), threw) == Register(old(Abs()), Call(After, f))
      decreases f, 1
    {
      log := log.(afters := log.afters + [f]);
      if done {
        threw := Invoke(f, Result(if kind == OfVoid then NoValue else resultValue));
        return;
      }
      threw := false;
      if afterHandler.Some? {
        afterHandler := Some(Then(afterHandler.value, f));
      } else {
        afterHandler := Some(Single(f));
      }
    }

    method AddOnError(f: Handler) returns (threw: bool)
      modifies this
      ensures Res(Abs(), threw) == Register(old(Abs()), Call(OnError, f))
      decreases f, 1
    {
      log := log.(errors := log.errors + [f]);
      if error {
        threw := Invoke(f, Failure(errorCode, errorMsg));
        return;
      }
      threw := false;
      if errorHandler.Some? {
        errorHandler := Some(Then(errorHandler.value, f));
      } else {
        errorHandler := Some(Single(f));
      }
    }

    // A user handler: what it does while it runs.
    method Invoke(h: Handler, p: Payload) returns (threw: bool)
      modifies this
      ensures Res(Abs(), threw) == Fire(old(Abs()), h, p)
      decreases h, 0
    {
      log := log.(fired := log.fired + [Firing(h, p)]);
      ghost var start := Abs();
      var k := 0;
      while k < |h.script|
        invariant 0 <= k <= |h.script|
        invariant RunScript(start, h.script) == RunScript(Abs(), h.script[k..])
      {
        assert h.script[k..][1..] == h.script[k + 1..];
        threw := Perform(h.script[k]);
        if threw { return; }
        k := k + 1;
      }
      threw := h.throws;
    }

    method Perform(c: Call) returns (threw: bool)
      modifies this
      ensures Res(Abs(), threw) == Register(old(Abs()), c)
      decreases c, 0
    {
      match c.side {
        case After => threw := AddAfter(c.h);
        case OnError => threw := AddOnError(c.h);
      }
    }

    method CallClosure(c: Closure, p: Payload) returns (threw: bool)
      modifies this
      ensures Res(Abs(), threw) == RunClosure(old(Abs()), c, p)
      decreases c
    {
      match c {
        case Single(h) => threw := Invoke(h, p);
        case Then(g, f) =>
          threw := CallClosure(g, p);
          if !threw { threw := Invoke(f, p); }
      }
    }

    method DoSetError(e: ErrorCode, msg: string) returns (threw: bool)
      modifies this
      ensures Res(Abs(), threw) == SetError(old(Abs()), e, msg)
    {
      error := true;
      errorCode := e;
      errorMsg := msg;
      threw := false;
      if errorHandler.Some? { threw := CallClosure(errorHandler.value, Failure(e, msg)); }
    }

    method Completed(v: Value) returns (threw: bool)
      requires kind == OfVoid ==> v == NoValue
      modifies this
      ensures Res(Abs(), threw) == Complete(old(Abs()), v)
    {
      if kind != OfVoid {
        done := true;
        resultValue := v;
      }
      threw := false;
      if afterHandler.Some? { threw := CallClosure(afterHandler.value, Result(v)); }
    }

    method OnResponse(r: Response) returns (threw: bool)
      modifies this
      ensures Res(Abs(), threw) == Respond(old(Abs()), r)
    {
      log := log.(responses := log.responses + [r], early := |log.afters|);
      if r.failed {
        threw := DoSetError(Network, r.message);
      } else if r.status / 100 == 2 {
        var v := Outcome(kind, r);
        if v.None? {
          threw := DoSetError(Unknown, BAD_BODY);
        } else {
          threw := Completed(v.value);
          if threw && kind == OfString { threw := DoSetError(Unknown, HANDLER_ERROR); }
        }
      } else {
        threw := DoSetError(Unknown, r.reason);
      }
    }
  }
}
