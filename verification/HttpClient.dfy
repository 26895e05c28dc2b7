// HttpClient itself, in the form of the source: fields overwritten by SendRequest and by the completion
// handlers. Each method is tied to the step of the pipeline it performs.
module Http {
  import opened Options
  import opened Pipeline
  import opened PipelineRuns

  // A response handler is modelled by the requests it submits while it runs, in order.
  type Handler = seq<Request>

  function SubmitAll(s: State, rs: seq<Request>): State {
    if rs == [] then s else Submit(SubmitAll(s, rs[..|rs| - 1]), rs[|rs| - 1])
  }

  // One turn of the event loop: a completion and, if it calls a response handler, all that handler does.
  function Turn(s: State, i: nat, out: Outcome, handler: Handler): State
    requires i < |s.ops|
  {
    var t := Complete(s, i, out);
    if t.phase.Calling? then Return(SubmitAll(t, handler)) else t
  }

  function Submissions(rs: seq<Request>): seq<Event> {
    seq(|rs|, k requires 0 <= k < |rs| => Submitted(rs[k]))
  }

  function TurnEvents(s: State, i: nat, out: Outcome, handler: Handler): seq<Event>
    requires i < |s.ops|
  {
    [Completed(i, out)] + if Complete(s, i, out).phase.Calling? then Submissions(handler) + [Returned] else []
  }

  lemma {:induction false} SubmitAllIsRun(s: State, rs: seq<Request>)
    ensures IsRun(s, Submissions(rs)) && Run(s, Submissions(rs)) == SubmitAll(s, rs)
    ensures SubmitAll(s, rs).phase == s.phase
    decreases |rs|
  {
    if rs != [] {
      var front, last := rs[..|rs| - 1], rs[|rs| - 1];
      SubmitAllIsRun(s, front);
      var t := SubmitAll(s, front);
      assert Run(t, [Submitted(last)]) == Submit(t, last) by {
        assert [Submitted(last)][1..] == [];
      }
      RunAppend(s, Submissions(front), [Submitted(last)]);
      assert Submissions(rs) == Submissions(front) + [Submitted(last)];
    }
  }

  // A turn is a run of the pipeline, so every theorem about runs is about turns.
  lemma TurnIsRun(s: State, i: nat, out: Outcome, handler: Handler)
    requires Enabled(s, Completed(i, out))
    ensures IsRun(s, TurnEvents(s, i, out, handler))
    ensures Run(s, TurnEvents(s, i, out, handler)) == Turn(s, i, out, handler)
  {
    var t := Complete(s, i, out);
    var first := [Completed(i, out)];
    assert first[1..] == [] && Run(s, first) == t;
    if t.phase.Calling? {
      SubmitAllIsRun(t, handler);
      var u := SubmitAll(t, handler);
      assert [Returned][1..] == [] && Run(u, [Returned]) == Return(u);
      RunAppend(t, Submissions(handler), [Returned]);
      RunAppend(s, first, Submissions(handler) + [Returned]);
    } else {
      assert first + [] == first;
    }
  }

  lemma TurnInv(s: State, i: nat, out: Outcome, handler: Handler)
    requires Inv(s) && Enabled(s, Completed(i, out))
    ensures Inv(Turn(s, i, out, handler))
  {
    TurnIsRun(s, i, out, handler);
    RunInv(s, TurnEvents(s, i, out, handler));
  }

  // CallBack, entered from the completion of an operation of this kind.
  function CalledBack(s: State, kind: Kind, reply: Reply, handler: Handler): State {
    PopAndContinue(SubmitAll(Enter(s, kind, reply), handler))
  }

  // The completion handlers of the source, one by one. `s` is the state without the completed operation.
  function Handled(s: State, op: Op, out: Outcome, handler: Handler): State {
    match op.kind
    case Resolve => if out.failed then CalledBack(s, Resolve, Failure, handler) else Start(s, Connect)
    case Connect =>
      var u := s.(socketOpen := !out.failed || out.open);
      if out.failed then CalledBack(u, Connect, Failure, handler) else StartWrite(u)
    case Write => if out.failed then CalledBack(s, Write, Failure, handler) else Start(s, Read)
    case Read =>
      var u := Fill(s, op, out);
      ClearRead(CalledBack(u, Read, if out.failed then Failure else Reply(false, u.resp), handler))
  }

  lemma CallBackReturns(s: State, kind: Kind, reply: Reply, handler: Handler)
    requires s.pending != []
    ensures var t := Enter(s, kind, reply);
      && t.phase == Calling(kind)
      && Return(SubmitAll(t, handler))
         == if kind == Read then ClearRead(CalledBack(s, kind, reply, handler)) else CalledBack(s, kind, reply, handler)
  {
    SubmitAllIsRun(Enter(s, kind, reply), handler);
  }

  lemma TurnIsHandled(s: State, i: nat, out: Outcome, handler: Handler)
    requires Inv(s) && Enabled(s, Completed(i, out))
    ensures s.pending != []
    ensures Turn(s, i, out, handler)
         == Handled(s.(ops := s.ops[..i] + s.ops[i + 1..], log := CountCompletion(s.log, s.ops[i].kind, out.failed)),
                    s.ops[i], out, handler)
  {
    OneOperation(s, i);
    var t := s.(ops := s.ops[..i] + s.ops[i + 1..], log := CountCompletion(s.log, s.ops[i].kind, out.failed));
    match s.ops[i].kind {
      case Resolve => CallBackReturns(t, Resolve, Failure, handler);
      case Connect => CallBackReturns(t.(socketOpen := !out.failed || out.open), Connect, Failure, handler);
      case Write => CallBackReturns(t, Write, Failure, handler);
      case Read =>
        var u := Fill(t, s.ops[i], out);
        CallBackReturns(u, Read, if out.failed then Failure else Reply(false, u.resp), handler);
    }
  }

  // `ops` is what the event loop still has to complete; `phase` and `log` only observe.
  class HttpClient {
    var pending: seq<Entry>
    var socketOpen: bool
    var request: Option<Entry>
    var buffer: seq<Octet>
    var resp: Message
    var ops: seq<Op>
    var phase: Phase
    var log: Log

    ghost function Abs(): State
      reads this
    {
      State(pending, ops, phase, socketOpen, request, buffer, resp, log)
    }

    constructor ()
      ensures Abs() == Init && Inv(Abs())
    {
      pending, socketOpen, request, buffer, resp := [], false, None, [], NoMessage;
      ops, phase, log := [], Idle, Log([], [], [], false, 0, 0, 0, 0, 0);
    }

    method SendRequest(r: Request)
      modifies this
      ensures Abs() == Submit(old(Abs()), r)
      ensures pending == old(pending) + [Entry(|old(log.submitted)|, r)]
      ensures ops == if old(pending) == [] then old(ops) + [Op(Resolve, pending[0].ticket)] else old(ops)
      ensures request == old(request) && buffer == old(buffer) && resp == old(resp) && socketOpen == old(socketOpen)
    {
      pending := pending + [Entry(|log.submitted|, r)];
      log := log.(submitted := log.submitted + [r]);
      if |pending| > 1 { return; }
      log := log.(batches := log.batches + 1);
      ops := ops + [Op(Resolve, pending[0].ticket)];
    }

    method CallBack(kind: Kind, reply: Reply, handler: Handler)
      requires pending != []
      modifies this
      ensures Abs() == CalledBack(old(Abs()), kind, reply, handler)
    {
      log := log.(answered := log.answered + [Answer(pending[0].ticket, pending[0].request, reply)]);
      phase := Calling(kind);
      RunHandler(handler);
      phase := Idle;
      pending := pending[1..];
      if pending == [] {
        if socketOpen {
          log := log.(aborted := log.aborted + SocketOps(ops));
          socketOpen := false;
        }
      } else {
        DoWrite();
      }
    }

    method RunHandler(handler: Handler)
      modifies this
      ensures Abs() == SubmitAll(old(Abs()), handler)
      ensures |pending| >= old(|pending|)
    {
      for k := 0 to |handler|
        invariant Abs() == SubmitAll(old(Abs()), handler[..k])
        invariant |pending| >= old(|pending|)
      {
        assert handler[..k + 1][..k] == handler[..k];
        SendRequest(handler[k]);
      }
      assert handler[..|handler|] == handler;
    }

    method DoConnect()
      requires pending != []
      modifies this
      ensures Abs() == Start(old(Abs()), Connect)
    {
      ops := ops + [Op(Connect, pending[0].ticket)];
    }

    method DoWrite()
      requires pending != []
      modifies this
      ensures Abs() == StartWrite(old(Abs()))
    {
      request := Some(pending[0]);
      ops := ops + [Op(Write, pending[0].ticket)];
    }

    method ReadResponse()
      requires pending != []
      modifies this
      ensures Abs() == Start(old(Abs()), Read)
    {
      ops := ops + [Op(Read, pending[0].ticket)];
    }

    // The event loop completes the i-th outstanding operation: the completion handlers of the source.
    method RunOne(i: nat, out: Outcome, handler: Handler)
      requires Inv(Abs()) && Enabled(Abs(), Completed(i, out))
      modifies this
      ensures Inv(Abs())
      ensures Abs() == Turn(old(Abs()), i, out, handler)
    {
      TurnIsHandled(Abs(), i, out, handler);
      TurnInv(Abs(), i, out, handler);
      var op := ops[i];
      ops := ops[..i] + ops[i + 1..];
      log := CountCompletion(log, op.kind, out.failed);
      Handle(op, out, handler);
    }

    method Handle(op: Op, out: Outcome, handler: Handler)
      requires pending != []
      modifies this
      ensures Abs() == Handled(old(Abs()), op, out, handler)
    {
      match op.kind {
        case Resolve =>
          if out.failed { CallBack(Resolve, Failure, handler); } else { DoConnect(); }
        case Connect =>
          socketOpen := !out.failed || out.open;
          if out.failed { CallBack(Connect, Failure, handler); } else { DoWrite(); }
        case Write =>
          if out.failed { CallBack(Write, Failure, handler); } else { ReadResponse(); }
        case Read =>
          ReadDone(op, out, handler);
      }
    }

    // What async_read does to the buffer and the response.
    method Receive(op: Op, out: Outcome)
      modifies this
      ensures Abs() == Fill(old(Abs()), op, out)
    {
      var received := buffer + Tag(out.bytes, op.serves);
      var n := if out.consumed <= |received| then out.consumed else |received|;
      buffer := received[n..];
      resp := if out.failed then Message(resp.status, resp.reason, resp.body + received[..n])
              else Message(out.status, out.reason, resp.body + received[..n]);
    }

    method ReadDone(op: Op, out: Outcome, handler: Handler)
      requires pending != []
      modifies this
      ensures var s := Fill(old(Abs()), op, out);
        Abs() == ClearRead(CalledBack(s, Read, if out.failed then Failure else Reply(false, s.resp), handler))
    {
      Receive(op, out);
      CallBack(Read, if out.failed then Failure else Reply(false, resp), handler);
      buffer := [];
      resp := NoMessage;
    }
  }
}
