// The HTTP request pipeline of HttpClient as a state machine. One step is one thing that the single
// event loop lets happen: somebody calls SendRequest, an outstanding asynchronous operation completes with
// an arbitrary outcome, or the response handler that is running returns.
module Pipeline {
  import opened Options

  datatype Request = Request(verb: string, url: string, body: string)

  // A queue element. The ticket names the element: it is the position of the request among all those ever submitted.
  datatype Entry = Entry(ticket: nat, request: Request)

  datatype Kind = Resolve | Connect | Write | Read

  // An asynchronous operation the event loop still has to complete, and the ticket it was started for.
  datatype Op = Op(kind: Kind, serves: nat)

  // A received byte and the ticket of the exchange whose read brought it in.
  datatype Octet = Octet(exchange: nat, value: char)

  datatype Message = Message(status: nat, reason: string, body: seq<Octet>)

  const NoMessage := Message(0, "", [])

  // What a response handler is called with.
  datatype Reply = Reply(failed: bool, message: Message)

  datatype Answer = Answer(ticket: nat, request: Request, reply: Reply)

  // How the environment completes an operation. `open` is the state a failed connect leaves the socket in;
  // a read appends `bytes` to the buffer, and its parser consumes `consumed` bytes of what is there.
  datatype Outcome = Outcome(failed: bool, open: bool, status: nat, reason: string, bytes: string, consumed: nat)

  // `Calling(kind)`: the response handler of the front request is running, inside the completion of a `kind`.
  datatype Phase = Idle | Calling(kind: Kind)

  // What happened so far. `batches` counts the submissions that found the queue empty; `aborted` the operations
  // outstanding on the socket when it was cancelled; `faulted` a violated assert(!pending.empty()).
  datatype Log = Log(
    submitted: seq<Request>, answered: seq<Answer>, aborted: seq<Op>, faulted: bool,
    batches: nat, completions: nat, resolveFailures: nat, connectFailures: nat, writeFailures: nat)

  datatype State = State(
    pending: seq<Entry>, ops: seq<Op>, phase: Phase, socketOpen: bool,
    request: Option<Entry>, buffer: seq<Octet>, resp: Message, log: Log)

  const Init := State([], [], Idle, false, None, [], NoMessage, Log([], [], [], false, 0, 0, 0, 0, 0))

  // ---- steps ----

  function Start(s: State, kind: Kind): State {
    if s.pending == [] then s.(log := s.log.(faulted := true))
    else s.(ops := s.ops + [Op(kind, s.pending[0].ticket)])
  }

  function Submit(s: State, r: Request): State {
    var t := s.(pending := s.pending + [Entry(|s.log.submitted|, r)],
                log := s.log.(submitted := s.log.submitted + [r]));
    if |t.pending| > 1 then t
    else Start(t.(log := t.log.(batches := t.log.batches + 1)), Resolve)
  }

  function StartWrite(s: State): State {
    if s.pending == [] then Start(s, Write)
    else Start(s.(request := Some(s.pending[0])), Write)
  }

  // Calls the response handler of the front request.
  function Enter(s: State, kind: Kind, reply: Reply): State {
    if s.pending == [] then s.(log := s.log.(faulted := true))
    else s.(phase := Calling(kind),
            log := s.log.(answered := s.log.answered + [Answer(s.pending[0].ticket, s.pending[0].request, reply)]))
  }

  const Failure := Reply(true, NoMessage)

  function Tag(bytes: string, ticket: nat): (r: seq<Octet>)
    ensures |r| == |bytes|
    ensures forall i :: 0 <= i < |r| ==> r[i] == Octet(ticket, bytes[i])
  {
    seq(|bytes|, i requires 0 <= i < |bytes| => Octet(ticket, bytes[i]))
  }

  // async_read: the parser works on the buffer, including what an earlier read left there, and adds to `resp`.
  function Fill(s: State, op: Op, out: Outcome): State {
    var b := s.buffer + Tag(out.bytes, op.serves);
    var n := if out.consumed <= |b| then out.consumed else |b|;
    s.(buffer := b[n..],
       resp := if out.failed then Message(s.resp.status, s.resp.reason, s.resp.body + b[..n])
               else Message(out.status, out.reason, s.resp.body + b[..n]))
  }

  function CountCompletion(l: Log, kind: Kind, failed: bool): Log {
    var m := l.(completions := l.completions + 1);
    if !failed then m else
    match kind
    case Resolve => m.(resolveFailures := m.resolveFailures + 1)
    case Connect => m.(connectFailures := m.connectFailures + 1)
    case Write => m.(writeFailures := m.writeFailures + 1)
    case Read => m
  }

  function Complete(s: State, i: nat, out: Outcome): State
    requires i < |s.ops|
  {
    var op := s.ops[i];
    var t := s.(ops := s.ops[..i] + s.ops[i + 1..], log := CountCompletion(s.log, op.kind, out.failed));
    match op.kind
    case Resolve => if out.failed then Enter(t, Resolve, Failure) else Start(t, Connect)
    case Connect =>
      var u := t.(socketOpen := !out.failed || out.open);
      if out.failed then Enter(u, Connect, Failure) else StartWrite(u)
    case Write => if out.failed then Enter(t, Write, Failure) else Start(t, Read)
    case Read =>
      var u := Fill(t, op, out);
      Enter(u, Read, if out.failed then Failure else Reply(false, u.resp))
  }

  function SocketOps(ops: seq<Op>): seq<Op> {
    if ops == [] then [] else (if ops[0].kind == Resolve then [] else [ops[0]]) + SocketOps(ops[1..])
  }

  function CloseSocket(s: State): State {
    if !s.socketOpen then s
    else s.(socketOpen := false, log := s.log.(aborted := s.log.aborted + SocketOps(s.ops)))
  }

  // The rest of CallBack once the response handler is back.
  function PopAndContinue(s: State): State {
    if s.pending == [] then s.(phase := Idle, log := s.log.(faulted := true))
    else
      var t := s.(phase := Idle, pending := s.pending[1..]);
      if t.pending == [] then CloseSocket(t) else StartWrite(t)
  }

  function ClearRead(s: State): State {
    s.(buffer := [], resp := NoMessage)
  }

  // The handler returns to CallBack, CallBack to the completion that called it.
  function Return(s: State): State {
    if s.phase == Calling(Read) then ClearRead(PopAndContinue(s)) else PopAndContinue(s)
  }

  datatype Event = Submitted(r: Request) | Completed(i: nat, out: Outcome) | Returned

  // Submissions are possible at any time, also inside a handler. Completions never run inside a handler.
  predicate Enabled(s: State, e: Event) {
    match e
    case Submitted(_) => true
    case Completed(i, _) => s.phase == Idle && i < |s.ops|
    case Returned => s.phase.Calling?
  }

  function Step(s: State, e: Event): State
    requires Enabled(s, e)
  {
    match e
    case Submitted(r) => Submit(s, r)
    case Completed(i, out) => Complete(s, i, out)
    case Returned => Return(s)
  }

  predicate IsRun(s: State, es: seq<Event>)
    decreases |es|
  {
    es == [] || (Enabled(s, es[0]) && IsRun(Step(s, es[0]), es[1..]))
  }

  function Run(s: State, es: seq<Event>): State
    requires IsRun(s, es)
    decreases |es|
  {
    if es == [] then s else Run(Step(s, es[0]), es[1..])
  }

  // ---- the invariant ----

  // Number of requests that have left the queue.
  function Served(s: State): int {
    |s.log.submitted| - |s.pending|
  }

  ghost predicate QueueInv(s: State) {
    && Served(s) >= 0
    && (forall k :: 0 <= k < |s.pending| ==> s.pending[k] == Entry(Served(s) + k, s.log.submitted[Served(s) + k]))
    && |s.log.answered| == Served(s) + (if s.phase.Calling? then 1 else 0)
    && (s.phase.Calling? ==> s.pending != [])
  }

  ghost predicate OwnBytes(a: Answer) {
    forall j :: 0 <= j < |a.reply.message.body| ==> a.reply.message.body[j].exchange == a.ticket
  }

  // The k-th answer answers the k-th submission, with bytes of its own exchange only.
  ghost predicate AnswersInv(s: State) {
    && |s.log.answered| <= |s.log.submitted|
    && (forall k :: 0 <= k < |s.log.answered| ==>
      && s.log.answered[k].ticket == k
      && s.log.answered[k].request == s.log.submitted[k]
      && OwnBytes(s.log.answered[k]))
  }

  ghost predicate FlightInv(s: State) {
    && (s.phase == Idle && s.pending != [] ==> |s.ops| == 1 && s.ops[0].serves == s.pending[0].ticket)
    && (s.phase == Idle && s.pending == [] ==> s.ops == [] && !s.socketOpen)
    && (s.phase.Calling? ==> s.ops == [])
    && (s.ops != [] && s.ops[0].kind in {Resolve, Connect} ==> !s.socketOpen)
    && (s.ops != [] && s.ops[0].kind == Write ==> s.pending != [] && s.request == Some(s.pending[0]))
    && s.log.aborted == []
    && !s.log.faulted
  }

  ghost predicate BufferInv(s: State) {
    s.phase != Calling(Read) ==> s.buffer == [] && s.resp == NoMessage
  }

  // Completions that are still to come if nothing more is submitted and nothing fails.
  function Remaining(s: State): nat {
    var p := |s.pending|;
    if p == 0 then 0
    else if s.phase.Calling? then 2 * (p - 1)
    else if s.ops == [] then 0
    else match s.ops[0].kind
      case Resolve => 2 * p + 2
      case Connect => 2 * p + 1
      case Write => 2 * p
      case Read => 2 * p - 1
  }

  // Every completion is paid for: two by each submission and two by each batch. A failure forfeits the
  // operations it makes unnecessary. `completions` are still owed.
  ghost predicate Owes(s: State, completions: int) {
    s.log.completions + completions + 3 * s.log.resolveFailures + 2 * s.log.connectFailures + s.log.writeFailures
    == 2 * |s.log.submitted| + 2 * s.log.batches
  }

  ghost predicate Inv(s: State) {
    QueueInv(s) && AnswersInv(s) && FlightInv(s) && BufferInv(s) && Owes(s, Remaining(s))
  }

  lemma SubmitInv(s: State, r: Request)
    requires Inv(s)
    ensures Inv(Submit(s, r))
  {
  }

  // In a quiet state with an outstanding operation there is just that one, and it serves the front request.
  lemma OneOperation(s: State, i: nat)
    requires Inv(s) && s.phase == Idle && i < |s.ops|
    ensures i == 0 && s.pending != [] && s.ops == [Op(s.ops[0].kind, Served(s))]
    ensures s.ops[..i] + s.ops[i + 1..] == []
    ensures s.buffer == [] && s.resp == NoMessage
  {
  }

  // Between operations: the completion that just ran has been counted, nothing is outstanding.
  ghost predicate Between(s: State) {
    && QueueInv(s) && AnswersInv(s)
    && s.phase == Idle && s.pending != [] && s.ops == [] && s.log.aborted == [] && !s.log.faulted
  }

  lemma EnterInv(s: State, kind: Kind, reply: Reply)
    requires Between(s) && (kind != Read ==> BufferInv(s))
    requires forall j :: 0 <= j < |reply.message.body| ==> reply.message.body[j].exchange == Served(s)
    requires Owes(s, 2 * (|s.pending| - 1))
    ensures Inv(Enter(s, kind, reply))
  {
  }

  lemma StartInv(s: State, kind: Kind)
    requires Between(s) && BufferInv(s)
    requires kind in {Resolve, Connect} ==> !s.socketOpen
    requires kind == Write ==> s.request == Some(s.pending[0])
    requires Owes(s, Remaining(s.(ops := [Op(kind, 0)])))
    ensures Inv(Start(s, kind))
  {
  }

  // Taking the only operation off the event loop and counting its completion.
  function Taken(s: State, failed: bool): State
    requires s.ops != []
  {
    s.(ops := [], log := CountCompletion(s.log, s.ops[0].kind, failed))
  }

  lemma TakenBetween(s: State, failed: bool)
    requires Inv(s) && s.phase == Idle && s.ops != []
    ensures Between(Taken(s, failed)) && BufferInv(Taken(s, failed))
  {
  }

  lemma CompleteInv(s: State, i: nat, out: Outcome)
    requires Inv(s) && Enabled(s, Completed(i, out))
    ensures Inv(Complete(s, i, out))
  {
    OneOperation(s, i);
    TakenBetween(s, out.failed);
    var t := Taken(s, out.failed);
    var op := s.ops[0];
    match op.kind {
      case Resolve =>
        if out.failed { EnterInv(t, Resolve, Failure); } else { StartInv(t, Connect); }
      case Connect =>
        var u := t.(socketOpen := !out.failed || out.open);
        assert Between(u);
        if out.failed { EnterInv(u, Connect, Failure); } else { WriteInv(u); }
      case Write =>
        if out.failed { EnterInv(t, Write, Failure); } else { StartInv(t, Read); }
      case Read =>
        ReadInv(t, op, out);
    }
  }

  lemma WriteInv(s: State)
    requires Between(s) && BufferInv(s) && Owes(s, 2 * |s.pending|)
    ensures Inv(StartWrite(s))
  {
  }

  // The buffer and the response start empty, so what a read delivers are bytes of its own exchange.
  lemma ReadInv(s: State, op: Op, out: Outcome)
    requires Between(s) && BufferInv(s) && op.serves == Served(s) && Owes(s, 2 * (|s.pending| - 1))
    ensures Inv(Enter(Fill(s, op, out), Read, if out.failed then Failure else Reply(false, Fill(s, op, out).resp)))
  {
  }

  lemma LastReturnInv(s: State)
    requires Inv(s) && s.phase.Calling? && |s.pending| == 1
    ensures Inv(Return(s))
  {
    var t := Return(s);
    assert SocketOps([]) == [];
    assert t.pending == [] && t.ops == [] && t.log == s.log;
    assert QueueInv(t) && AnswersInv(t);
  }

  lemma NextReturnInv(s: State)
    requires Inv(s) && s.phase.Calling? && |s.pending| > 1
    ensures Inv(Return(s))
  {
    var t := Return(s);
    assert t.pending == s.pending[1..] && t.log == s.log;
    assert t.ops == [Op(Write, t.pending[0].ticket)];
    assert Served(t) == Served(s) + 1;
    assert QueueInv(t) && AnswersInv(t);
  }

  lemma ReturnInv(s: State)
    requires Inv(s) && s.phase.Calling?
    ensures Inv(Return(s))
  {
    if |s.pending| == 1 { LastReturnInv(s); } else { NextReturnInv(s); }
  }

  lemma StepInv(s: State, e: Event)
    requires Inv(s) && Enabled(s, e)
    ensures Inv(Step(s, e))
  {
    match e
    case Submitted(r) => SubmitInv(s, r);
    case Completed(i, out) => CompleteInv(s, i, out);
    case Returned => ReturnInv(s);
  }

  lemma {:induction false} RunInv(s: State, es: seq<Event>)
    requires Inv(s) && IsRun(s, es)
    ensures Inv(Run(s, es))
    decreases |es|
  {
    if es != [] {
      StepInv(s, es[0]);
      RunInv(Step(s, es[0]), es[1..]);
    }
  }
}
