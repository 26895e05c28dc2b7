// What holds over every run of the request pipeline, whatever the callers submit (inside handlers too) and
// however the operations complete.
module PipelineRuns {
  import opened Pipeline

  function AnsweredRequests(answers: seq<Answer>): seq<Request> {
    seq(|answers|, k requires 0 <= k < |answers| => answers[k].request)
  }

  function QueuedRequests(entries: seq<Entry>): seq<Request> {
    seq(|entries|, k requires 0 <= k < |entries| => entries[k].request)
  }

  // ---- what happened, told by the events alone ----

  // The requests handed to SendRequest, in order.
  function Requests(es: seq<Event>): seq<Request> {
    if es == [] then []
    else (if es[0].Submitted? then [es[0].r] else []) + Requests(es[1..])
  }

  function Completions(es: seq<Event>): nat {
    if es == [] then 0 else (if es[0].Completed? then 1 else 0) + Completions(es[1..])
  }

  // How often a request found the queue empty.
  function Batches(s: State, es: seq<Event>): nat
    requires IsRun(s, es)
    decreases |es|
  {
    if es == [] then 0
    else (if es[0].Submitted? && s.pending == [] then 1 else 0) + Batches(Step(s, es[0]), es[1..])
  }

  // How often an operation of this kind failed.
  function Failures(s: State, es: seq<Event>, kind: Kind): nat
    requires IsRun(s, es)
    decreases |es|
  {
    if es == [] then 0
    else
      (if es[0].Completed? && es[0].out.failed && s.ops[es[0].i].kind == kind then 1 else 0)
      + Failures(Step(s, es[0]), es[1..], kind)
  }

  // One event, as the log notes it.
  lemma StepLog(s: State, e: Event)
    requires Enabled(s, e)
    ensures var t := Step(s, e);
      && t.log.submitted == s.log.submitted + (if e.Submitted? then [e.r] else [])
      && t.log.completions == s.log.completions + (if e.Completed? then 1 else 0)
      && t.log.batches == s.log.batches + (if e.Submitted? && s.pending == [] then 1 else 0)
      && t.log.resolveFailures == s.log.resolveFailures + Failed(s, e, Resolve)
      && t.log.connectFailures == s.log.connectFailures + Failed(s, e, Connect)
      && t.log.writeFailures == s.log.writeFailures + Failed(s, e, Write)
  {
    if e.Completed? { CompleteCounts(s, e.i, e.out); }
  }

  // Submissions and counters.
  ghost predicate SameCounts(l: Log, m: Log) {
    && l.submitted == m.submitted && l.completions == m.completions && l.batches == m.batches
    && l.resolveFailures == m.resolveFailures && l.connectFailures == m.connectFailures
    && l.writeFailures == m.writeFailures
  }

  lemma EnterCounts(s: State, kind: Kind, reply: Reply)
    ensures SameCounts(Enter(s, kind, reply).log, s.log)
  {
  }

  lemma CompleteCounts(s: State, i: nat, out: Outcome)
    requires i < |s.ops|
    ensures SameCounts(Complete(s, i, out).log, CountCompletion(s.log, s.ops[i].kind, out.failed))
  {
    var op := s.ops[i];
    var t := s.(ops := s.ops[..i] + s.ops[i + 1..], log := CountCompletion(s.log, op.kind, out.failed));
    var u := Fill(t, op, out);
    EnterCounts(t, op.kind, Failure);
    EnterCounts(t.(socketOpen := !out.failed || out.open), op.kind, Failure);
    EnterCounts(u, Read, if out.failed then Failure else Reply(false, u.resp));
    hide Enter, Fill;
  }

  function Failed(s: State, e: Event, kind: Kind): nat
    requires Enabled(s, e)
  {
    if e.Completed? && e.out.failed && s.ops[e.i].kind == kind then 1 else 0
  }

  // The log agrees with the events of any run.
  lemma {:induction false} RunLog(s: State, es: seq<Event>)
    requires IsRun(s, es)
    ensures var t := Run(s, es);
      && t.log.submitted == s.log.submitted + Requests(es)
      && t.log.completions == s.log.completions + Completions(es)
      && t.log.batches == s.log.batches + Batches(s, es)
      && t.log.resolveFailures == s.log.resolveFailures + Failures(s, es, Resolve)
      && t.log.connectFailures == s.log.connectFailures + Failures(s, es, Connect)
      && t.log.writeFailures == s.log.writeFailures + Failures(s, es, Write)
    decreases |es|
  {
    if es != [] {
      StepLog(s, es[0]);
      RunLog(Step(s, es[0]), es[1..]);
    }
  }

  // Runs can be put one after the other.
  lemma {:induction false} RunAppend(s: State, a: seq<Event>, b: seq<Event>)
    requires IsRun(s, a) && IsRun(Run(s, a), b)
    ensures IsRun(s, a + b) && Run(s, a + b) == Run(Run(s, a), b)
    decreases |a|
  {
    if a == [] {
      assert a + b == b;
    } else {
      assert (a + b)[1..] == a[1..] + b;
      RunAppend(Step(s, a[0]), a[1..], b);
    }
  }

  // The requests submitted are those answered followed by the queue. Inside a handler the front request
  // is already answered and still queued. No assertion on the queue ever fails.
  lemma AnsweredOnceInOrder(es: seq<Event>)
    requires IsRun(Init, es)
    ensures var s := Run(Init, es);
      && Requests(es) == AnsweredRequests(s.log.answered)
           + QueuedRequests(if s.phase.Calling? && s.pending != [] then s.pending[1..] else s.pending)
      && (forall k :: 0 <= k < |s.log.answered| ==> s.log.answered[k].ticket == k)
      && (s.phase.Calling? ==>
            && s.pending != [] && s.log.answered != []
            && s.log.answered[|s.log.answered| - 1].ticket == s.pending[0].ticket)
      && !s.log.faulted
  {
    RunInv(Init, es);
    RunLog(Init, es);
    SubmittedIsAnsweredAndQueued(Run(Init, es));
    AnswersInPlace(Run(Init, es));
    hide Run, IsRun, Inv;
    assert Run(Init, es).log.submitted == Requests(es);
  }

  lemma AnswersInPlace(s: State)
    requires Inv(s)
    ensures forall k :: 0 <= k < |s.log.answered| ==> s.log.answered[k].ticket == k
    ensures s.phase.Calling? ==> s.pending != [] && s.log.answered != []
    ensures s.phase.Calling? ==> s.log.answered[|s.log.answered| - 1].ticket == s.pending[0].ticket
    ensures !s.log.faulted
  {
  }

  lemma SubmittedIsAnsweredAndQueued(s: State)
    requires Inv(s)
    ensures s.log.submitted == AnsweredRequests(s.log.answered)
      + QueuedRequests(if s.phase.Calling? && s.pending != [] then s.pending[1..] else s.pending)
  {
    var queued := if s.phase.Calling? then s.pending[1..] else s.pending;
    var n := |s.log.answered|;
    assert n + |queued| == |s.log.submitted|;
    assert AnsweredRequests(s.log.answered) == s.log.submitted[..n];
    assert QueuedRequests(queued) == s.log.submitted[n..];
  }

  lemma StepAddsAnswers(s: State, e: Event)
    requires Enabled(s, e)
    ensures s.log.answered <= Step(s, e).log.answered && s.log.submitted <= Step(s, e).log.submitted
  {
    match e {
      case Submitted(r) =>
      case Completed(i, out) => CompleteAddsAnswers(s, i, out);
      case Returned =>
    }
  }

  lemma CompleteAddsAnswers(s: State, i: nat, out: Outcome)
    requires i < |s.ops|
    ensures s.log.answered <= Complete(s, i, out).log.answered && s.log.submitted == Complete(s, i, out).log.submitted
  {
    var op := s.ops[i];
    var t := s.(ops := s.ops[..i] + s.ops[i + 1..], log := CountCompletion(s.log, op.kind, out.failed));
    EnterAddsAnswer(t, op.kind, Failure);
    EnterAddsAnswer(t.(socketOpen := !out.failed || out.open), op.kind, Failure);
    var u := Fill(t, op, out);
    EnterAddsAnswer(u, Read, if out.failed then Failure else Reply(false, u.resp));
  }

  lemma EnterAddsAnswer(s: State, kind: Kind, reply: Reply)
    ensures s.log.answered <= Enter(s, kind, reply).log.answered
    ensures s.log.submitted == Enter(s, kind, reply).log.submitted
  {
  }

  // An answer once given stays as it was: later steps only add answers.
  lemma {:induction false} AnswersAreFinal(s: State, es: seq<Event>)
    requires IsRun(s, es)
    ensures s.log.answered <= Run(s, es).log.answered
    ensures s.log.submitted <= Run(s, es).log.submitted
    decreases |es|
  {
    if es != [] {
      StepAddsAnswers(s, es[0]);
      AnswersAreFinal(Step(s, es[0]), es[1..]);
    }
  }

  // Outside handlers exactly one operation is outstanding while requests are queued, and it serves the front
  // one; none otherwise, and then the socket is closed. Draining the queue never cancels an operation, and
  // a connect always starts from a closed socket.
  lemma OneOperationInFlight(es: seq<Event>)
    requires IsRun(Init, es)
    ensures var s := Run(Init, es);
      && (s.phase == Idle ==> (s.pending != [] <==> |s.ops| == 1) && (s.pending == [] <==> s.ops == []))
      && (s.ops != [] ==> s.pending != [] && s.ops[0].serves == s.pending[0].ticket)
      && (s.phase.Calling? ==> s.ops == [])
      && (s.phase == Idle && s.pending == [] ==> !s.socketOpen)
      && (s.ops != [] && s.ops[0].kind == Connect ==> !s.socketOpen)
      && s.log.aborted == []
  {
    RunInv(Init, es);
  }

  // Every read starts with an empty buffer and a default response, so every byte a handler is given was
  // received by the exchange of its own request.
  lemma RepliesStayInTheirExchange(es: seq<Event>)
    requires IsRun(Init, es)
    ensures var s := Run(Init, es);
      && (s.ops != [] && s.ops[0].kind == Read ==> s.buffer == [] && s.resp == NoMessage)
      && (forall k, j :: 0 <= k < |s.log.answered| && 0 <= j < |s.log.answered[k].reply.message.body| ==>
            s.log.answered[k].reply.message.body[j].exchange == s.log.answered[k].ticket)
  {
    RunInv(Init, es);
    var s := Run(Init, es);
    forall k, j | 0 <= k < |s.log.answered| && 0 <= j < |s.log.answered[k].reply.message.body|
      ensures s.log.answered[k].reply.message.body[j].exchange == s.log.answered[k].ticket
    {
      assert OwnBytes(s.log.answered[k]);
    }
  }

  // A successful read delivers exactly what its parser consumed of the bytes this read received.
  lemma ReadDeliversItsBytes(es: seq<Event>, out: Outcome)
    requires IsRun(Init, es)
    requires var s := Run(Init, es); Enabled(s, Completed(0, out)) && s.ops[0].kind == Read
    requires !out.failed
    ensures var s := Run(Init, es);
      var t := Step(s, Completed(0, out));
      var n := if out.consumed <= |out.bytes| then out.consumed else |out.bytes|;
      && s.pending != []
      && t.log.answered == s.log.answered + [Answer(s.pending[0].ticket, s.pending[0].request,
           Reply(false, Message(out.status, out.reason, Tag(out.bytes[..n], s.pending[0].ticket))))]
  {
    RunInv(Init, es);
    var s := Run(Init, es);
    var n := if out.consumed <= |out.bytes| then out.consumed else |out.bytes|;
    var b := s.buffer + Tag(out.bytes, s.ops[0].serves);
    assert b[..n] == Tag(out.bytes[..n], s.pending[0].ticket);
    assert [] + b[..n] == b[..n];
  }

  // A completion answers the front request exactly if it failed or was the read; the reply is failed exactly if
  // the completion was. Otherwise it starts the next operation for the same request.
  lemma RepliesTellTheOutcome(es: seq<Event>, i: nat, out: Outcome)
    requires IsRun(Init, es) && Enabled(Run(Init, es), Completed(i, out))
    ensures var s := Run(Init, es);
      var t := Step(s, Completed(i, out));
      var kind := s.ops[i].kind;
      && s.pending != [] && t.pending == s.pending
      && if out.failed || kind == Read then
           && t.phase == Calling(kind) && t.ops == []
           && |t.log.answered| == |s.log.answered| + 1 && s.log.answered == t.log.answered[..|s.log.answered|]
           && var a := t.log.answered[|s.log.answered|];
              && a.ticket == s.pending[0].ticket && a.request == s.pending[0].request
              && a.reply.failed == out.failed && (out.failed ==> a.reply.message == NoMessage)
         else
           && t.phase == Idle && t.log.answered == s.log.answered
           && t.ops == [Op(Follower(kind), s.pending[0].ticket)]
  {
    RunInv(Init, es);
    var s := Run(Init, es);
    OneOperation(s, i);
    if out.failed || s.ops[i].kind == Read { EndsExchange(s, i, out); } else { GoesOn(s, i, out); }
  }

  lemma EndsExchange(s: State, i: nat, out: Outcome)
    requires Inv(s) && Enabled(s, Completed(i, out)) && (out.failed || s.ops[i].kind == Read)
    ensures var t := Complete(s, i, out);
      && s.pending != [] && t.pending == s.pending && t.phase == Calling(s.ops[i].kind) && t.ops == []
      && |t.log.answered| == |s.log.answered| + 1 && s.log.answered == t.log.answered[..|s.log.answered|]
      && var a := t.log.answered[|s.log.answered|];
         && a.ticket == s.pending[0].ticket && a.request == s.pending[0].request
         && a.reply.failed == out.failed && (out.failed ==> a.reply.message == NoMessage)
  {
    OneOperation(s, i);
  }

  lemma GoesOn(s: State, i: nat, out: Outcome)
    requires Inv(s) && Enabled(s, Completed(i, out)) && !out.failed && s.ops[i].kind != Read
    ensures var t := Complete(s, i, out);
      && s.pending != [] && t.pending == s.pending && t.phase == Idle && t.log.answered == s.log.answered
      && t.ops == [Op(Follower(s.ops[i].kind), s.pending[0].ticket)]
  {
    OneOperation(s, i);
  }

  function Follower(kind: Kind): Kind {
    match kind
    case Resolve => Connect
    case Connect => Write
    case Write => Read
    case Read => Read
  }

  // The return of a handler takes the answered request off the queue; the next one is written at once, without
  // another resolve or connect, and after the last one the socket is closed.
  lemma ReturnGoesOn(es: seq<Event>)
    requires IsRun(Init, es) && Enabled(Run(Init, es), Returned)
    ensures var s := Run(Init, es);
      var t := Step(s, Returned);
      && s.pending != [] && t.phase == Idle && t.pending == s.pending[1..] && t.log == s.log
      && if t.pending == [] then t.ops == [] && !t.socketOpen
         else t.ops == [Op(Write, t.pending[0].ticket)] && t.socketOpen == s.socketOpen
  {
    RunInv(Init, es);
    assert SocketOps([]) == [];
  }

  // The socket is what the last connect made of it, until the queue has drained.
  lemma SocketIsAsConnected(es: seq<Event>, e: Event)
    requires IsRun(Init, es) && Enabled(Run(Init, es), e)
    ensures var s := Run(Init, es);
      Step(s, e).socketOpen ==
        if e.Completed? && s.ops[e.i].kind == Connect then !e.out.failed || e.out.open
        else s.socketOpen && !(e.Returned? && |s.pending| == 1)
  {
    RunInv(Init, es);
  }

  // The request object belongs to the outstanding write: it holds the front request, and no step that leaves
  // a write outstanding replaces it.
  lemma WrittenRequestIsStable(es: seq<Event>, e: Event)
    requires IsRun(Init, es) && Enabled(Run(Init, es), e)
    ensures var s := Run(Init, es);
      var t := Step(s, e);
      s.ops != [] && s.ops[0].kind == Write ==>
        && s.pending != [] && s.request == Options.Some(s.pending[0])
        && (t.ops != [] && t.ops[0].kind == Write ==> t.ops == s.ops && t.request == s.request)
  {
    RunInv(Init, es);
    var s := Run(Init, es);
    match e {
      case Submitted(r) =>
      case Completed(i, out) => OneOperation(s, i);
      case Returned =>
    }
  }

  // Two completions for each submission and two for each time the queue stops being empty, less what failures
  // make unnecessary: exactly that many when the queue is empty, never more before.
  lemma CompletionsAreBounded(es: seq<Event>)
    requires IsRun(Init, es)
    ensures var s := Run(Init, es);
      && Completions(es) <= 2 * |Requests(es)| + 2 * Batches(Init, es)
      && (s.phase == Idle && s.pending == [] ==>
            Completions(es) == 2 * |Requests(es)| + 2 * Batches(Init, es)
              - 3 * Failures(Init, es, Resolve) - 2 * Failures(Init, es, Connect) - Failures(Init, es, Write))
  {
    RunInv(Init, es);
    RunLog(Init, es);
  }

  // Completions and handler returns still possible when nothing more is submitted.
  function Measure(s: State): nat {
    2 * Remaining(s) + (if s.phase.Calling? then 1 else 0)
  }

  lemma MeasureDecreases(s: State, e: Event)
    requires Inv(s) && Enabled(s, e) && !e.Submitted?
    ensures Measure(Step(s, e)) < Measure(s)
  {
    if e.Completed? {
      OneOperation(s, e.i);
    }
  }

  // While a request is queued or a handler is running, the event loop has something to do.
  lemma CanMove(s: State) returns (e: Event)
    requires Inv(s) && (s.pending != [] || |s.log.answered| != |s.log.submitted|)
    ensures Enabled(s, e) && !e.Submitted?
  {
    e := if s.phase.Calling? then Returned else Completed(0, Outcome(true, false, 0, "", "", 0));
  }

  // A run without submissions is no longer than the measure, so it ends; where it can go no further, every
  // submitted request has been answered.
  lemma {:induction false} QueueDrains(s: State, es: seq<Event>)
    requires Inv(s) && IsRun(s, es)
    requires Requests(es) == []
    ensures |es| + Measure(Run(s, es)) <= Measure(s)
    ensures var t := Run(s, es);
      (forall e :: Enabled(t, e) ==> e.Submitted?) ==>
        t.pending == [] && |t.log.answered| == |t.log.submitted| == |s.log.submitted|
    decreases |es|
  {
    hide Inv, Step;
    if es == [] {
      if s.pending != [] || |s.log.answered| != |s.log.submitted| {
        var e := CanMove(s);
      }
    } else {
      StepInv(s, es[0]);
      StepLog(s, es[0]);
      MeasureDecreases(s, es[0]);
      QueueDrains(Step(s, es[0]), es[1..]);
    }
  }
}
