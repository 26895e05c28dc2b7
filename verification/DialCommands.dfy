// The commands of the two dial examples side by side.
module DialCommands {
  import opened Options
  import opened Commands
  import opened DialExamples
  import R = Registry
  import A = CallMachine
  import L = CallMachineRuns
  import O = CallOrders
  import High = HighCalls
  import Low = LowCalls
  import HighOrders
  import LowOrders

  // An id of the high-level example as the low-level one knows it: forgotten once the channel is gone.
  ghost function Shown(h: High.State, id: string): string {
    if id in h.reg.dir then Rename(id) else ""
  }

  // What the low-level example sends where the high-level one, in state h, sends c. It asks for no variable,
  // and knows no music on hold.
  ghost function AsLowCommand(h: High.State, c: Command): seq<Command> {
    match c
    case GetVar(_) => []
    case Dial(id) => [Dial(Rename(id))]
    case Answer(id) => [Answer(Shown(h, id))]
    case Ring(id) => [Ring(Shown(h, id))]
    case StartMoh(id) => [Ring(Shown(h, id))]
    case NewBridge => [NewBridge]
    case AddToBridge(b, x, y) => [AddToBridge(b, Shown(h, x), Shown(h, y))]
    case Hangup(id) => [Hangup(Rename(id))]
    case DeleteBridge(_) => []
  }

  ghost function AsLowCommands(h: High.State, cs: seq<Command>): seq<Command> {
    if cs == [] then [] else AsLowCommands(h, cs[..|cs| - 1]) + AsLowCommand(h, cs[|cs| - 1])
  }

  lemma AsLowOne(h: High.State, c: Command)
    ensures AsLowCommands(h, [c]) == AsLowCommand(h, c)
  {
    assert [c][..0] == [];
  }

  lemma AsLowTwo(h: High.State, c: Command, d: Command)
    ensures AsLowCommands(h, [c, d]) == AsLowCommand(h, c) + AsLowCommand(h, d)
  {
    assert [c, d][..1] == [c];
    AsLowOne(h, c);
  }

  // A leg that takes part in a call is shown the same way.
  lemma ShownLeg(h: High.State, a: A.State, l: A.Leg)
    requires High.Refines(h, a) && (l in a.callers || (l.Inside? && l.n < |a.callers|))
    ensures A.Nameable(l) && Shown(h, A.HighName(l)) == O.LowShown(a, l)
    ensures Rename(A.HighName(l)) == A.LowName(l)
  {
    RenameName(l);
  }

  // The legs an order is about take part in a call.
  ghost predicate Involved(a: A.State, o: O.Order) {
    match o
    case DialFor(_, n) => true
    case AnswerTo(l) => l in a.callers
    case RingAt(l) => l in a.callers
    case MakeBridge => true
    case Connect(_, x, y) => x in a.callers && y.Inside? && y.n < |a.callers|
    case HangUpLeg(l) => l in a.callers || (l.Inside? && l.n < |a.callers|)
    case DropBridge(_) => true
  }

  lemma OrdersInvolve(a: A.State, e: A.Event)
    requires L.Logged(a) && A.Allowed(a, e) && O.OrderFor(a, e).Some?
    ensures Involved(a, O.OrderFor(a, e).value)
  {
    match e {
      case Bridged(k, _) => assert A.CallOk(a, a.calls[k]);
      case Destroy(l, _) =>
      case _ =>
    }
  }

  lemma SameOrder(moh: bool, h: High.State, a: A.State, o: O.Order)
    requires High.Refines(h, a) && Involved(a, o)
    ensures AsLowCommands(h, O.HighText(moh, Some(o))) == if o.DropBridge? then [] else O.LowText(a, Some(o))
  {
    match o {
      case DialFor(l, n) =>
        AsLowTwo(h, GetVar(A.HighName(l)), Dial(A.HighId(n)));
        RenameName(A.Inside(n));
      case AnswerTo(l) => ShownLeg(h, a, l); AsLowOne(h, Answer(A.HighName(l)));
      case RingAt(l) =>
        ShownLeg(h, a, l);
        AsLowOne(h, if moh then StartMoh(A.HighName(l)) else Ring(A.HighName(l)));
      case MakeBridge => AsLowOne(h, NewBridge);
      case Connect(b, x, y) =>
        ShownLeg(h, a, x);
        ShownLeg(h, a, y);
        AsLowOne(h, AddToBridge(b, A.HighName(x), A.HighName(y)));
      case HangUpLeg(l) => ShownLeg(h, a, l); AsLowOne(h, Hangup(A.HighName(l)));
      case DropBridge(_) =>
    }
  }

  // After any run, on any event: what the low-level example sends is what the high-level one sends, as the
  // low-level one knows the channels, except that it asks for no variable and drops the bridge of a call that
  // is over.
  lemma SameCommands(moh: bool, es: seq<A.Event>, e: A.Event)
    requires A.IsRun(A.Init, es) && A.Allowed(A.Run(A.Init, es), e)
    ensures var h, l, a := High.Run(High.Init, moh, es), Low.Run(Low.Init, es), A.Run(A.Init, es);
      var h', l', o := High.Step(h, moh, e), Low.Step(l, e), O.OrderFor(a, e);
      && h.sent <= h'.sent && l.sent <= l'.sent
      && l'.sent[|l.sent|..] ==
           if o.Some? && o.value.DropBridge? then [DeleteBridge(o.value.bridge)]
           else AsLowCommands(h, h'.sent[|h.sent|..])
  {
    var h, l, a := High.Run(High.Init, moh, es), Low.Run(Low.Init, es), A.Run(A.Init, es);
    High.RunRefines(moh, es);
    Low.RunRefines(es);
    L.RunLogged(es);
    HighOrders.StepSends(h, moh, a, e);
    LowOrders.StepSends(l, a, e);
    var o := O.OrderFor(a, e);
    if o.Some? {
      OrdersInvolve(a, e);
      SameOrder(moh, h, a, o.value);
    }
  }

  // A first caller, told command by command.
  lemma FirstCaller(moh: bool, info: R.Info)
    ensures var es := [A.Announce(A.Outside("x"), "Ring"), A.Enter(A.Outside("x"), true, info)];
      && O.HighSent(moh, es) == [GetVar("x"), Dial("aricpp-c0")]
      && O.LowSent(es) == [Dial("aricpp-0")]
  {
    var es := [A.Announce(A.Outside("x"), "Ring"), A.Enter(A.Outside("x"), true, info)];
    var e1 := [es[0]];
    assert es[..1] == e1 && e1[..0] == [];
    assert A.Run(A.Init, e1) == A.Step(A.Init, es[0]);
    assert O.HighSent(moh, e1) == [] && O.LowSent(e1) == [];
    assert A.HighId(0) == "aricpp-c0" && A.LowId(0) == "aricpp-0";
  }
}
