// What a two-party call controller is to tell the server, in terms of the call machine alone: legs, who called
// whom, and which legs are gone.
module CallOrders {
  import opened Options
  import opened CallMachine
  import opened CallMachineRuns
  import opened Commands

  // An order concerns legs; how a leg is named is up to the example.
  datatype Order =
    | DialFor(caller: Leg, n: nat)
    | AnswerTo(caller: Leg)
    | RingAt(caller: Leg)
    | MakeBridge
    | Connect(bridge: string, first: Leg, second: Leg)
    | HangUpLeg(leg: Leg)
    | DropBridge(bridge: string)

  // l is the called leg of a call that was made, and still there.
  predicate LiveCalled(s: State, l: Leg) {
    l.Inside? && l.n < |s.callers| && l !in s.gone
  }

  // l called, and is still there.
  predicate LiveCaller(s: State, l: Leg) {
    l in s.callers && l !in s.gone
  }

  function CallOf(callers: seq<Leg>, l: Leg): (n: nat)
    ensures n <= |callers|
    ensures n < |callers| ==> callers[n] == l
    ensures n == |callers| ==> l !in callers
  {
    if callers == [] || callers[0] == l then 0 else 1 + CallOf(callers[1..], l)
  }

  // The other leg of the call of a live leg.
  function Other(s: State, l: Leg): Leg {
    if LiveCalled(s, l) then s.callers[l.n] else Inside(CallOf(s.callers, l))
  }

  // The bridge of the call of a live leg.
  function BridgeOf(s: State, l: Leg): string {
    var k := Find(s.calls, l);
    if k < |s.calls| then s.calls[k].bridge else ""
  }

  // The order an event calls for, if any: dial for a new caller; answer the caller when the called leg enters,
  // and let it ring when the called leg does; make a bridge when the caller is up, and put both legs into it;
  // hang up the leg that is left, and drop the bridge when none is.
  function OrderFor(s: State, e: Event): Option<Order> {
    match e
    case Announce(_, _) => None
    case Enter(l, external, _) =>
      if external then Some(DialFor(l, |s.callers|))
      else if LiveCalled(s, l) then Some(AnswerTo(s.callers[l.n]))
      else None
    case Change(l, state) =>
      if state == "Ringing" && LiveCalled(s, l) then Some(RingAt(s.callers[l.n]))
      else if state == "Up" && LiveCaller(s, l) then Some(MakeBridge)
      else None
    case Destroy(l, _) =>
      if !LiveCalled(s, l) && !LiveCaller(s, l) then None
      else if Other(s, l) !in s.gone then Some(HangUpLeg(Other(s, l)))
      else if BridgeOf(s, l) != "" then Some(DropBridge(BridgeOf(s, l)))
      else None
    case Bridged(k, b) =>
      if k < |s.calls| then Some(Connect(b, s.calls[k].calling, Inside(s.calls[k].n))) else None
  }

  // ---- the commands of the examples ----

  // The high-level example names a leg by its id, dead or not, asks for a variable before it dials, and has no
  // command for a bridge that is dropped.
  function HighText(moh: bool, o: Option<Order>): seq<Command> {
    if o.None? then []
    else
      match o.value
      case DialFor(l, n) => [GetVar(HighName(l)), Dial(HighId(n))]
      case AnswerTo(l) => [Answer(HighName(l))]
      case RingAt(l) => [if moh then StartMoh(HighName(l)) else Ring(HighName(l))]
      case MakeBridge => [NewBridge]
      case Connect(b, x, y) => [AddToBridge(b, HighName(x), HighName(y))]
      case HangUpLeg(l) => [Hangup(HighName(l))]
      case DropBridge(_) => []
  }

  // The low-level example has forgotten the id of a leg that is gone.
  function LowShown(s: State, l: Leg): string {
    if l in s.gone then "" else LowName(l)
  }

  function LowText(s: State, o: Option<Order>): seq<Command> {
    if o.None? then []
    else
      match o.value
      case DialFor(_, n) => [Dial(LowId(n))]
      case AnswerTo(l) => [Answer(LowShown(s, l))]
      case RingAt(l) => [Ring(LowShown(s, l))]
      case MakeBridge => [NewBridge]
      case Connect(b, x, y) => [AddToBridge(b, LowShown(s, x), LowShown(s, y))]
      case HangUpLeg(l) => [Hangup(LowName(l))]
      case DropBridge(b) => [DeleteBridge(b)]
  }

  // All commands of a run.
  function HighSent(moh: bool, es: seq<Event>): seq<Command> {
    if es == [] then []
    else
      var front := es[..|es| - 1];
      HighSent(moh, front) + HighText(moh, OrderFor(Run(Init, front), es[|es| - 1]))
  }

  function LowSent(es: seq<Event>): seq<Command> {
    if es == [] then []
    else
      var front := es[..|es| - 1];
      LowSent(front) + LowText(Run(Init, front), OrderFor(Run(Init, front), es[|es| - 1]))
  }

  // ---- the calls of live legs ----

  // The call of a live called leg is listed, and no other listed call has this leg.
  lemma CalledIsListed(s: State, l: Leg) returns (k: nat)
    requires Logged(s) && LiveCalled(s, l)
    ensures k < |s.calls| && s.calls[k].n == l.n && CalledLive(s.calls[k]) && s.calls[k].calling == s.callers[l.n]
    ensures forall j :: 0 <= j < |s.calls| && s.calls[j].n == l.n ==> j == k
  {
    assert Told(s, l.n);
    k :| 0 <= k < |s.calls| && s.calls[k].n == l.n;
    assert CallOk(s, s.calls[k]);
  }

  lemma CallerIsListed(s: State, l: Leg) returns (k: nat)
    requires Logged(s) && LiveCaller(s, l)
    ensures k < |s.calls| && s.calls[k].n == CallOf(s.callers, l) && CallingLive(s.calls[k]) && s.calls[k].calling == l
    ensures forall j :: 0 <= j < |s.calls| && s.calls[j].calling == l ==> j == k
  {
    var n := CallOf(s.callers, l);
    assert Told(s, n);
    k :| 0 <= k < |s.calls| && s.calls[k].n == n;
    assert CallOk(s, s.calls[k]);
    OneCall(s, l, k);
  }

  // A live leg of a call is found in that call; what is found is such a leg.
  lemma FoundIsLive(s: State, l: Leg)
    requires Logged(s)
    ensures var k := Find(s.calls, l);
      && (k < |s.calls| <==> LiveCalled(s, l) || LiveCaller(s, l))
      && (k < |s.calls| ==>
            var c := s.calls[k];
            && CallOk(s, c) && Known(s, l)
            && Other(s, l) == (if l == c.calling then Inside(c.n) else c.calling)
            && (c.legs == Both <==> Other(s, l) !in s.gone)
            && BridgeOf(s, l) == c.bridge)
  {
    var k := Find(s.calls, l);
    if LiveCalled(s, l) {
      var i := CalledIsListed(s, l);
      assert Holds(s.calls[i], l);
    } else if LiveCaller(s, l) {
      var i := CallerIsListed(s, l);
      assert Holds(s.calls[i], l);
    }
    if k < |s.calls| { FoundOther(s, l, k); }
  }

  lemma FoundOther(s: State, l: Leg, k: nat)
    requires Logged(s) && k < |s.calls| && Holds(s.calls[k], l)
    ensures var c := s.calls[k];
      && CallOk(s, c) && Known(s, l) && (LiveCalled(s, l) || LiveCaller(s, l))
      && Other(s, l) == (if l == c.calling then Inside(c.n) else c.calling)
      && (c.legs == Both <==> Other(s, l) !in s.gone)
  {
    var c := s.calls[k];
    assert CallOk(s, c) && s.callers[c.n].Outside?;
    if l == c.calling {
      var i := CallerIsListed(s, l);
    }
  }
}
