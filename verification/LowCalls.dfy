// The low-level dial example on values: CallContainer on raw events; a destroyed leg's id is cleared.
module LowCalls {
  import opened Commands
  import R = Registry
  import A = CallMachine

  datatype Call = Call(dialing: string, dialed: string, bridge: string)

  datatype State = State(calls: seq<Call>, nextId: nat, sent: seq<Command>)

  const Init := State([], 0, [])

  predicate HasChannel(c: Call, id: string, mode: Mode) {
    (c.dialing == id && mode != CalledMode) || (c.dialed == id && mode != CallingMode)
  }

  // The first call with this channel, or the number of calls.
  function FindCall(calls: seq<Call>, id: string, mode: Mode): (k: nat)
    ensures k <= |calls|
    ensures k < |calls| ==> HasChannel(calls[k], id, mode)
    ensures forall j :: 0 <= j < k ==> !HasChannel(calls[j], id, mode)
  {
    if calls == [] || HasChannel(calls[0], id, mode) then 0 else 1 + FindCall(calls[1..], id, mode)
  }

  function Send(s: State, c: Command): State {
    s.(sent := s.sent + [c])
  }

  function DialingChannel(s: State, id: string): State {
    var dialed := A.LowId(s.nextId);
    Send(State(s.calls + [Call(id, dialed, "")], (s.nextId + 1) % R.ID_RANGE, s.sent), Dial(dialed))
  }

  function DialedChannel(s: State, id: string): State {
    var k := FindCall(s.calls, id, CalledMode);
    if k < |s.calls| then Send(s, Answer(s.calls[k].dialing)) else s
  }

  function StateChanged(s: State, id: string, state: string): State {
    if state == "Ringing" then
      var k := FindCall(s.calls, id, CalledMode);
      if k < |s.calls| then Send(s, Ring(s.calls[k].dialing)) else s
    else if state == "Up" && FindCall(s.calls, id, CallingMode) < |s.calls| then Send(s, NewBridge)
    else s
  }

  // `hung` points at the field that is cleared, `other` at the one that is looked at afterwards.
  function Cleared(c: Call, id: string): Call {
    if id == c.dialing then c.(dialing := "") else c.(dialed := "")
  }

  function Other(c: Call, before: Call, id: string): string {
    if id == before.dialed then c.dialing else c.dialed
  }

  // What ChHangup sends.
  function Farewell(c: Call, before: Call, id: string): seq<Command> {
    var other := Other(c, before, id);
    if other == "" && c.bridge != "" then [DeleteBridge(c.bridge)]
    else if other != "" then [Hangup(other)]
    else []
  }

  function ChannelDestroyed(s: State, id: string): State {
    var k := FindCall(s.calls, id, BothMode);
    if k == |s.calls| then s
    else
      var c := Cleared(s.calls[k], id);
      var t := s.(sent := s.sent + Farewell(c, s.calls[k], id));
      if Other(c, s.calls[k], id) == "" then t.(calls := A.Remove(s.calls, k)) else t.(calls := s.calls[k := c])
  }

  function Bridged(s: State, k: nat, bridge: string): State {
    if k >= |s.calls| then s
    else Send(s.(calls := s.calls[k := s.calls[k].(bridge := bridge)]),
              AddToBridge(bridge, s.calls[k].dialing, s.calls[k].dialed))
  }

  function Step(s: State, e: A.Event): State {
    match e
    case Announce(_, _) => s
    case Enter(l, external, _) => if external then DialingChannel(s, A.LowName(l)) else DialedChannel(s, A.LowName(l))
    case Change(l, state) => StateChanged(s, A.LowName(l), state)
    case Destroy(l, _) => ChannelDestroyed(s, A.LowName(l))
    case Bridged(k, bridge) => Bridged(s, k, bridge)
  }

  function Run(s: State, es: seq<A.Event>): State {
    if es == [] then s else Step(Run(s, es[..|es| - 1]), es[|es| - 1])
  }

  // ---- refinement of the call machine ----

  // A dead leg is shown by an empty id.
  function Shown(l: A.Leg, live: bool): string {
    if live then A.LowName(l) else ""
  }

  function View(a: A.Call): Call {
    Call(Shown(a.calling, A.CallingLive(a)), Shown(A.Inside(a.n), A.CalledLive(a)), a.bridge)
  }

  function Views(calls: seq<A.Call>): seq<Call> {
    seq(|calls|, i requires 0 <= i < |calls| => View(calls[i]))
  }

  function Names(hangups: seq<(nat, A.Leg)>): seq<string> {
    seq(|hangups|, i requires 0 <= i < |hangups| => A.LowName(hangups[i].1))
  }

  // The bridges stored in ended calls.
  function Bridges(ended: seq<(nat, string)>): seq<string> {
    if ended == [] then []
    else Bridges(ended[..|ended| - 1]) + (if ended[|ended| - 1].1 != "" then [ended[|ended| - 1].1] else [])
  }

  ghost predicate Refines(s: State, a: A.State) {
    && A.Inv(a)
    && s.nextId == |a.callers|
    && s.calls == Views(a.calls)
    && Hangups(s.sent) == Names(a.hangups)
    && BridgeDeletions(s.sent) == Bridges(a.ended)
  }

  lemma NamesAppend(hangups: seq<(nat, A.Leg)>, x: (nat, A.Leg))
    ensures Names(hangups + [x]) == Names(hangups) + [A.LowName(x.1)]
  {
  }

  lemma BridgesAppend(ended: seq<(nat, string)>, x: (nat, string))
    ensures Bridges(ended + [x]) == Bridges(ended) + (if x.1 != "" then [x.1] else [])
  {
    assert (ended + [x])[..|ended|] == ended;
  }

  lemma OneName(l: A.Leg, m: A.Leg)
    requires A.Nameable(l) && A.Nameable(m)
    ensures A.LowName(l) != ""
    ensures A.LowName(l) == A.LowName(m) ==> l == m
  {
    if l != m { A.NamesDiffer(l, m); }
    A.NamesDiffer(l, if l == A.Inside(0) then A.Inside(1) else A.Inside(0));
  }

  lemma HasIffHolds(a: A.State, l: A.Leg, i: nat)
    requires A.Inv(a) && A.Nameable(l) && i < |a.calls|
    ensures HasChannel(View(a.calls[i]), A.LowName(l), BothMode) <==> A.Holds(a.calls[i], l)
  {
    var c := a.calls[i];
    assert A.CallOk(a, c);
    OneName(l, c.calling);
    OneName(l, A.Inside(c.n));
  }

  lemma FindsSameCall(a: A.State, l: A.Leg)
    requires A.Inv(a) && A.Nameable(l)
    ensures FindCall(Views(a.calls), A.LowName(l), BothMode) == A.Find(a.calls, l)
  {
    var vs := Views(a.calls);
    var k, m := FindCall(vs, A.LowName(l), BothMode), A.Find(a.calls, l);
    assert |vs| == |a.calls|;
    if k < |a.calls| { HasIffHolds(a, l, k); assert vs[k] == View(a.calls[k]); }
    if m < |a.calls| { HasIffHolds(a, l, m); assert vs[m] == View(a.calls[m]); }
  }

  // A live leg of a listed call is one the server has announced and not destroyed.
  lemma HeldIsKnown(a: A.State, l: A.Leg)
    requires A.Inv(a) && A.Find(a.calls, l) < |a.calls|
    ensures A.Known(a, l)
  {
    assert A.CallOk(a, a.calls[A.Find(a.calls, l)]);
  }

  // ChHangup on the found call: it clears the id of l, and says the call is over if the other id is empty already.
  lemma HangupView(a: A.State, l: A.Leg, k: nat)
    requires A.Inv(a) && A.Nameable(l) && k < |a.calls| && A.Holds(a.calls[k], l)
    ensures var c := a.calls[k];
      var v := View(c);
      var d := Cleared(v, A.LowName(l));
      var other := if l == c.calling then A.Inside(c.n) else c.calling;
      && Other(d, v, A.LowName(l)) == (if c.legs == A.Both then A.LowName(other) else "")
      && A.LowName(other) != "" && d.bridge == c.bridge
      && (c.legs == A.Both ==> d == View(c.(legs := if l == c.calling then A.CalledOnly else A.CallingOnly)))
  {
  }

  // Commands other than Hangup and DeleteBridge do not matter.
  lemma SendRefines(s: State, a: A.State, c: Command)
    requires Refines(s, a) && !c.Hangup? && !c.DeleteBridge?
    ensures Refines(Send(s, c), a)
  {
    SendOne(s.sent, c);
  }

  lemma EnterRefines(s: State, a: A.State, l: A.Leg, external: bool, info: R.Info)
    requires Refines(s, a) && A.Allowed(a, A.Enter(l, external, info))
    ensures Refines(Step(s, A.Enter(l, external, info)), A.Step(a, A.Enter(l, external, info)))
  {
    if external {
      CreatedRefines(s, a, l, info);
      SendRefines(State(s.calls + [Call(A.LowName(l), A.LowId(s.nextId), "")], (s.nextId + 1) % R.ID_RANGE, s.sent),
                  A.Step(a, A.Enter(l, true, info)), Dial(A.LowId(s.nextId)));
    } else {
      var k := FindCall(s.calls, A.LowName(l), CalledMode);
      if k < |s.calls| { SendRefines(s, a, Answer(s.calls[k].dialing)); }
    }
  }

  lemma CreatedRefines(s: State, a: A.State, l: A.Leg, info: R.Info)
    requires Refines(s, a) && A.Allowed(a, A.Enter(l, true, info))
    ensures Refines(State(s.calls + [Call(A.LowName(l), A.LowId(s.nextId), "")], (s.nextId + 1) % R.ID_RANGE, s.sent),
                    A.Step(a, A.Enter(l, true, info)))
  {
    A.StepInv(a, A.Enter(l, true, info));
    var c := A.Call(|a.callers|, l, A.Both, "");
    AppendView(a.calls, c);
    assert View(c) == Call(A.LowName(l), A.LowId(s.nextId), "");
  }

  lemma AppendView(calls: seq<A.Call>, c: A.Call)
    ensures Views(calls + [c]) == Views(calls) + [View(c)]
  {
  }

  lemma ChangeRefines(s: State, a: A.State, l: A.Leg, state: string)
    requires Refines(s, a)
    ensures Refines(Step(s, A.Change(l, state)), a)
  {
  }

  lemma BridgedRefines(s: State, a: A.State, k: nat, bridge: string)
    requires Refines(s, a) && A.Allowed(a, A.Bridged(k, bridge))
    ensures Refines(Step(s, A.Bridged(k, bridge)), A.Step(a, A.Bridged(k, bridge)))
  {
    StoredRefines(s, a, k, bridge);
    SendRefines(s.(calls := s.calls[k := s.calls[k].(bridge := bridge)]), A.Step(a, A.Bridged(k, bridge)),
                AddToBridge(bridge, s.calls[k].dialing, s.calls[k].dialed));
  }

  lemma StoredRefines(s: State, a: A.State, k: nat, bridge: string)
    requires Refines(s, a) && k < |s.calls|
    ensures Refines(s.(calls := s.calls[k := s.calls[k].(bridge := bridge)]), A.Step(a, A.Bridged(k, bridge)))
  {
    A.StepInv(a, A.Bridged(k, bridge));
    assert s.calls[k := s.calls[k].(bridge := bridge)] == Views(A.Step(a, A.Bridged(k, bridge)).calls);
  }

  lemma LowEndsCall(s: State, a: A.State, l: A.Leg, k: nat)
    requires Refines(s, a) && A.Nameable(l) && k == A.Find(a.calls, l) < |a.calls|
    requires a.calls[k].legs != A.Both
    ensures k < |s.calls| && ChannelDestroyed(s, A.LowName(l))
      == s.(calls := A.Remove(s.calls, k),
            sent := s.sent + if a.calls[k].bridge != "" then [DeleteBridge(a.calls[k].bridge)] else [])
  {
    FindsSameCall(a, l);
    HangupView(a, l, k);
  }

  lemma DeathEndsCall(s: State, a: A.State, l: A.Leg, cause: int, k: nat)
    requires Refines(s, a) && A.Nameable(l) && A.Known(a, l) && k == A.Find(a.calls, l) < |a.calls|
    requires a.calls[k].legs != A.Both
    ensures var t, b := ChannelDestroyed(s, A.LowName(l)), A.Step(a, A.Destroy(l, cause));
      && t.calls == Views(b.calls) && t.nextId == s.nextId
      && Hangups(t.sent) == Names(b.hangups) && BridgeDeletions(t.sent) == Bridges(b.ended)
  {
    var c := a.calls[k];
    LowEndsCall(s, a, l, k);
    RemoveView(a.calls, k);
    BridgesAppend(a.ended, (c.n, c.bridge));
    SendOne(s.sent, DeleteBridge(c.bridge));
    assert s.sent + [] == s.sent;
  }

  lemma RemoveView(calls: seq<A.Call>, k: nat)
    requires k < |calls|
    ensures A.Remove(Views(calls), k) == Views(A.Remove(calls, k))
  {
  }

  lemma DeathHangsUp(s: State, a: A.State, l: A.Leg, cause: int, k: nat)
    requires Refines(s, a) && A.Nameable(l) && A.Known(a, l) && k == A.Find(a.calls, l) < |a.calls|
    requires a.calls[k].legs == A.Both
    ensures var t, b := ChannelDestroyed(s, A.LowName(l)), A.Step(a, A.Destroy(l, cause));
      && t.calls == Views(b.calls) && t.nextId == s.nextId
      && Hangups(t.sent) == Names(b.hangups) && BridgeDeletions(t.sent) == Bridges(b.ended)
  {
    FindsSameCall(a, l);
    HangupView(a, l, k);
    A.DestroyHangsUp(a, l, cause, k);
    var c := a.calls[k];
    var d := c.(legs := if l == c.calling then A.CalledOnly else A.CallingOnly);
    var other := if l == c.calling then A.Inside(c.n) else c.calling;
    assert Views(a.calls)[k := View(d)] == Views(a.calls[k := d]);
    NamesAppend(a.hangups, (c.n, other));
    SendOne(s.sent, Hangup(A.LowName(other)));
  }

  lemma DestroyRefines(s: State, a: A.State, l: A.Leg, cause: int)
    requires Refines(s, a) && A.Allowed(a, A.Destroy(l, cause))
    ensures Refines(Step(s, A.Destroy(l, cause)), A.Step(a, A.Destroy(l, cause)))
  {
    A.StepInv(a, A.Destroy(l, cause));
    var k := A.Find(a.calls, l);
    FindsSameCall(a, l);
    if k < |a.calls| {
      HeldIsKnown(a, l);
      A.DestroyedIsUnknown(a, l, cause, l);
      if a.calls[k].legs == A.Both { DeathHangsUp(s, a, l, cause, k); } else { DeathEndsCall(s, a, l, cause, k); }
    }
  }

  lemma {:induction false} RunRefines(es: seq<A.Event>)
    requires A.IsRun(A.Init, es)
    ensures Refines(Run(Init, es), A.Run(A.Init, es))
    decreases |es|
  {
    if es != [] {
      var front := es[..|es| - 1];
      RunRefines(front);
      var s, a := Run(Init, front), A.Run(A.Init, front);
      match es[|es| - 1] {
        case Announce(l, state) => A.StepInv(a, A.Announce(l, state));
        case Enter(l, external, info) => EnterRefines(s, a, l, external, info);
        case Change(l, state) => ChangeRefines(s, a, l, state);
        case Destroy(l, cause) => DestroyRefines(s, a, l, cause);
        case Bridged(k, bridge) => BridgedRefines(s, a, k, bridge);
      }
    }
  }
}
