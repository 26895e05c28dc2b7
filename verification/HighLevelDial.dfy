// Call and CallContainer of the high-level dial example, in the form of the source, on top of the AriModel
// objects. The ghost field `spec` is the value-level state.
module HighLevelDial {
  import opened Options
  import opened Commands
  import A = CallMachine
  import R = Registry
  import S = HighCalls
  import opened Ari

  class Call {
    const calling: Channel
    const called: Channel
    const moh: bool
    var bridge: Option<string>

    constructor (callingCh: Channel, calledCh: Channel, moh: bool)
      ensures calling == callingCh && called == calledCh && this.moh == moh && bridge == None
    {
      calling, called, this.moh, bridge := callingCh, calledCh, moh, None;
    }

    predicate HasChannel(ch: Channel, mode: Mode) {
      (calling.id == ch.id && mode != CalledMode) || (called.id == ch.id && mode != CallingMode)
    }

    method DialedChRinging(client: Client)
      modifies client
      ensures client.sent == old(client.sent) + [if moh then StartMoh(calling.id) else Ring(calling.id)]
    {
      if moh { client.Send(StartMoh(calling.id)); } else { client.Send(Ring(calling.id)); }
    }

    method ChHangup(hung: Channel, client: Client) returns (over: bool)
      modifies client
      ensures var other := if hung.id == called.id then calling else called;
        && over == other.dead
        && client.sent == old(client.sent) + if other.dead then [] else [Hangup(other.id)]
    {
      var other := if hung.id == called.id then calling else called;
      if !other.dead { client.Send(Hangup(other.id)); }
      over := other.dead;
    }
  }

  class CallContainer {
    const channels: AriModel
    const client: Client
    const moh: bool
    var calls: seq<Call>
    ghost var spec: S.State

    ghost predicate Valid()
      reads this, channels, channels.objects, client, calls
    {
      channels.Valid() && channels.spec == spec.reg && client.sent == spec.sent && Bound(spec.calls, channels.objects)
    }

    ghost function Footprint(): set<object>
      reads this`calls, channels`objects
    {
      {this, client} + channels.Footprint() + set c: object | c in calls
    }

    // The call objects show these calls, given the channel objects in order of construction.
    ghost predicate Bound(cs: seq<S.Call>, objects: seq<Channel>)
      reads this`calls, calls
    {
      && (forall i, j :: 0 <= i < j < |calls| ==> calls[i] != calls[j])
      && |calls| == |cs|
      && (forall i :: 0 <= i < |calls| ==> Shows(calls[i], cs[i], objects))
    }

    ghost predicate Shows(call: Call, c: S.Call, objects: seq<Channel>)
      reads call
    {
      && c.calling < |objects| && call.calling == objects[c.calling]
      && c.called < |objects| && call.called == objects[c.called]
      && call.bridge == c.bridge && call.moh == moh
    }

    lemma BoundGrows(cs: seq<S.Call>, objects: seq<Channel>, more: seq<Channel>)
      requires Bound(cs, objects) && objects <= more
      ensures Bound(cs, more)
    {
    }

    // The channel objects of a call carry the ids and flags the specification shows.
    lemma CallRecords(k: nat)
      requires Valid() && k < |calls|
      ensures |calls| == |spec.calls| && calls[k].moh == moh
      ensures calls[k].calling.Record() == S.ChannelAt(spec, spec.calls[k].calling)
      ensures calls[k].called.Record() == S.ChannelAt(spec, spec.calls[k].called)
    {
      assert Shows(calls[k], spec.calls[k], channels.objects);
    }

    lemma ChannelRecord(i: nat)
      requires Valid() && i < |channels.objects|
      ensures i < |spec.reg.heap| && channels.objects[i].Record() == S.ChannelAt(spec, i)
    {
    }

    constructor (m: AriModel, c: Client, moh: bool)
      requires m.Valid() && m.spec == R.Init && c.sent == []
      ensures Valid() && spec == S.Init && channels == m && client == c && this.moh == moh && calls == []
      ensures Footprint() == {this, client} + m.Footprint()
    {
      channels, client, this.moh, calls, spec := m, c, moh, [], S.Init;
    }

    method FindCallByChannel(ch: Channel, ghost i: nat, mode: Mode) returns (k: nat)
      requires Valid() && i < |channels.objects| && ch == channels.objects[i]
      ensures k == S.FindCall(spec, spec.calls, S.Id(spec, i), mode)
    {
      k := 0;
      while k < |calls|
        invariant k <= |calls|
        invariant forall j :: 0 <= j < k ==> !S.HasChannel(spec, spec.calls[j], S.Id(spec, i), mode)
      {
        CallRecords(k);
        ChannelRecord(i);
        if calls[k].HasChannel(ch, mode) { return; }
        k := k + 1;
      }
    }

    method Send(c: Command)
      requires Valid()
      modifies this`spec, client
      ensures Valid() && spec == S.Send(old(spec), c)
    {
      client.Send(c);
      spec := S.Send(spec, c);
    }

    method CreateCalled() returns (ch: Channel, ghost j: nat, ghost added: set<object>)
      requires Valid()
      modifies this`spec, channels
      ensures Valid() && spec == old(spec).(reg := R.CreateChannel(old(spec).reg))
      ensures j < |channels.objects| && ch == channels.objects[j]
      ensures var id := R.GeneratedId(old(spec).reg.nextId); id in spec.reg.dir && j == spec.reg.dir[id]
      ensures old(channels.objects) <= channels.objects
      ensures fresh(added) && Footprint() <= old(Footprint()) + added
    {
      hide R.CreateChannel, AriModel.Valid;
      ghost var objects := channels.objects;
      ghost var id := R.GeneratedId(spec.reg.nextId);
      ch, added := channels.CreateChannel();
      assert Bound(spec.calls, objects);
      BoundGrows(spec.calls, objects, channels.objects);
      Follow();
      j := spec.reg.dir[id];
    }

    method Create(callingCh: Channel, calledCh: Channel, ghost i: nat, ghost j: nat) returns (ghost added: set<object>)
      requires Valid() && i < |channels.objects| && callingCh == channels.objects[i]
      requires j < |channels.objects| && calledCh == channels.objects[j]
      modifies this
      ensures Valid() && spec == old(spec).(calls := old(spec).calls + [S.Call(i, j, None)])
      ensures fresh(added) && Footprint() <= old(Footprint()) + added
    {
      var call := new Call(callingCh, calledCh, moh);
      added := {call};
      calls := calls + [call];
      spec := spec.(calls := spec.calls + [S.Call(i, j, None)]);
    }

    // The handlers registered with AriModel; `i` is the heap index of the channel object.
    method CallingChannel(callingCh: Channel, ghost i: nat) returns (ghost added: set<object>)
      requires Valid() && i < |channels.objects| && callingCh == channels.objects[i] && R.Consistent(spec.reg, None)
      modifies this, channels, client
      ensures Valid() && spec == S.CallingChannel(old(spec), i)
      ensures fresh(added) && Footprint() <= old(Footprint()) + added
    {
      CallingSteps(spec, i);
      hide R.CreateChannel, S.CallingChannel, DialSteps, CallContainer.Valid, CallContainer.Footprint;
      ChannelRecord(i);
      Send(GetVar(callingCh.id));
      added := DialCalled(callingCh, i);
    }

    method DialCalled(callingCh: Channel, ghost i: nat) returns (ghost added: set<object>)
      requires Valid() && i < |channels.objects| && callingCh == channels.objects[i] && R.Consistent(spec.reg, None)
      modifies this, channels, client
      ensures Valid() && fresh(added) && Footprint() <= old(Footprint()) + added
      ensures spec == DialSteps(old(spec), i)
    {
      CreatedId(spec.reg);
      hide R.CreateChannel, R.Consistent, CallContainer.Valid, CallContainer.Footprint;
      var calledCh;
      calledCh, added := CreateCall(callingCh, i);
      Send(Dial(calledCh.id));
    }

    method CreateCall(callingCh: Channel, ghost i: nat) returns (calledCh: Channel, ghost added: set<object>)
      requires Valid() && i < |channels.objects| && callingCh == channels.objects[i]
      modifies this, channels
      ensures Valid() && fresh(added) && Footprint() <= old(Footprint()) + added
      ensures var s := old(spec);
        var id := R.GeneratedId(s.reg.nextId);
        var reg := R.CreateChannel(s.reg);
        && id in reg.dir && reg.dir[id] < |reg.heap| && calledCh.id == reg.heap[reg.dir[id]].id
        && spec == s.(reg := reg, calls := s.calls + [S.Call(i, reg.dir[id], None)])
    {
      hide R.CreateChannel, CallContainer.Valid, CallContainer.Footprint;
      ghost var j, channel;
      calledCh, j, channel := CreateCalled();
      ChannelRecord(j);
      added := Create(callingCh, calledCh, i, j);
      added := channel + added;
    }

    // CallingChannel after its first command.
    ghost function DialSteps(s: S.State, i: nat): S.State {
      var id := R.GeneratedId(s.reg.nextId);
      var reg := R.CreateChannel(s.reg);
      var called := if id in reg.dir then reg.dir[id] else 0;
      S.Send(s.(reg := reg, calls := s.calls + [S.Call(i, called, None)]), Dial(id))
    }

    lemma CreatedId(reg: R.State)
      requires R.Consistent(reg, None)
      ensures var id := R.GeneratedId(reg.nextId);
        var t := R.CreateChannel(reg);
        id in t.dir && t.dir[id] < |t.heap| && t.heap[t.dir[id]].id == id
    {
    }

    lemma CallingSteps(s: S.State, i: nat)
      requires R.Consistent(s.reg, None)
      ensures S.CallingChannel(s, i) == DialSteps(S.Send(s, GetVar(S.Id(s, i))), i)
    {
      CreatedId(s.reg);
    }

    method CalledChannel(calledCh: Channel, ghost i: nat)
      requires Valid() && i < |channels.objects| && calledCh == channels.objects[i]
      modifies this`spec, client
      ensures Valid() && spec == S.CalledChannel(old(spec), i)
    {
      var k := FindCallByChannel(calledCh, i, CalledMode);
      if k < |calls| {
        CallRecords(k);
        Send(Answer(calls[k].calling.id));
      }
    }

    method ChannelStateChanged(ch: Channel, ghost i: nat)
      requires Valid() && i < |channels.objects| && ch == channels.objects[i]
      modifies this`spec, client
      ensures Valid() && spec == S.StateChanged(old(spec), moh, i)
    {
      ChannelRecord(i);
      if ch.state == R.Ringing {
        var k := FindCallByChannel(ch, i, CalledMode);
        if k < |calls| { DialedChRinging(k); }
      } else if ch.state == R.Up {
        var k := FindCallByChannel(ch, i, CallingMode);
        if k < |calls| { Send(NewBridge); }
      }
    }

    method DialedChRinging(k: nat)
      requires Valid() && k < |calls|
      modifies this`spec, client
      ensures Valid() && |calls| == |spec.calls|
      ensures var id := S.Id(old(spec), old(spec).calls[k].calling);
        spec == S.Send(old(spec), if moh then StartMoh(id) else Ring(id))
    {
      CallRecords(k);
      ghost var id := calls[k].calling.id;
      calls[k].DialedChRinging(client);
      spec := S.Send(spec, if moh then StartMoh(id) else Ring(id));
    }

    method ChannelDestroyed(ch: Channel, ghost i: nat)
      requires Valid() && i < |channels.objects| && ch == channels.objects[i]
      modifies this, client
      ensures Valid() && spec == S.ChannelDestroyed(old(spec), i)
      ensures Footprint() <= old(Footprint())
    {
      ChannelRecord(i);
      var k := FindCallByChannel(ch, i, BothMode);
      if k == |calls| { return; }
      CallRecords(k);
      var over := HangUpOther(ch, i, k);
      if over { Remove(k); }
    }

    method HangUpOther(ch: Channel, ghost i: nat, k: nat) returns (over: bool)
      requires Valid() && i < |channels.objects| && ch == channels.objects[i] && k < |calls|
      modifies this`spec, client
      ensures Valid() && k < |old(spec).calls|
      ensures var s := old(spec);
        var other := if S.Id(s, i) == S.Id(s, s.calls[k].called) then s.calls[k].calling else s.calls[k].called;
        && over == S.ChannelAt(s, other).dead
        && spec == if over then s else S.Send(s, Hangup(S.Id(s, other)))
    {
      ChannelRecord(i);
      CallRecords(k);
      ghost var c := spec.calls[k];
      ghost var other := if S.Id(spec, i) == S.Id(spec, c.called) then c.calling else c.called;
      over := calls[k].ChHangup(ch, client);
      if !over { spec := S.Send(spec, Hangup(S.Id(spec, other))); }
    }

    method Remove(k: nat)
      requires Valid() && k < |calls| == |spec.calls|
      modifies this
      ensures Valid() && k < |old(spec).calls| && spec == old(spec).(calls := A.Remove(old(spec).calls, k))
      ensures Footprint() <= old(Footprint())
    {
      A.RemoveAt(calls, k);
      A.RemoveAt(spec.calls, k);
      calls := calls[..k] + calls[k + 1..];
      spec := spec.(calls := A.Remove(spec.calls, k));
    }

    method BridgeResponse(k: nat, bridge: string)
      requires Valid() && k < |calls|
      modifies this`spec, client, calls
      ensures Valid() && spec == S.Bridged(old(spec), k, bridge)
    {
      CallRecords(k);
      var a, b := calls[k].calling.id, calls[k].called.id;
      calls[k].bridge := Some(bridge);
      client.Send(AddToBridge(bridge, a, b));
      spec := S.Bridged(spec, k, bridge);
    }

    // ---- AriModel handles the event; null if it does not know the channel ----

    method ModelAnnounced(id: string, state: string) returns (ghost added: set<object>)
      requires Valid()
      modifies this`spec, channels, channels.objects
      ensures Valid() && spec == old(spec).(reg := R.Announce(old(spec).reg, id, state))
      ensures fresh(added) && Footprint() <= old(Footprint()) + added
    {
      hide R.Announce, AriModel.Valid;
      ghost var objects := channels.objects;
      var ch;
      ch, added := channels.ChannelCreated(id, state);
      assert Bound(spec.calls, objects);
      BoundGrows(spec.calls, objects, channels.objects);
      Follow();
    }

    // What handing over a known channel leaves behind.
    ghost predicate HandedOver(before: S.State, id: string, ch: Channel?, reg: R.State)
      reads this`spec, channels`objects
    {
      if id !in before.reg.dir then ch == null && spec == before
      else
        var i := before.reg.dir[id];
        i < |channels.objects| && ch == channels.objects[i] && spec == before.(reg := reg)
    }

    // The specification follows what AriModel did.
    ghost method Follow()
      requires channels.Valid() && client.sent == spec.sent && Bound(spec.calls, channels.objects)
      modifies this`spec
      ensures Valid() && spec == old(spec).(reg := channels.spec)
    {
      spec := spec.(reg := channels.spec);
    }

    method ModelEntered(id: string, info: R.Info) returns (ch: Channel?)
      requires Valid()
      modifies this`spec, channels, channels.objects
      ensures Valid() && channels.objects == old(channels.objects) && Footprint() == old(Footprint())
      ensures HandedOver(old(spec), id, ch, R.Enter(old(spec).reg, id, info))
    {
      channels.Listed(id);
      hide AriModel.Valid, AriModel.Footprint, R.Enter;
      ch := channels.StasisStart(id, info);
      Follow();
    }

    method ModelReported(id: string, state: string) returns (ch: Channel?)
      requires Valid()
      modifies this`spec, channels, channels.objects
      ensures Valid() && channels.objects == old(channels.objects) && Footprint() == old(Footprint())
      ensures HandedOver(old(spec), id, ch, R.Report(old(spec).reg, id, state))
    {
      channels.Listed(id);
      hide AriModel.Valid, AriModel.Footprint, R.Report;
      ch := channels.ChannelStateChange(id, state);
      Follow();
    }

    method ModelDying(id: string, cause: int) returns (ch: Channel?)
      requires Valid()
      modifies this`spec, channels, channels.objects
      ensures Valid() && channels.objects == old(channels.objects) && Footprint() == old(Footprint())
      ensures HandedOver(old(spec), id, ch, R.Die(old(spec).reg, id, cause))
    {
      channels.Listed(id);
      hide AriModel.Valid, AriModel.Footprint, R.Die;
      ch := channels.ChannelDying(id, cause);
      Follow();
    }

    method ModelGone(id: string)
      requires Valid()
      modifies this`spec, channels
      ensures Valid() && spec == old(spec).(reg := R.Erase(old(spec).reg, id))
      ensures Footprint() == old(Footprint())
    {
      channels.ChannelGone(id);
      Follow();
    }

    // An event of the server, addressed to the channel with the id of the given leg: AriModel handles it, and
    // calls the handler for that event if it knows the channel.
    method Dispatch(e: A.Event) returns (ghost added: set<object>)
      requires Valid() && R.Inv(spec.reg) && (e.Bridged? ==> e.k < |calls|)
      modifies Footprint()
      ensures Valid() && spec == S.Step(old(spec), moh, e) && R.Inv(spec.reg)
      ensures fresh(added) && Footprint() <= old(Footprint()) + added
    {
      S.StepKeepsRegistry(spec, moh, e);
      hide R.Inv, CallContainer.Valid;
      added := {};
      match e {
        case Announce(l, state) => added := ModelAnnounced(A.HighName(l), state);
        case Enter(l, external, info) => added := Entered(l, external, info);
        case Change(l, state) => Changed(l, state);
        case Destroy(l, cause) => Destroyed(l, cause);
        case Bridged(k, bridge) => BridgeResponse(k, bridge);
      }
    }

    method Entered(l: A.Leg, external: bool, info: R.Info) returns (ghost added: set<object>)
      requires Valid() && R.Inv(spec.reg)
      modifies this, channels, channels.objects, client
      ensures Valid() && spec == S.Step(old(spec), moh, A.Enter(l, external, info))
      ensures fresh(added) && Footprint() <= old(Footprint()) + added
    {
      ghost var before := spec;
      var id := A.HighName(l);
      if id in spec.reg.dir { R.EnterInv(spec.reg, id, info); }
      hide S.CallingChannel, S.CalledChannel, R.Enter, CallContainer.Valid, CallContainer.Footprint;
      var ch := ModelEntered(id, info);
      added := {};
      if ch == null { return; }
      added := StasisStarted(ch, before.reg.dir[id], external);
    }

    // The handler registered with OnStasisStarted.
    method StasisStarted(ch: Channel, ghost i: nat, external: bool) returns (ghost added: set<object>)
      requires Valid() && i < |channels.objects| && ch == channels.objects[i] && R.Consistent(spec.reg, None)
      modifies this, channels, client
      ensures Valid() && fresh(added) && Footprint() <= old(Footprint()) + added
      ensures spec == if external then S.CallingChannel(old(spec), i) else S.CalledChannel(old(spec), i)
    {
      hide S.CallingChannel, S.CalledChannel, CallContainer.Valid, CallContainer.Footprint;
      added := {};
      if external { added := CallingChannel(ch, i); } else { CalledChannel(ch, i); }
    }

    method Changed(l: A.Leg, state: string)
      requires Valid()
      modifies this`spec, channels, channels.objects, client
      ensures Valid() && spec == S.Step(old(spec), moh, A.Change(l, state))
      ensures Footprint() <= old(Footprint())
    {
      ghost var before := spec;
      var id := A.HighName(l);
      hide R.Report, S.StateChanged, CallContainer.Valid, CallContainer.Footprint;
      var ch := ModelReported(id, state);
      if ch == null { return; }
      ChannelStateChanged(ch, before.reg.dir[id]);
    }

    method Destroyed(l: A.Leg, cause: int)
      requires Valid()
      modifies this, channels, channels.objects, client
      ensures Valid() && spec == S.Step(old(spec), moh, A.Destroy(l, cause))
      ensures Footprint() <= old(Footprint())
    {
      ghost var before := spec;
      var id := A.HighName(l);
      hide S.ChannelDestroyed, R.Die, R.Erase, CallContainer.Valid, CallContainer.Footprint;
      var ch := ModelDying(id, cause);
      if ch == null { return; }
      FinishDeath(ch, before.reg.dir[id], id);
    }

    method FinishDeath(ch: Channel, ghost i: nat, id: string)
      requires Valid() && i < |channels.objects| && ch == channels.objects[i]
      modifies this, channels, client
      ensures Valid() && Footprint() <= old(Footprint())
      ensures var t := S.ChannelDestroyed(old(spec), i); spec == t.(reg := R.Erase(t.reg, id))
    {
      hide S.ChannelDestroyed, R.Erase, CallContainer.Valid, CallContainer.Footprint;
      ChannelDestroyed(ch, i);
      ModelGone(id);
    }
  }

  // A container that is given these events, on a new AriModel.
  method Serve(moh: bool, es: seq<A.Event>) returns (c: CallContainer)
    requires A.IsRun(A.Init, es)
    ensures fresh(c) && c.Valid() && c.moh == moh && c.spec == S.Run(S.Init, moh, es)
  {
    var m := new AriModel();
    var client := new Client();
    c := new CallContainer(m, client, moh);
    Start(moh, es);
    hide R.Inv, CallContainer.Valid, CallContainer.Footprint, S.Run, S.Step, A.IsRun;
    for k := 0 to |es|
      invariant fresh(c) && fresh(c.Footprint())
      invariant c.Valid() && c.moh == moh && R.Inv(c.spec.reg)
      invariant c.spec == S.Run(S.Init, moh, es[..k])
    {
      NextStep(c, moh, es, k);
      var added := c.Dispatch(es[k]);
    }
    assert es[..|es|] == es;
  }

  lemma Start(moh: bool, es: seq<A.Event>)
    ensures R.Inv(S.Init.reg) && S.Run(S.Init, moh, es[..0]) == S.Init
  {
  }

  lemma NextStep(c: CallContainer, moh: bool, es: seq<A.Event>, k: nat)
    requires c.Valid() && A.IsRun(A.Init, es) && k < |es| && c.spec == S.Run(S.Init, moh, es[..k])
    ensures es[k].Bridged? ==> es[k].k < |c.calls|
    ensures S.Run(S.Init, moh, es[..k + 1]) == S.Step(c.spec, moh, es[k])
  {
    A.PrefixIsRun(es, k);
    S.RunRefines(moh, es[..k]);
    assert es[..k + 1][..k] == es[..k];
  }
}
