// Call and CallContainer of the low-level dial example, in the form of the source. The ghost field `spec` is
// the value-level state.
module LowLevelDial {
  import opened Commands
  import A = CallMachine
  import R = Registry
  import S = LowCalls

  class Call {
    const client: Client
    var dialing: string
    var dialed: string
    var bridge: string

    ghost function Abs(): S.Call
      reads this
    {
      S.Call(dialing, dialed, bridge)
    }

    constructor (c: Client, dialingCh: string, dialedCh: string)
      ensures client == c && Abs() == S.Call(dialingCh, dialedCh, "")
    {
      client, dialing, dialed, bridge := c, dialingCh, dialedCh, "";
    }

    predicate HasChannel(ch: string, mode: Mode)
      reads this
    {
      (dialing == ch && mode != CalledMode) || (dialed == ch && mode != CallingMode)
    }

    // `hungIsDialing` and `otherIsDialing` say which field the pointers `hung` and `other` point at.
    method ChHangup(id: string) returns (over: bool)
      modifies this, client
      ensures Abs() == S.Cleared(old(Abs()), id)
      ensures client.sent == old(client.sent) + S.Farewell(Abs(), old(Abs()), id)
      ensures over == (S.Other(Abs(), old(Abs()), id) == "")
    {
      var hungIsDialing := id == dialing;
      var otherIsDialing := id == dialed;
      if hungIsDialing { dialing := ""; } else { dialed := ""; }
      var other := if otherIsDialing then dialing else dialed;
      if other == "" && bridge != "" {
        client.Send(DeleteBridge(bridge));
      } else if other != "" {
        client.Send(Hangup(other));
      }
      over := other == "";
    }

    method Bridge(bridgeId: string)
      modifies this, client
      ensures Abs() == old(Abs()).(bridge := bridgeId)
      ensures client.sent == old(client.sent) + [AddToBridge(bridgeId, dialing, dialed)]
    {
      bridge := bridgeId;
      client.Send(AddToBridge(bridge, dialing, dialed));
    }
  }

  class CallContainer {
    const connection: Client
    var calls: seq<Call>
    var nextId: nat
    ghost var spec: S.State

    ghost predicate Valid()
      reads this, connection, calls
    {
      && (forall i, j :: 0 <= i < j < |calls| ==> calls[i] != calls[j])
      && |calls| == |spec.calls|
      && (forall i :: 0 <= i < |calls| ==> calls[i].client == connection && calls[i].Abs() == spec.calls[i])
      && nextId == spec.nextId
      && connection.sent == spec.sent
    }

    ghost function Footprint(): set<object>
      reads this`calls
    {
      {this, connection} + set c: object | c in calls
    }

    constructor (c: Client)
      requires c.sent == []
      ensures Valid() && connection == c && spec == S.Init && Footprint() == {this, c}
    {
      connection, calls, nextId, spec := c, [], 0, S.Init;
    }

    method FindCallByChannel(ch: string, mode: Mode) returns (k: nat)
      requires Valid()
      ensures k == S.FindCall(spec.calls, ch, mode)
    {
      k := 0;
      while k < |calls|
        invariant k <= |calls|
        invariant forall j :: 0 <= j < k ==> !S.HasChannel(spec.calls[j], ch, mode)
      {
        assert calls[k].Abs() == spec.calls[k];
        if calls[k].HasChannel(ch, mode) { return; }
        k := k + 1;
      }
    }

    method DialingChannel(callingId: string) returns (ghost added: set<object>)
      requires Valid()
      modifies this, connection
      ensures Valid() && spec == S.DialingChannel(old(spec), callingId)
      ensures fresh(added) && Footprint() <= old(Footprint()) + added
    {
      var dialedId := A.LowId(nextId);
      nextId := (nextId + 1) % R.ID_RANGE;
      var call := new Call(connection, callingId, dialedId);
      calls := calls + [call];
      added := {call};
      connection.Send(Dial(dialedId));
      spec := S.DialingChannel(spec, callingId);
    }

    method DialedChannel(id: string)
      requires Valid()
      modifies this, connection
      ensures Valid() && spec == S.DialedChannel(old(spec), id) && Footprint() <= old(Footprint())
    {
      var k := FindCallByChannel(id, CalledMode);
      spec := S.DialedChannel(spec, id);
      if k < |calls| { connection.Send(Answer(calls[k].dialing)); }
    }

    method ChannelStateChange(id: string, state: string)
      requires Valid()
      modifies this, connection
      ensures Valid() && spec == S.StateChanged(old(spec), id, state) && Footprint() <= old(Footprint())
    {
      ghost var before := spec;
      if state == "Ringing" {
        var k := FindCallByChannel(id, CalledMode);
        if k < |calls| { connection.Send(Ring(calls[k].dialing)); }
      } else if state == "Up" {
        var k := FindCallByChannel(id, CallingMode);
        if k < |calls| { connection.Send(NewBridge); }
      }
      spec := S.StateChanged(before, id, state);
    }

    method ChannelDestroyed(id: string)
      requires Valid()
      modifies this, connection, calls
      ensures Valid() && spec == S.ChannelDestroyed(old(spec), id) && Footprint() <= old(Footprint())
    {
      var k := FindCallByChannel(id, BothMode);
      if k == |calls| { return; }
      var over := calls[k].ChHangup(id);
      spec := S.ChannelDestroyed(spec, id);
      if over {
        A.RemoveAt(calls, k);
        A.RemoveAt(old(spec).calls, k);
        calls := calls[..k] + calls[k + 1..];
      }
    }

    method BridgeResponse(k: nat, bridge: string)
      requires Valid() && k < |calls|
      modifies this, connection, calls
      ensures Valid() && spec == S.Bridged(old(spec), k, bridge) && Footprint() <= old(Footprint())
    {
      calls[k].Bridge(bridge);
      spec := S.Bridged(spec, k, bridge);
    }

    // An event of the server, addressed to the channel with the id of the given leg.
    method Dispatch(e: A.Event) returns (ghost added: set<object>)
      requires Valid() && (e.Bridged? ==> e.k < |calls|)
      modifies Footprint()
      ensures Valid() && spec == S.Step(old(spec), e)
      ensures fresh(added) && Footprint() <= old(Footprint()) + added
    {
      added := {};
      match e {
        case Announce(_, _) =>
        case Enter(l, external, _) =>
          if external { added := DialingChannel(A.LowName(l)); } else { DialedChannel(A.LowName(l)); }
        case Change(l, state) => ChannelStateChange(A.LowName(l), state);
        case Destroy(l, _) => ChannelDestroyed(A.LowName(l));
        case Bridged(k, bridge) => BridgeResponse(k, bridge);
      }
    }
  }

  // A container that is given these events.
  method Serve(es: seq<A.Event>) returns (c: CallContainer)
    requires A.IsRun(A.Init, es)
    ensures fresh(c) && c.Valid() && c.spec == S.Run(S.Init, es)
  {
    var client := new Client();
    c := new CallContainer(client);
    for k := 0 to |es|
      invariant fresh(c) && fresh(c.Footprint()) && c.Valid()
      invariant c.spec == S.Run(S.Init, es[..k])
    {
      A.PrefixIsRun(es, k);
      S.RunRefines(es[..k]);
      assert es[..k + 1][..k] == es[..k];
      var added := c.Dispatch(es[k]);
    }
    assert es[..|es|] == es;
  }
}
