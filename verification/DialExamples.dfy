// The two dial examples side by side, on the same run of the server.
module DialExamples {
  import opened Commands
  import A = CallMachine
  import L = CallMachineRuns
  import High = HighCalls
  import Low = LowCalls
  import O = CallOrders
  import HighOrders
  import LowOrders
  import HighLevelDial
  import LowLevelDial

  // The id the low-level example uses for the channel the high-level one knows by this id.
  ghost function Rename(id: string): string {
    if exists n: nat :: id == A.HighId(n) then
      var n: nat :| id == A.HighId(n);
      A.LowId(n)
    else id
  }

  lemma RenameName(l: A.Leg)
    requires A.Nameable(l)
    ensures Rename(A.HighName(l)) == A.LowName(l)
  {
    if l.Inside? {
      assert A.HighName(l) == A.HighId(l.n);
      var n: nat :| A.HighName(l) == A.HighId(n) && Rename(A.HighName(l)) == A.LowId(n);
      if n != l.n { A.NamesDiffer(A.Inside(n), l); }
    }
  }

  predicate Dead(s: High.State, ch: nat) {
    High.ChannelAt(s, ch).dead
  }

  // The id of a channel of the high-level example as the low-level one shows it: empty once it is dead.
  ghost function AsLow(s: High.State, ch: nat): string {
    if Dead(s, ch) then "" else Rename(High.Id(s, ch))
  }

  // Both examples hold the same calls in the same order, up to the renaming of generated ids, with the same
  // bridges, and have sent the same Hangup commands on the death of a leg.
  lemma SameCalls(moh: bool, es: seq<A.Event>)
    requires A.IsRun(A.Init, es)
    ensures var h, l := High.Run(High.Init, moh, es), Low.Run(Low.Init, es);
      && |h.calls| == |l.calls|
      && (forall i :: 0 <= i < |h.calls| ==>
            && l.calls[i].dialing == AsLow(h, h.calls[i].calling)
            && l.calls[i].dialed == AsLow(h, h.calls[i].called)
            && l.calls[i].bridge == (if h.calls[i].bridge.Some? then h.calls[i].bridge.value else ""))
      && |Hangups(h.sent)| == |Hangups(l.sent)|
      && (forall i :: 0 <= i < |Hangups(h.sent)| ==> Hangups(l.sent)[i] == Rename(Hangups(h.sent)[i]))
  {
    High.RunRefines(moh, es);
    Low.RunRefines(es);
    HangupLegs(es);
    var h, l, a := High.Run(High.Init, moh, es), Low.Run(Low.Init, es), A.Run(A.Init, es);
    forall i | 0 <= i < |h.calls|
      ensures l.calls[i].dialing == AsLow(h, h.calls[i].calling)
      ensures l.calls[i].dialed == AsLow(h, h.calls[i].called)
      ensures l.calls[i].bridge == (if h.calls[i].bridge.Some? then h.calls[i].bridge.value else "")
    {
      var c := a.calls[i];
      assert High.Matches(h.reg, h.calls[i], c) && A.CallOk(a, c);
      RenameName(c.calling);
      RenameName(A.Inside(c.n));
    }
    forall i | 0 <= i < |Hangups(h.sent)|
      ensures Hangups(l.sent)[i] == Rename(Hangups(h.sent)[i])
    {
      RenameName(a.hangups[i].1);
    }
  }

  ghost predicate NameableHangups(a: A.State) {
    forall i :: 0 <= i < |a.hangups| ==> A.Nameable(a.hangups[i].1)
  }

  lemma {:induction false} HangupLegs(es: seq<A.Event>)
    requires A.IsRun(A.Init, es)
    ensures NameableHangups(A.Run(A.Init, es))
    decreases |es|
  {
    if es != [] {
      var front := es[..|es| - 1];
      HangupLegs(front);
      A.RunInv(front);
      var a := A.Run(A.Init, front);
      if es[|es| - 1].Destroy? && A.Find(a.calls, es[|es| - 1].leg) < |a.calls| {
        assert A.CallOk(a, a.calls[A.Find(a.calls, es[|es| - 1].leg)]);
      }
    }
  }

  // High level: a listed call has a leg that is not dead; call n is listed from its creation until the server
  // has destroyed both its legs; and one Hangup per call has been sent if a leg was destroyed, none otherwise.
  lemma HighLevelSafety(moh: bool, es: seq<A.Event>)
    requires A.IsRun(A.Init, es)
    ensures var h, a := High.Run(High.Init, moh, es), A.Run(A.Init, es);
      && (forall i :: 0 <= i < |h.calls| ==> !Dead(h, h.calls[i].calling) || !Dead(h, h.calls[i].called))
      && (forall n :: 0 <= n < |a.callers| ==>
            ((exists i :: 0 <= i < |h.calls| && High.Id(h, h.calls[i].called) == A.HighId(n)) <==> !L.BothGone(a, n)))
      && Hangups(h.sent) == High.Names(a.hangups)
      && (forall n :: 0 <= n < |a.callers| ==> L.Times(a.hangups, n) == if L.AnyGone(a, n) then 1 else 0)
  {
    High.RunRefines(moh, es);
    L.RunLogged(es);
    var h, a := High.Run(High.Init, moh, es), A.Run(A.Init, es);
    forall i | 0 <= i < |h.calls|
      ensures !Dead(h, h.calls[i].calling) || !Dead(h, h.calls[i].called)
    {
      assert High.Matches(h.reg, h.calls[i], a.calls[i]);
    }
    forall n | 0 <= n < |a.callers|
      ensures (exists i :: 0 <= i < |h.calls| && High.Id(h, h.calls[i].called) == A.HighId(n)) <==> !L.BothGone(a, n)
      ensures L.Times(a.hangups, n) == if L.AnyGone(a, n) then 1 else 0
    {
      assert L.Told(a, n);
      HighListed(h, a, n);
    }
  }

  lemma ShowsNumber(h: High.State, a: A.State, n: nat, i: nat)
    requires High.Refines(h, a) && i < |h.calls|
    ensures High.Id(h, h.calls[i].called) == A.HighId(n) <==> a.calls[i].n == n
  {
    assert High.Matches(h.reg, h.calls[i], a.calls[i]);
    if a.calls[i].n != n { A.NamesDiffer(A.Inside(a.calls[i].n), A.Inside(n)); }
  }

  lemma HighListed(h: High.State, a: A.State, n: nat)
    requires High.Refines(h, a)
    ensures (exists i :: 0 <= i < |h.calls| && High.Id(h, h.calls[i].called) == A.HighId(n)) <==> A.Listed(a, n)
  {
    forall i | 0 <= i < |h.calls|
      ensures High.Id(h, h.calls[i].called) == A.HighId(n) <==> a.calls[i].n == n
    {
      ShowsNumber(h, a, n, i);
    }
  }

  // Low level: a listed call has a non-empty leg, non-empty legs are pairwise distinct, a call ends once,
  // when its second leg is destroyed, and one bridge deletion has been sent for each ended call that had
  // stored a bridge, in the order in which the calls ended.
  lemma LowLevelSafety(es: seq<A.Event>)
    requires A.IsRun(A.Init, es)
    ensures var l, a := Low.Run(Low.Init, es), A.Run(A.Init, es);
      && (forall i :: 0 <= i < |l.calls| ==> l.calls[i].dialing != "" || l.calls[i].dialed != "")
      && (forall i :: 0 <= i < |l.calls| && l.calls[i].dialing != "" ==> l.calls[i].dialing != l.calls[i].dialed)
      && (forall i, j :: 0 <= i < |l.calls| && 0 <= j < |l.calls| && i != j ==>
            && (l.calls[i].dialing != "" ==>
                  l.calls[i].dialing != l.calls[j].dialing && l.calls[i].dialing != l.calls[j].dialed)
            && (l.calls[i].dialed != "" ==> l.calls[i].dialed != l.calls[j].dialed))
      && BridgeDeletions(l.sent) == Low.Bridges(a.ended)
      && (forall n :: 0 <= n < |a.callers| ==>
            && ((exists i :: 0 <= i < |l.calls| && ShowsCall(l.calls[i], a, n)) <==> !L.BothGone(a, n))
            && L.Times(a.ended, n) == if L.BothGone(a, n) then 1 else 0)
  {
    Low.RunRefines(es);
    L.RunLogged(es);
    var l, a := Low.Run(Low.Init, es), A.Run(A.Init, es);
    forall i | 0 <= i < |l.calls|
      ensures l.calls[i].dialing != "" || l.calls[i].dialed != ""
      ensures l.calls[i].dialing != "" ==> l.calls[i].dialing != l.calls[i].dialed
    {
      assert l.calls[i] == Low.View(a.calls[i]) && A.CallOk(a, a.calls[i]);
      A.NamesDiffer(a.calls[i].calling, A.Inside(a.calls[i].n));
      A.NamesDiffer(A.Inside(a.calls[i].n), a.calls[i].calling);
    }
    forall i, j | 0 <= i < |l.calls| && 0 <= j < |l.calls| && i != j
      ensures l.calls[i].dialing != "" ==>
        l.calls[i].dialing != l.calls[j].dialing && l.calls[i].dialing != l.calls[j].dialed
      ensures l.calls[i].dialed != "" ==> l.calls[i].dialed != l.calls[j].dialed
    {
      LegsDiffer(l, a, i, j);
    }
    forall n | 0 <= n < |a.callers|
      ensures (exists i :: 0 <= i < |l.calls| && ShowsCall(l.calls[i], a, n)) <==> !L.BothGone(a, n)
      ensures L.Times(a.ended, n) == if L.BothGone(a, n) then 1 else 0
    {
      assert L.Told(a, n);
      LowListed(l, a, n);
    }
  }

  // A call object carries the id of a leg of the n-th call.
  predicate ShowsCall(c: Low.Call, a: A.State, n: nat)
    requires n < |a.callers|
  {
    c.dialing == A.LowName(a.callers[n]) || c.dialed == A.LowId(n)
  }

  lemma ShowsItsNumber(l: Low.State, a: A.State, n: nat, i: nat)
    requires Low.Refines(l, a) && i < |l.calls| && n < |a.callers|
    ensures i < |a.calls| && (ShowsCall(l.calls[i], a, n) <==> a.calls[i].n == n)
  {
    var c := a.calls[i];
    assert l.calls[i] == Low.View(c) && A.CallOk(a, c);
    Low.OneName(a.callers[n], c.calling);
    Low.OneName(A.Inside(n), A.Inside(c.n));
  }

  lemma LowListed(l: Low.State, a: A.State, n: nat)
    requires Low.Refines(l, a) && n < |a.callers|
    ensures (exists i :: 0 <= i < |l.calls| && ShowsCall(l.calls[i], a, n)) <==> A.Listed(a, n)
  {
    forall i | 0 <= i < |l.calls|
      ensures i < |a.calls| && (ShowsCall(l.calls[i], a, n) <==> a.calls[i].n == n)
    {
      ShowsItsNumber(l, a, n, i);
    }
  }

  lemma LegsDiffer(l: Low.State, a: A.State, i: nat, j: nat)
    requires Low.Refines(l, a) && i < |l.calls| && j < |l.calls| && i != j
    ensures l.calls[i].dialing != "" ==>
      l.calls[i].dialing != l.calls[j].dialing && l.calls[i].dialing != l.calls[j].dialed
    ensures l.calls[i].dialed != "" ==> l.calls[i].dialed != l.calls[j].dialed
  {
    var c, d := a.calls[i], a.calls[j];
    assert l.calls[i] == Low.View(c) && l.calls[j] == Low.View(d);
    assert A.CallOk(a, c) && A.CallOk(a, d) && c.n != d.n;
    A.NamesDiffer(c.calling, d.calling);
    A.NamesDiffer(c.calling, A.Inside(d.n));
    A.NamesDiffer(A.Inside(c.n), A.Inside(d.n));
  }

  // Both examples, each given these events from its construction on: their call objects agree, in order, and
  // they have sent exactly the commands the call machine calls for.
  method ServeBoth(moh: bool, es: seq<A.Event>)
    returns (h: HighLevelDial.CallContainer, l: LowLevelDial.CallContainer)
    requires A.IsRun(A.Init, es)
    ensures h.Valid() && l.Valid() && |h.calls| == |l.calls|
    ensures forall i :: 0 <= i < |h.calls| ==>
      var c, d := h.calls[i], l.calls[i];
      && d.dialing == (if c.calling.dead then "" else Rename(c.calling.id))
      && d.dialed == (if c.called.dead then "" else Rename(c.called.id))
      && d.bridge == (if c.bridge.Some? then c.bridge.value else "")
      && (!c.calling.dead || !c.called.dead)
    ensures h.client.sent == O.HighSent(moh, es) && l.connection.sent == O.LowSent(es)
    ensures |Hangups(h.client.sent)| == |Hangups(l.connection.sent)|
    ensures forall i :: 0 <= i < |Hangups(h.client.sent)| ==>
      Hangups(l.connection.sent)[i] == Rename(Hangups(h.client.sent)[i])
  {
    h := HighLevelDial.Serve(moh, es);
    l := LowLevelDial.Serve(es);
    SameCalls(moh, es);
    HighLevelSafety(moh, es);
    HighOrders.RunSends(moh, es);
    LowOrders.RunSends(es);
    forall i | 0 <= i < |h.calls|
      ensures var c, d := h.calls[i], l.calls[i];
        && d.dialing == (if c.calling.dead then "" else Rename(c.calling.id))
        && d.dialed == (if c.called.dead then "" else Rename(c.called.id))
        && d.bridge == (if c.bridge.Some? then c.bridge.value else "")
        && (!c.calling.dead || !c.called.dead)
    {
      h.CallRecords(i);
      assert l.calls[i].Abs() == l.spec.calls[i];
    }
  }
}
