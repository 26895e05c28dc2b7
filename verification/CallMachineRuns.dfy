// What holds over every run of the two-party call machine.
module CallMachineRuns {
  import opened CallMachine
  import R = Registry

  function Times<T>(log: seq<(nat, T)>, n: nat): nat {
    if log == [] then 0 else Times(log[..|log| - 1], n) + (if log[|log| - 1].0 == n then 1 else 0)
  }

  lemma TimesAppend<T>(log: seq<(nat, T)>, x: (nat, T), n: nat)
    ensures Times(log + [x], n) == Times(log, n) + (if x.0 == n then 1 else 0)
  {
    assert (log + [x])[..|log|] == log;
  }

  predicate AnyGone(s: State, n: nat)
    requires n < |s.callers|
  {
    s.callers[n] in s.gone || Inside(n) in s.gone
  }

  predicate BothGone(s: State, n: nat)
    requires n < |s.callers|
  {
    s.callers[n] in s.gone && Inside(n) in s.gone
  }

  // What the logs say about call n.
  ghost predicate Told(s: State, n: nat) {
    if n < |s.callers| then
      && (Listed(s, n) <==> !BothGone(s, n))
      && Times(s.hangups, n) == (if AnyGone(s, n) then 1 else 0)
      && Times(s.ended, n) == (if BothGone(s, n) then 1 else 0)
    else !Listed(s, n) && Times(s.hangups, n) == 0 && Times(s.ended, n) == 0
  }

  ghost predicate Logged(s: State) {
    Inv(s) && forall n: nat :: Told(s, n)
  }

  // A known leg of a call that was made is found.
  lemma KnownLegIsFound(s: State, l: Leg, n: nat)
    requires Logged(s) && Known(s, l) && n < |s.callers| && (s.callers[n] == l || Inside(n) == l)
    ensures var k := Find(s.calls, l); k < |s.calls| && s.calls[k].n == n
  {
    assert Told(s, n);
    var i :| 0 <= i < |s.calls| && s.calls[i].n == n;
    assert CallOk(s, s.calls[i]);
    OneCall(s, l, i);
  }

  lemma FoundLeg(s: State, l: Leg)
    requires Logged(s) && Find(s.calls, l) < |s.calls|
    ensures var c := s.calls[Find(s.calls, l)];
      c.n < |s.callers| && (c.calling == l || Inside(c.n) == l) && s.callers[c.n] == c.calling
  {
    assert CallOk(s, s.calls[Find(s.calls, l)]);
  }

  lemma EndedTold(s: State, l: Leg, cause: int, n: nat)
    requires Logged(s) && Known(s, l) && Allowed(s, Destroy(l, cause))
    requires var k := Find(s.calls, l); k < |s.calls| && s.calls[k].legs != Both
    ensures Told(Step(s, Destroy(l, cause)), n)
  {
    var k := Find(s.calls, l);
    var c := s.calls[k];
    var t := Step(s, Destroy(l, cause));
    FoundLeg(s, l);
    assert Told(s, n) && CallOk(s, c);
    TimesAppend(s.ended, (c.n, c.bridge), n);
    if n < |s.callers| && n != c.n && (s.callers[n] == l || Inside(n) == l) {
      KnownLegIsFound(s, l, n);
    }
    ListedAfterRemoval(s, t, k, n);
  }

  lemma ListedAfterRemoval(s: State, t: State, k: nat, n: nat)
    requires Inv(s) && k < |s.calls| && t.calls == Remove(s.calls, k)
    ensures Listed(t, n) <==> Listed(s, n) && n != s.calls[k].n
  {
    RemoveAt(s.calls, k);
    if Listed(s, n) && n != s.calls[k].n {
      var i :| 0 <= i < |s.calls| && s.calls[i].n == n;
      assert t.calls[if i < k then i else i - 1].n == n;
    }
    if Listed(t, n) {
      var i :| 0 <= i < |t.calls| && t.calls[i].n == n;
      assert s.calls[if i < k then i else i + 1].n == n;
    }
  }

  lemma HungUpTold(s: State, l: Leg, cause: int, n: nat)
    requires Logged(s) && Known(s, l) && Allowed(s, Destroy(l, cause))
    requires var k := Find(s.calls, l); k < |s.calls| && s.calls[k].legs == Both
    ensures Told(Step(s, Destroy(l, cause)), n)
  {
    var k := Find(s.calls, l);
    var c := s.calls[k];
    var t := Step(s, Destroy(l, cause));
    FoundLeg(s, l);
    assert Told(s, n) && CallOk(s, c);
    TimesAppend(s.hangups, (c.n, if l == c.calling then Inside(c.n) else c.calling), n);
    if n < |s.callers| && n != c.n && (s.callers[n] == l || Inside(n) == l) {
      KnownLegIsFound(s, l, n);
    }
    SameListed(s, t, n);
  }

  lemma SameListed(s: State, t: State, n: nat)
    requires |s.calls| == |t.calls| && forall i :: 0 <= i < |s.calls| ==> s.calls[i].n == t.calls[i].n
    ensures Listed(s, n) <==> Listed(t, n)
  {
  }

  lemma DestroyTold(s: State, l: Leg, cause: int, n: nat)
    requires Logged(s) && Allowed(s, Destroy(l, cause))
    ensures Told(Step(s, Destroy(l, cause)), n)
  {
    assert Told(s, n);
    if Known(s, l) {
      var k := Find(s.calls, l);
      if k < |s.calls| {
        if s.calls[k].legs == Both { HungUpTold(s, l, cause, n); } else { EndedTold(s, l, cause, n); }
      } else {
        if n < |s.callers| && (s.callers[n] == l || Inside(n) == l) {
          KnownLegIsFound(s, l, n);
        }
        SameListed(s, Step(s, Destroy(l, cause)), n);
      }
    }
  }

  lemma EnterTold(s: State, l: Leg, external: bool, info: R.Info, n: nat)
    requires Logged(s) && Allowed(s, Enter(l, external, info))
    ensures Told(Step(s, Enter(l, external, info)), n)
  {
    assert Told(s, n);
    var t := Step(s, Enter(l, external, info));
    if external {
      if n == |s.callers| {
        assert t.calls[|s.calls|].n == n;
      } else {
        if Listed(s, n) {
          var i :| 0 <= i < |s.calls| && s.calls[i].n == n;
          assert t.calls[i].n == n;
        }
        if Listed(t, n) {
          var i :| 0 <= i < |t.calls| && t.calls[i].n == n;
          assert s.calls[i].n == n;
        }
      }
    }
  }

  lemma StepLogged(s: State, e: Event)
    requires Logged(s) && Allowed(s, e)
    ensures Logged(Step(s, e))
  {
    StepInv(s, e);
    forall n: nat
      ensures Told(Step(s, e), n)
    {
      match e {
        case Enter(l, external, info) => EnterTold(s, l, external, info, n);
        case Destroy(l, cause) => DestroyTold(s, l, cause, n);
        case _ =>
          assert Told(s, n);
          SameListed(s, Step(s, e), n);
      }
    }
  }

  lemma {:induction false} RunLogged(es: seq<Event>)
    requires IsRun(Init, es)
    ensures Logged(Run(Init, es))
    decreases |es|
  {
    if es == [] {
      forall n: nat
        ensures Told(Init, n)
      {
      }
    } else {
      RunLogged(es[..|es| - 1]);
      StepLogged(Run(Init, es[..|es| - 1]), es[|es| - 1]);
    }
  }

  // In every run: a call is listed until both its legs have been destroyed, and taken off the list once, then;
  // one of its legs has been hung up once if a leg was destroyed, and none otherwise.
  lemma OneHangupPerCall(es: seq<Event>)
    requires IsRun(Init, es)
    ensures var s := Run(Init, es);
      forall n :: 0 <= n < |s.callers| ==>
        && (Listed(s, n) <==> !BothGone(s, n))
        && Times(s.hangups, n) == (if AnyGone(s, n) then 1 else 0)
        && Times(s.ended, n) == (if BothGone(s, n) then 1 else 0)
  {
    RunLogged(es);
    var s := Run(Init, es);
    forall n | 0 <= n < |s.callers|
      ensures Listed(s, n) <==> !BothGone(s, n)
      ensures Times(s.hangups, n) == if AnyGone(s, n) then 1 else 0
      ensures Times(s.ended, n) == if BothGone(s, n) then 1 else 0
    {
      assert Told(s, n);
    }
  }

  // When a leg of call n is destroyed, the other leg is hung up if it is still there, and else the call leaves
  // the list in this very step.
  lemma DeathOfALeg(es: seq<Event>, l: Leg, cause: int, n: nat)
    requires IsRun(Init, es) && Known(Run(Init, es), l) && Allowed(Run(Init, es), Destroy(l, cause))
    requires n < |Run(Init, es).callers| && (Run(Init, es).callers[n] == l || Inside(n) == l)
    ensures var s := Run(Init, es);
      var t := Step(s, Destroy(l, cause));
      var other := if l == Inside(n) then s.callers[n] else Inside(n);
      if other in s.gone then
        && Listed(s, n) && !Listed(t, n) && t.hangups == s.hangups
        && |t.ended| == |s.ended| + 1 && t.ended[..|s.ended|] == s.ended && t.ended[|s.ended|].0 == n
      else Listed(s, n) && Listed(t, n) && t.hangups == s.hangups + [(n, other)] && t.ended == s.ended
  {
    RunLogged(es);
    var s := Run(Init, es);
    var t := Step(s, Destroy(l, cause));
    var k := Find(s.calls, l);
    KnownLegIsFound(s, l, n);
    assert CallOk(s, s.calls[k]);
    DestroyTold(s, l, cause, n);
    assert Told(s, n) && Told(t, n);
    if s.calls[k].legs == Both { DestroyHangsUp(s, l, cause, k); } else { DestroyEnds(s, l, cause, k); }
  }
}
