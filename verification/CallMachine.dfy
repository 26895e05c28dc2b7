// The two-party call controller both dial examples implement, without ids: which calls there are and which of
// their legs are alive. A leg is an outside channel that entered the application, or the channel the n-th
// call was made to.
module CallMachine {
  import Decimal
  import R = Registry

  datatype Leg = Outside(id: string) | Inside(n: nat)

  datatype Legs = Both | CallingOnly | CalledOnly

  // The called leg of call n is Inside(n). `bridge` is the bridge id stored last, "" if none.
  datatype Call = Call(n: nat, calling: Leg, legs: Legs, bridge: string)

  // `callers[n]` is the calling leg of the n-th call ever made; `hangups` the calls in which ChHangup hung up the
  // other leg, and that leg; `ended` the calls taken off the list, with their bridge. The rest is what the
  // server has said.
  datatype State = State(
    calls: seq<Call>, callers: seq<Leg>, hangups: seq<(nat, Leg)>, ended: seq<(nat, string)>,
    announced: set<Leg>, gone: set<Leg>)

  const Init := State([], [], [], [], {}, {})

  datatype Event =
    | Announce(leg: Leg, state: string)
    | Enter(leg: Leg, external: bool, info: R.Info)
    | Change(leg: Leg, state: string)
    | Destroy(leg: Leg, cause: int)
    | Bridged(k: nat, bridge: string)

  predicate Known(s: State, l: Leg) {
    l !in s.gone && (if l.Outside? then l in s.announced else l.n < |s.callers|)
  }

  predicate CallingLive(c: Call) { c.legs != CalledOnly }
  predicate CalledLive(c: Call) { c.legs != CallingOnly }

  predicate Holds(c: Call, l: Leg) {
    (CallingLive(c) && c.calling == l) || (CalledLive(c) && Inside(c.n) == l)
  }

  // The first call with this live leg, or the number of calls.
  function Find(calls: seq<Call>, l: Leg): (k: nat)
    ensures k <= |calls|
    ensures k < |calls| ==> Holds(calls[k], l)
    ensures forall j :: 0 <= j < k ==> !Holds(calls[j], l)
  {
    if calls == [] || Holds(calls[0], l) then 0 else 1 + Find(calls[1..], l)
  }

  function Remove<T>(xs: seq<T>, k: nat): seq<T>
    requires k < |xs|
  {
    xs[..k] + xs[k + 1..]
  }

  function Step(s: State, e: Event): State {
    match e
    case Announce(l, _) => s.(announced := s.announced + {l})
    case Enter(l, external, _) =>
      if external && Known(s, l)
      then s.(calls := s.calls + [Call(|s.callers|, l, Both, "")], callers := s.callers + [l])
      else s
    case Change(_, _) => s
    case Destroy(l, _) => if Known(s, l) then HangUp(s.(gone := s.gone + {l}), l) else s
    case Bridged(k, b) => if k < |s.calls| then s.(calls := s.calls[k := s.calls[k].(bridge := b)]) else s
  }

  // A leg dies: with two live legs the other one is hung up, with one the call is over.
  function HangUp(s: State, l: Leg): State {
    var k := Find(s.calls, l);
    if k == |s.calls| then s
    else
      var c := s.calls[k];
      if c.legs != Both then s.(calls := Remove(s.calls, k), ended := s.ended + [(c.n, c.bridge)])
      else if l == c.calling
      then s.(calls := s.calls[k := c.(legs := CalledOnly)], hangups := s.hangups + [(c.n, Inside(c.n))])
      else s.(calls := s.calls[k := c.(legs := CallingOnly)], hangups := s.hangups + [(c.n, c.calling)])
  }

  lemma DestroyedIsUnknown(s: State, l: Leg, cause: int, m: Leg)
    requires Known(s, l)
    ensures var t := Step(s, Destroy(l, cause));
      && t.callers == s.callers && t.announced == s.announced && t.gone == s.gone + {l}
      && (Known(t, m) <==> Known(s, m) && m != l)
  {
  }

  lemma DestroyEnds(s: State, l: Leg, cause: int, k: nat)
    requires Known(s, l) && k == Find(s.calls, l) < |s.calls| && s.calls[k].legs != Both
    ensures var c := s.calls[k];
      var t := Step(s, Destroy(l, cause));
      t.calls == Remove(s.calls, k) && t.hangups == s.hangups && t.ended == s.ended + [(c.n, c.bridge)]
  {
  }

  lemma DestroyHangsUp(s: State, l: Leg, cause: int, k: nat)
    requires Known(s, l) && k == Find(s.calls, l) < |s.calls| && s.calls[k].legs == Both
    ensures var c := s.calls[k];
      var t := Step(s, Destroy(l, cause));
      && t.calls == s.calls[k := c.(legs := if l == c.calling then CalledOnly else CallingOnly)]
      && t.hangups == s.hangups + [(c.n, if l == c.calling then Inside(c.n) else c.calling)]
      && t.ended == s.ended
  {
  }

  // ---- naming of legs ----

  function HighId(n: nat): string { R.GeneratedId(n) }
  function LowId(n: nat): string { "aricpp-" + Decimal.ToString(n) }

  function HighName(l: Leg): string { if l.Outside? then l.id else HighId(l.n) }
  function LowName(l: Leg): string { if l.Outside? then l.id else LowId(l.n) }

  // An id the server may give an outside channel: non-empty and of neither generated form.
  ghost predicate Nameable(l: Leg) {
    l.Outside? ==> l.id != "" && forall n: nat :: l.id != HighId(n) && l.id != LowId(n)
  }

  lemma NamesDiffer(a: Leg, b: Leg)
    requires Nameable(a) && Nameable(b) && a != b
    ensures HighName(a) != HighName(b) && LowName(a) != LowName(b)
    ensures HighName(a) != "" && LowName(a) != ""
  {
    if a.Inside? && b.Inside? {
      if HighName(a) == HighName(b) { Decimal.PrefixedInjective("aricpp-c", a.n, b.n); }
      if LowName(a) == LowName(b) { Decimal.PrefixedInjective("aricpp-", a.n, b.n); }
    }
  }

  // ---- what the server may do ----

  // Outside channels are announced before they enter, enter once, and do not come back after their
  // destruction; generated ids are announced only once they are used. A channel enters as internal only
  // when the application dialled it. Bridge responses are those of listed calls.
  ghost predicate Allowed(s: State, e: Event) {
    match e
    case Announce(l, _) => Nameable(l) && l !in s.gone && (l.Inside? ==> l.n < |s.callers|)
    case Enter(l, external, _) =>
      Nameable(l) && (external ==> l.Outside? && Known(s, l) && l !in s.callers && |s.callers| + 1 < R.ID_RANGE)
    case Change(l, _) => Nameable(l)
    case Destroy(l, _) => Nameable(l)
    case Bridged(k, _) => k < |s.calls|
  }

  ghost predicate IsRun(s: State, es: seq<Event>)
    decreases |es|
  {
    es == [] || (IsRun(s, es[..|es| - 1]) && Allowed(Run(s, es[..|es| - 1]), es[|es| - 1]))
  }

  function Run(s: State, es: seq<Event>): State {
    if es == [] then s else Step(Run(s, es[..|es| - 1]), es[|es| - 1])
  }

  lemma {:induction false} PrefixIsRun(es: seq<Event>, k: nat)
    requires IsRun(Init, es) && k <= |es|
    ensures IsRun(Init, es[..k])
    ensures k < |es| ==> Allowed(Run(Init, es[..k]), es[k])
    decreases |es|
  {
    if k < |es| - 1 {
      PrefixIsRun(es[..|es| - 1], k);
      assert es[..|es| - 1][..k] == es[..k];
    } else if k == |es| {
      assert es[..k] == es;
    }
  }

  // ---- invariants ----

  ghost predicate Listed(s: State, n: nat) {
    exists i :: 0 <= i < |s.calls| && s.calls[i].n == n
  }

  // The status of a listed call says which of its legs have been destroyed.
  ghost predicate CallOk(s: State, c: Call) {
    && c.n < |s.callers| && s.callers[c.n] == c.calling
    && (CallingLive(c) <==> c.calling !in s.gone)
    && (CalledLive(c) <==> Inside(c.n) !in s.gone)
  }

  ghost predicate Inv(s: State) {
    && (forall i :: 0 <= i < |s.calls| ==> CallOk(s, s.calls[i]))
    && (forall i, j :: 0 <= i < j < |s.calls| ==> s.calls[i].n < s.calls[j].n)
    && (forall n :: 0 <= n < |s.callers| ==>
          s.callers[n].Outside? && s.callers[n] in s.announced && Nameable(s.callers[n]))
    && (forall m, n :: 0 <= m < n < |s.callers| ==> s.callers[m] != s.callers[n])
    && (forall l <- s.gone :: l.Inside? ==> l.n < |s.callers|)
    && (forall l <- s.announced :: Nameable(l))
  }

  // Removing one call keeps the others.
  lemma RemoveAt<T>(xs: seq<T>, k: nat)
    requires k < |xs|
    ensures |Remove(xs, k)| == |xs| - 1
    ensures forall i :: 0 <= i < k ==> Remove(xs, k)[i] == xs[i]
    ensures forall i :: k <= i < |xs| - 1 ==> Remove(xs, k)[i] == xs[i + 1]
  {
  }

  // At most one listed call has anything to do with a leg.
  lemma OneCall(s: State, l: Leg, i: nat)
    requires Inv(s) && i < |s.calls|
    requires s.calls[i].calling == l || Inside(s.calls[i].n) == l
    ensures forall j :: 0 <= j < |s.calls| && j != i ==> s.calls[j].calling != l && Inside(s.calls[j].n) != l
  {
  }

  lemma DestroyEndsInv(s: State, l: Leg, cause: int, k: nat)
    requires Inv(s) && Known(s, l) && k == Find(s.calls, l) < |s.calls| && s.calls[k].legs != Both
    ensures Inv(Step(s, Destroy(l, cause)))
  {
    var t := Step(s, Destroy(l, cause));
    DestroyedIsUnknown(s, l, cause, l);
    DestroyEnds(s, l, cause, k);
    RemoveAt(s.calls, k);
    forall i | 0 <= i < |t.calls|
      ensures CallOk(t, t.calls[i])
    {
      SurvivorOk(s, l, cause, if i < k then i else i + 1);
    }
  }

  lemma DestroyHangsUpInv(s: State, l: Leg, cause: int, k: nat)
    requires Inv(s) && Known(s, l) && k == Find(s.calls, l) < |s.calls| && s.calls[k].legs == Both
    ensures Inv(Step(s, Destroy(l, cause)))
  {
    var t := Step(s, Destroy(l, cause));
    DestroyedIsUnknown(s, l, cause, l);
    DestroyHangsUp(s, l, cause, k);
    forall i | 0 <= i < |t.calls|
      ensures CallOk(t, t.calls[i])
    {
      SurvivorOk(s, l, cause, i);
    }
  }

  lemma DestroyInv(s: State, l: Leg, cause: int)
    requires Inv(s) && Known(s, l)
    ensures Inv(Step(s, Destroy(l, cause)))
  {
    var k := Find(s.calls, l);
    if k == |s.calls| {
      var t := Step(s, Destroy(l, cause));
      forall i | 0 <= i < |t.calls|
        ensures CallOk(t, t.calls[i])
      {
        SurvivorOk(s, l, cause, i);
      }
    } else if s.calls[k].legs == Both {
      DestroyHangsUpInv(s, l, cause, k);
    } else {
      DestroyEndsInv(s, l, cause, k);
    }
  }

  lemma SurvivorOk(s: State, l: Leg, cause: int, j: nat)
    requires Inv(s) && Known(s, l) && j < |s.calls|
    ensures var t := Step(s, Destroy(l, cause));
      var k := Find(s.calls, l);
      var c := s.calls[j];
      if j != k then CallOk(t, c)
      else c.legs == Both ==> CallOk(t, c.(legs := if l == c.calling then CalledOnly else CallingOnly))
  {
    assert CallOk(s, s.calls[j]);
    DestroyedIsUnknown(s, l, cause, l);
    if Find(s.calls, l) < |s.calls| { OneCall(s, l, Find(s.calls, l)); }
  }

  lemma StepInv(s: State, e: Event)
    requires Inv(s) && Allowed(s, e)
    ensures Inv(Step(s, e))
  {
    match e {
      case Destroy(l, cause) => if Known(s, l) { DestroyInv(s, l, cause); }
      case Enter(l, external, _) =>
        var t := Step(s, e);
        forall i | 0 <= i < |t.calls|
          ensures CallOk(t, t.calls[i])
        {
          if i < |s.calls| { assert CallOk(s, s.calls[i]); }
        }
      case _ =>
        var t := Step(s, e);
        forall i | 0 <= i < |t.calls|
          ensures CallOk(t, t.calls[i])
        {
          assert CallOk(s, s.calls[i]);
        }
    }
  }

  lemma {:induction false} RunInv(es: seq<Event>)
    requires IsRun(Init, es)
    ensures Inv(Run(Init, es))
    decreases |es|
  {
    if es != [] {
      RunInv(es[..|es| - 1]);
      StepInv(Run(Init, es[..|es| - 1]), es[|es| - 1]);
    }
  }
}
