// Promises whose handlers are plain: they neither register handlers nor throw.
module ProxyPlain {
  import opened Options
  import opened ProxyModel
  import opened ProxyRuns

  predicate Plain(h: Handler) {
    h.script == [] && !h.throws
  }

  predicate AllPlain(hs: seq<Handler>) {
    forall i :: 0 <= i < |hs| ==> Plain(hs[i])
  }

  lemma PlainFire(s: State, h: Handler, p: Payload)
    requires Plain(h)
    ensures Fire(s, h, p) == Res(s.(log := s.log.(fired := s.log.fired + [Firing(h, p)])), false)
  {
  }

  // What plain handlers leave behind is the calls.
  lemma {:induction false} ClosurePlain(s: State, c: Closure, p: Payload)
    requires AllPlain(Flatten(c))
    ensures RunClosure(s, c, p) == Res(s.(log := s.log.(fired := s.log.fired + Firings(Flatten(c), p))), false)
  {
    match c {
      case Single(h) =>
        assert Plain(Flatten(c)[0]);
        PlainFire(s, h, p);
        assert Firings([h], p) == [Firing(h, p)];
      case Then(g, f) =>
        assert forall i :: 0 <= i < |Flatten(g)| ==> Flatten(c)[i] == Flatten(g)[i];
        assert Plain(Flatten(c)[|Flatten(g)|]);
        ClosurePlain(s, g, p);
        assert Firings(Flatten(c), p) == Firings(Flatten(g), p) + [Firing(f, p)];
        var r := RunClosure(s, g, p);
        PlainFire(r.s, f, p);
        assert r.s.log.fired + [Firing(f, p)] == s.log.fired + Firings(Flatten(c), p);
    }
  }

  lemma {:induction false} FiredFirings(fs: seq<Firing>, hs: seq<Handler>, p: Payload, x: Side)
    ensures FiredOn(fs + Firings(hs, p), x) == FiredOn(fs, x) + (if SideOf(p) == x then hs else [])
    decreases |hs|
  {
    if hs == [] {
      assert fs + Firings(hs, p) == fs;
    } else {
      var front, last := hs[..|hs| - 1], hs[|hs| - 1];
      FiredFirings(fs, front, p, x);
      var all := fs + Firings(hs, p);
      assert all[..|all| - 1] == fs + Firings(front, p);
      assert hs == front + [last];
    }
  }

  lemma SlotPlain(s: State, y: Side, p: Payload, x: Side)
    requires AllPlain(Waiting(s, y)) && SideOf(p) == y
    ensures var t := RunSlot(s, y, p).s;
      && Called(t, x) == Called(s, x) + (if x == y then Waiting(s, y) else [])
      && Registered(t, x) == Registered(s, x)
      && !RunSlot(s, y, p).threw
  {
    if Slot(s, y).Some? {
      var c := Slot(s, y).value;
      ClosurePlain(s, c, p);
      FiredFirings(s.log.fired, Flatten(c), p, x);
    }
  }

  // Side x has called, in order, what was registered on it.
  ghost predicate InOrder(s: State, x: Side) {
    Called(s, x) == Registered(s, x)
  }

  lemma RespondPlain(s: State, r: Response)
    requires Fresh(s) && AllPlain(s.log.afters) && AllPlain(s.log.errors)
    ensures var t := Respond(s, r).s;
      && t.log.afters == s.log.afters && t.log.errors == s.log.errors
      && InOrder(t, SideOf(Delivered(s.env.kind, r)))
  {
    SucceedsIsResult(s.env.kind, r);
    var a := Arrived(s, r);
    if Succeeds(s.env.kind, r) {
      var v := Outcome(s.env.kind, r).value;
      var u := a.(env := Completed(s.env, v));
      assert Waiting(u, After) == s.log.afters;
      SlotPlain(u, After, Result(v), After);
      SlotPlain(u, After, Result(v), OnError);
      assert Respond(s, r) == RunSlot(u, After, Result(v));
    } else {
      var u := a.(env := Erred(s.env, Complaint(r)));
      assert Waiting(u, OnError) == s.log.errors;
      SlotPlain(u, OnError, Complaint(r), After);
      SlotPlain(u, OnError, Complaint(r), OnError);
    }
  }

  lemma RegisterPlain(s: State, c: Call, x: Side)
    requires Plain(c.h)
    ensures var t := Register(s, c).s;
      && Registered(t, x) == Registered(s, x) + (if c.side == x then [c.h] else [])
      && (Settled(s.env, x) && InOrder(s, x) ==> InOrder(t, x))
  {
    if Settled(s.env, c.side) {
      PlainFire(Note(s, c.side, c.h), c.h, Kept(s.env, c.side));
      CalledOne(Note(s, c.side, c.h), Firing(c.h, Kept(s.env, c.side)), x);
    }
  }
}
