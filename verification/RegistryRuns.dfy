// What holds over every run of the channel registry.
module RegistryRuns {
  import opened Options
  import opened Registry
  import Decimal

  // ---- the directory is a fold over the events ----

  // A reference account without heap and directory: the happenings, and the number of the next generated id.
  datatype Account = Account(history: seq<Happening>, nextId: nat)

  function Creations(a: Account, n: nat): Account {
    if n == 0 then a
    else
      var b := Creations(a, n - 1);
      Account(b.history + [Made(GeneratedId(b.nextId))], (b.nextId + 1) % ID_RANGE)
  }

  function Note(a: Account, h: Happening): Account {
    a.(history := a.history + [h])
  }

  // One more event. An event about an id that is not known at the time leaves no trace, except that
  // ChannelCreated makes it known.
  function Entry(a: Account, e: Event): Account {
    match e
    case UserCreates => Creations(a, 1)
    case ChannelCreated(id, state, n) => Creations(Note(a, Announced(id, state)), n)
    case StasisStart(id, info, n) =>
      if Reference(a.history, id).None? then a else Creations(Note(a, Entered(id, info)), n)
    case ChannelStateChange(id, state, n) =>
      if Reference(a.history, id).None? then a else Creations(Note(a, Reported(id, state)), n)
    case ChannelDestroyed(id, _, n) =>
      if Reference(a.history, id).None? then a else Note(Creations(a, n), Destroyed(id))
  }

  function Fold(es: seq<Event>): Account {
    if es == [] then Account([], 0) else Entry(Fold(es[..|es| - 1]), es[|es| - 1])
  }

  function Accounted(s: State): Account {
    Account(s.history, s.nextId)
  }

  lemma {:induction false} CreatesAccounted(s: State, n: nat)
    ensures Accounted(CreateChannels(s, n)) == Creations(Accounted(s), n)
  {
    if n > 0 {
      CreatesAccounted(s, n - 1);
    }
  }

  lemma StepAccounted(s: State, e: Event)
    requires Agrees(s)
    ensures Accounted(Step(s, e)) == Entry(Accounted(s), e)
  {
    match e {
      case UserCreates =>
        CreatesAccounted(s, 1);
        assert CreateChannels(s, 1) == CreateChannel(CreateChannels(s, 0));
      case ChannelCreated(id, state, n) => CreatesAccounted(Announce(s, id, state), n);
      case StasisStart(id, info, n) => CreatesAccounted(Enter(s, id, info), n);
      case ChannelStateChange(id, state, n) => CreatesAccounted(Report(s, id, state), n);
      case ChannelDestroyed(id, cause, n) => CreatesAccounted(Die(s, id, cause), n);
    }
  }

  lemma {:induction false} RunAccounted(es: seq<Event>)
    ensures Accounted(Run(Init, es)) == Fold(es)
    decreases |es|
  {
    if es != [] {
      var front := es[..|es| - 1];
      RunAccounted(front);
      RunInv(Init, front);
      StepAccounted(Run(Init, front), es[|es| - 1]);
    }
  }

  // After every event of any run, handlers creating channels as they please: an id is listed exactly if it was
  // created or announced and not destroyed since; its object has that id, is not dead, carries the state last
  // reported, by its name, and what was said at the last entry; no two entries share an object; and every live
  // object is listed.
  lemma DirectoryIsFold(es: seq<Event>)
    ensures var s := Run(Init, es);
      var h := Fold(es).history;
      && (forall id :: id in s.dir <==>
            exists i :: 0 <= i < |h| && Introduces(h[i], id) && forall j :: i < j < |h| ==> h[j] != Destroyed(id))
      && (forall id <- s.dir ::
            && s.dir[id] < |s.heap|
            && s.heap[s.dir[id]].id == id
            && !s.heap[s.dir[id]].dead
            && Reference(h, id).Some?
            && Means(Reference(h, id).value.text, s.heap[s.dir[id]].state)
            && s.heap[s.dir[id]].info == Reference(h, id).value.info)
      && (forall a, b :: a in s.dir && b in s.dir && a != b ==> s.dir[a] != s.dir[b])
      && (forall i :: 0 <= i < |s.heap| && !s.heap[i].dead ==> s.heap[i].id in s.dir && s.dir[s.heap[i].id] == i)
  {
    RunInv(Init, es);
    RunAccounted(es);
    var s := Run(Init, es);
    forall id
      ensures id in s.dir <==>
        exists i :: 0 <= i < |s.history| && Introduces(s.history[i], id)
          && forall j :: i < j < |s.history| ==> s.history[j] != Destroyed(id)
    {
      ReferenceMeaning(s.history, id);
    }
    ListedTold(s);
  }

  lemma ListedTold(s: State)
    requires Inv(s)
    ensures forall id <- s.dir ::
      var facts, r := Reference(s.history, id), s.heap[s.dir[id]];
      facts.Some? && Means(facts.value.text, r.state) && r.info == facts.value.info
  {
    forall id <- s.dir
      ensures Reference(s.history, id).Some?
      ensures Means(Reference(s.history, id).value.text, s.heap[s.dir[id]].state)
      ensures s.heap[s.dir[id]].info == Reference(s.history, id).value.info
    {
      assert Tells(Reference(s.history, id), s.heap[s.dir[id]]);
      ParseMeans(Reference(s.history, id).value.text, s.heap[s.dir[id]].state);
    }
  }

  // ---- object identity ----

  // No object is lost, renamed or revived, and a dead one is never changed.
  ghost predicate Extends(s: State, t: State) {
    && |s.heap| <= |t.heap|
    && (forall i :: 0 <= i < |s.heap| ==> t.heap[i].id == s.heap[i].id)
    && (forall i :: 0 <= i < |s.heap| && s.heap[i].dead ==> t.heap[i] == s.heap[i])
  }

  lemma {:induction false} CreatesExtend(s: State, n: nat)
    ensures s.heap <= CreateChannels(s, n).heap
  {
    if n > 0 {
      CreatesExtend(s, n - 1);
    }
  }

  lemma StepExtends(s: State, e: Event)
    requires Inv(s)
    ensures Extends(s, Step(s, e))
  {
    match e {
      case UserCreates =>
      case ChannelCreated(id, state, n) =>
        if id in s.dir { UpdateExtends(s, Announce(s, id, state), id); }
        ThenCreates(s, Announce(s, id, state), n);
      case StasisStart(id, info, n) =>
        if id in s.dir { UpdateExtends(s, Enter(s, id, info), id); ThenCreates(s, Enter(s, id, info), n); }
      case ChannelStateChange(id, state, n) =>
        if id in s.dir { UpdateExtends(s, Report(s, id, state), id); ThenCreates(s, Report(s, id, state), n); }
      case ChannelDestroyed(id, cause, n) =>
        if id in s.dir { UpdateExtends(s, Die(s, id, cause), id); ThenCreates(s, Die(s, id, cause), n); }
    }
  }

  lemma ThenCreates(s: State, t: State, n: nat)
    requires Extends(s, t)
    ensures Extends(s, CreateChannels(t, n))
  {
    CreatesExtend(t, n);
  }

  // Only the live object listed under the id changes.
  lemma UpdateExtends(s: State, t: State, id: string)
    requires Inv(s) && id in s.dir && |t.heap| == |s.heap|
    requires t.heap[s.dir[id]].id == id && forall i :: 0 <= i < |s.heap| && i != s.dir[id] ==> t.heap[i] == s.heap[i]
    ensures Extends(s, t)
  {
  }

  lemma {:induction false} DeadObjectsAreFrozen(s: State, es: seq<Event>)
    requires Inv(s)
    ensures Extends(s, Run(s, es))
    decreases |es|
  {
    if es != [] {
      var front := es[..|es| - 1];
      DeadObjectsAreFrozen(s, front);
      RunInv(s, front);
      StepExtends(Run(s, front), es[|es| - 1]);
    }
  }

  // An id listed before and after a run denotes the same object exactly if that object has not died meanwhile:
  // after a destruction, a later announcement of the id makes a different one.
  lemma SameObjectIffAlive(s: State, es: seq<Event>, id: string)
    requires Inv(s) && id in s.dir && id in Run(s, es).dir
    ensures s.dir[id] < |Run(s, es).heap|
    ensures Run(s, es).dir[id] == s.dir[id] <==> !Run(s, es).heap[s.dir[id]].dead
  {
    DeadObjectsAreFrozen(s, es);
    RunInv(s, es);
  }

  // A destroyed channel keeps, for ever, the cause it was destroyed with, and what else was known of it.
  lemma DeathIsRecorded(s: State, id: string, cause: int, n: nat, es: seq<Event>)
    requires Inv(s) && id in s.dir
    ensures var i := s.dir[id];
      var t := Run(Step(s, ChannelDestroyed(id, cause, n)), es);
      i < |s.heap| && i < |t.heap| && t.heap[i] == s.heap[i].(dead := true, cause := cause)
  {
    var u := Step(s, ChannelDestroyed(id, cause, n));
    CreatesExtend(Die(s, id, cause), n);
    StepInv(s, ChannelDestroyed(id, cause, n));
    DeadObjectsAreFrozen(u, es);
  }

  // A channel that is not dead has no cause of death.
  lemma LiveWithoutCause(es: seq<Event>)
    ensures forall r <- Run(Init, es).heap :: !r.dead ==> r.cause == -1
  {
    RunInv(Init, es);
  }

  // ---- generated ids ----

  // emplace fails, and the destructor of the rejected object hangs up the channel that owns the id, exactly when
  // the generated id is listed already.
  lemma CreateChannelRejectedIff(s: State)
    ensures CreateChannel(s).orphans != s.orphans <==> GeneratedId(s.nextId) in s.dir
    ensures GeneratedId(s.nextId) !in s.dir ==>
      CreateChannel(s).heap == s.heap + [NewRec(GeneratedId(s.nextId), "")]
      && CreateChannel(s).dir == s.dir[GeneratedId(s.nextId) := |s.heap|]
  {
    assert |s.orphans + [GeneratedId(s.nextId)]| != |s.orphans|;
  }

  // This happens when the server uses the next generated id for a channel of its own.
  lemma RejectedOnce()
    ensures var s := Run(Init, [ChannelCreated("aricpp-c0", "Up", 0), UserCreates]);
      s.orphans == ["aricpp-c0"] && s.dir == map["aricpp-c0" := 0] && |s.heap| == 1
  {
    var es := [ChannelCreated("aricpp-c0", "Up", 0), UserCreates];
    assert GeneratedId(0) == "aricpp-c0";
    assert es[..1] == [es[0]] && es[..1][..0] == [];
    assert Run(Init, es[..1]) == Step(Init, es[0]);
  }

  ghost predicate Foreign(id: string, nextId: nat) {
    forall n: nat :: id == GeneratedId(n) ==> n < nextId
  }

  ghost predicate IdsInv(s: State) {
    s.orphans == [] && forall id <- s.dir :: Foreign(id, s.nextId)
  }

  function Creates(e: Event): nat {
    if e.UserCreates? then 1 else e.creates
  }

  // The server does not make up ids of the generated form, and the counter does not wrap around.
  ghost predicate Regular(s: State, e: Event) {
    (e.ChannelCreated? ==> Foreign(e.id, s.nextId)) && s.nextId + Creates(e) < ID_RANGE
  }

  lemma {:induction false} CreatesKeepIds(s: State, n: nat)
    requires IdsInv(s) && s.nextId + n < ID_RANGE
    ensures IdsInv(CreateChannels(s, n)) && CreateChannels(s, n).nextId == s.nextId + n
  {
    if n > 0 {
      CreatesKeepIds(s, n - 1);
      CreateKeepsIds(CreateChannels(s, n - 1));
    }
  }

  lemma CreateKeepsIds(s: State)
    requires IdsInv(s) && s.nextId + 1 < ID_RANGE
    ensures IdsInv(CreateChannel(s)) && CreateChannel(s).nextId == s.nextId + 1
  {
    var id := GeneratedId(s.nextId);
    assert id !in s.dir;
    forall k: nat | id == GeneratedId(k)
      ensures k == s.nextId
    {
      Decimal.PrefixedInjective("aricpp-c", k, s.nextId);
    }
    var t := CreateChannel(s);
    forall other <- t.dir
      ensures Foreign(other, t.nextId)
    {
      if other != id { assert Foreign(other, s.nextId); }
    }
  }

  lemma StepKeepsIds(s: State, e: Event)
    requires IdsInv(s) && Regular(s, e)
    ensures IdsInv(Step(s, e))
  {
    match e {
      case UserCreates => CreatesKeepIds(s, 1); assert CreateChannels(s, 1) == CreateChannel(CreateChannels(s, 0));
      case ChannelCreated(id, state, n) => CreatesKeepIds(Announce(s, id, state), n);
      case StasisStart(id, info, n) => if id in s.dir { CreatesKeepIds(Enter(s, id, info), n); }
      case ChannelStateChange(id, state, n) => if id in s.dir { CreatesKeepIds(Report(s, id, state), n); }
      case ChannelDestroyed(id, cause, n) => if id in s.dir { CreatesKeepIds(Die(s, id, cause), n); }
    }
  }

  ghost predicate RegularRun(es: seq<Event>) {
    forall k :: 0 <= k < |es| ==> Regular(Run(Init, es[..k]), es[k])
  }

  // With a regular server every created channel gets an id and an object of its own.
  lemma {:induction false} CreatedChannelsAreNew(es: seq<Event>)
    requires RegularRun(es)
    ensures IdsInv(Run(Init, es))
    ensures GeneratedId(Run(Init, es).nextId) !in Run(Init, es).dir
    decreases |es|
  {
    if es != [] {
      var front := es[..|es| - 1];
      assert forall k :: 0 <= k < |front| ==> front[..k] == es[..k];
      CreatedChannelsAreNew(front);
      StepKeepsIds(Run(Init, front), es[|es| - 1]);
    }
  }
}
