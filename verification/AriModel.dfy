// Channel and AriModel, in the form of the source: a map from ids to shared, mutable channel objects. The
// ghost field `spec` is the value-level registry; Valid() ties the objects to it.
module Ari {
  import opened Options
  import opened Registry
  import Runs = RegistryRuns

  class Channel {
    const id: string
    var dead: bool
    var state: ChState
    var name: string
    var extension: string
    var callerNum: string
    var callerName: string
    var cause: int

    ghost function Record(): Rec
      reads this
    {
      Rec(id, dead, state, Info(name, extension, callerNum, callerName), cause)
    }

    constructor (id: string, state: string)
      ensures Record() == NewRec(id, state) && Means(state, this.state)
    {
      this.id := id;
      dead, name, extension, callerNum, callerName, cause := false, "", "", "", "", -1;
      this.state := ParseState(state);
      new;
      ParseMeans(state, this.state);
    }

    method StasisStart(info: Info)
      modifies this
      ensures Record() == old(Record()).(info := info)
    {
      name := info.name;
      extension := info.extension;
      callerNum := info.callerNum;
      callerName := info.callerName;
    }

    method StateChanged(s: string)
      modifies this
      ensures Record() == old(Record()).(state := ParseState(s)) && Means(s, state)
    {
      state := ParseState(s);
      ParseMeans(s, state);
    }

    method Dead(cause: int)
      modifies this
      ensures Record() == old(Record()).(dead := true, cause := cause)
    {
      dead := true;
      this.cause := cause;
    }
  }

  class AriModel {
    var channels: map<string, Channel>
    var nextId: nat
    var orphans: seq<string>       // Hangup commands of rejected channel objects
    ghost var objects: seq<Channel>
    ghost var spec: State

    ghost predicate Valid()
      reads this, objects
    {
      && |objects| == |spec.heap|
      && (forall i :: 0 <= i < |objects| ==> objects[i].Record() == spec.heap[i])
      && (forall i, j :: 0 <= i < j < |objects| ==> objects[i] != objects[j])
      && channels.Keys == spec.dir.Keys
      && (forall id <- channels :: spec.dir[id] < |objects| && channels[id] == objects[spec.dir[id]])
      && nextId == spec.nextId
      && orphans == spec.orphans
    }

    ghost function Footprint(): set<object>
      reads this`objects
    {
      {this} + set o: object | o in objects
    }

    constructor ()
      ensures Valid() && spec == Init && objects == [] && Footprint() == {this}
    {
      channels, nextId, orphans := map[], 0, [];
      objects, spec := [], Init;
    }

    method CreateChannel() returns (ch: Channel, ghost added: set<object>)
      requires Valid()
      modifies this
      ensures Valid() && spec == Registry.CreateChannel(old(spec))
      ensures GeneratedId(old(nextId)) in channels && ch == channels[GeneratedId(old(nextId))]
      ensures var id := GeneratedId(old(spec).nextId);
        id in spec.dir && spec.dir[id] < |objects| && ch == objects[spec.dir[id]]
      ensures GeneratedId(old(nextId)) in old(channels) ==> objects == old(objects)
      ensures GeneratedId(old(nextId)) !in old(channels) ==> fresh(ch) && objects == old(objects) + [ch]
      ensures old(objects) <= objects && fresh(added) && Footprint() == old(Footprint()) + added
    {
      hide GeneratedId, ParseState, Means;
      var id := GeneratedId(nextId);
      nextId := (nextId + 1) % ID_RANGE;
      spec := spec.(nextId := nextId, history := spec.history + [Made(id)]);
      var c := new Channel(id, "");
      added := if id in channels then {} else {c};
      if id in channels {
        orphans := orphans + [id];
        spec := spec.(orphans := orphans);
      } else {
        List(id, c);
      }
      ch := channels[id];
    }

    // The handler of ChannelCreated, up to the call of the user handler, which gets `ch`.
    method ChannelCreated(id: string, state: string) returns (ch: Channel, ghost added: set<object>)
      requires Valid()
      modifies this, objects
      ensures Valid() && spec == Announce(old(spec), id, state)
      ensures id in channels && ch == channels[id]
      ensures id in old(channels) ==> objects == old(objects)
      ensures id !in old(channels) ==> fresh(ch) && objects == old(objects) + [ch]
      ensures old(objects) <= objects && fresh(added) && Footprint() == old(Footprint()) + added
    {
      added := {};
      if id !in channels {
        ch := new Channel(id, state);
        added := {ch};
        List(id, ch);
        spec := Announce(old(spec), id, state);
      } else {
        spec := Announce(spec, id, state);
        ch := channels[id];
        ch.StateChanged(state);
      }
    }

    // Puts a new object into the map.
    method List(id: string, ch: Channel)
      requires Valid() && id !in channels && ch !in objects && ch.Record().id == id
      modifies this
      ensures Valid() && spec == Emplace(old(spec), id, ch.Record())
      ensures channels == old(channels)[id := ch] && objects == old(objects) + [ch] && nextId == old(nextId)
      ensures Footprint() == old(Footprint()) + {ch}
    {
      ghost var before := objects;
      channels := channels[id := ch];
      objects := objects + [ch];
      assert forall o: object :: o in objects <==> o in before || o == ch;
      spec := Emplace(spec, id, ch.Record());
    }

    // null: the handler returned before calling the user handler.
    method StasisStart(id: string, info: Info) returns (ch: Channel?)
      requires Valid()
      modifies this, objects
      ensures Valid() && objects == old(objects) && channels == old(channels) && Footprint() == old(Footprint())
      ensures ch == (if id in channels then channels[id] else null)
      ensures spec == if id in channels then Enter(old(spec), id, info) else old(spec)
    {
      if id !in channels { return null; }
      spec := Enter(spec, id, info);
      ch := channels[id];
      ch.StasisStart(info);
    }

    method ChannelStateChange(id: string, state: string) returns (ch: Channel?)
      requires Valid()
      modifies this, objects
      ensures Valid() && objects == old(objects) && channels == old(channels) && Footprint() == old(Footprint())
      ensures ch == (if id in channels then channels[id] else null)
      ensures spec == if id in channels then Report(old(spec), id, state) else old(spec)
    {
      if id !in channels { return null; }
      spec := Report(spec, id, state);
      ch := channels[id];
      ch.StateChanged(state);
    }

    // The handler of ChannelDestroyed before ...
    method ChannelDying(id: string, cause: int) returns (ch: Channel?)
      requires Valid()
      modifies this, objects
      ensures Valid() && objects == old(objects) && channels == old(channels) && Footprint() == old(Footprint())
      ensures ch == (if id in channels then channels[id] else null)
      ensures spec == if id in channels then Die(old(spec), id, cause) else old(spec)
    {
      if id !in channels { return null; }
      spec := Die(spec, id, cause);
      ch := channels[id];
      ch.Dead(cause);
    }

    // ... and after the user handler.
    method ChannelGone(id: string)
      requires Valid()
      modifies this
      ensures Valid() && objects == old(objects) && channels == old(channels) - {id} && Footprint() == old(Footprint())
      ensures spec == Erase(old(spec), id)
    {
      channels := channels - {id};
      spec := Erase(spec, id);
    }

    // A user handler that creates n channels.
    method RunHandler(n: nat) returns (ghost added: set<object>)
      requires Valid()
      modifies this
      ensures Valid() && spec == CreateChannels(old(spec), n)
      ensures fresh(added) && Footprint() == old(Footprint()) + added
    {
      added := {};
      for k := 0 to n
        invariant Valid() && spec == CreateChannels(old(spec), k)
        invariant fresh(added) && Footprint() == old(Footprint()) + added
      {
        var c, more := CreateChannel();
        added := added + more;
      }
    }

    // The events, with the user handler.
    method Created(id: string, state: string, n: nat) returns (ghost added: set<object>)
      requires Valid()
      modifies this, objects
      ensures Valid() && spec == Step(old(spec), Event.ChannelCreated(id, state, n))
      ensures fresh(added) && Footprint() == old(Footprint()) + added
    {
      hide AriModel.Valid, AriModel.Footprint, Announce, CreateChannels;
      var c;
      c, added := ChannelCreated(id, state);
      var more := RunHandler(n);
      added := added + more;
    }

    method Started(id: string, info: Info, n: nat) returns (ghost added: set<object>)
      requires Valid()
      modifies this, objects
      ensures Valid() && spec == Step(old(spec), Event.StasisStart(id, info, n))
      ensures fresh(added) && Footprint() == old(Footprint()) + added
    {
      Listed(id);
      hide AriModel.Valid, AriModel.Footprint, Enter, CreateChannels;
      var c := StasisStart(id, info);
      added := {};
      if c != null { added := RunHandler(n); }
    }

    method Changed(id: string, state: string, n: nat) returns (ghost added: set<object>)
      requires Valid()
      modifies this, objects
      ensures Valid() && spec == Step(old(spec), Event.ChannelStateChange(id, state, n))
      ensures fresh(added) && Footprint() == old(Footprint()) + added
    {
      Listed(id);
      hide AriModel.Valid, AriModel.Footprint, Report, CreateChannels;
      var c := ChannelStateChange(id, state);
      added := {};
      if c != null { added := RunHandler(n); }
    }

    method Destroyed(id: string, cause: int, n: nat) returns (ghost added: set<object>)
      requires Valid()
      modifies this, objects
      ensures Valid() && spec == Step(old(spec), Event.ChannelDestroyed(id, cause, n))
      ensures fresh(added) && Footprint() == old(Footprint()) + added
    {
      Listed(id);
      hide AriModel.Valid, AriModel.Footprint, Die, Erase, CreateChannels;
      var c := ChannelDying(id, cause);
      added := {};
      if c != null {
        added := RunHandler(n);
        ChannelGone(id);
      }
    }

    lemma Listed(id: string)
      requires Valid()
      ensures id in channels <==> id in spec.dir
      ensures id in channels ==> spec.dir[id] < |objects| && channels[id] == objects[spec.dir[id]]
    {
    }

    // A whole event is one step of the registry; `added` are the channel objects it made.
    method Dispatch(e: Event) returns (ghost added: set<object>)
      requires Valid() && Inv(spec)
      modifies Footprint()
      ensures Valid() && spec == Step(old(spec), e) && Inv(spec)
      ensures fresh(added) && Footprint() == old(Footprint()) + added
    {
      StepInv(spec, e);
      hide Inv, AriModel.Valid;
      match e {
        case UserCreates =>
          var c;
          c, added := CreateChannel();
        case ChannelCreated(id, state, n) => added := Created(id, state, n);
        case StasisStart(id, info, n) => added := Started(id, info, n);
        case ChannelStateChange(id, state, n) => added := Changed(id, state, n);
        case ChannelDestroyed(id, cause, n) => added := Destroyed(id, cause, n);
      }
    }
  }

  // An AriModel that is given these events: an id is listed exactly if it was created or announced and not
  // destroyed since, under an object of its own that has this id, is not dead, has the state last reported and
  // what was said at the last entry.
  method Serve(es: seq<Event>) returns (m: AriModel)
    ensures fresh(m) && m.Valid() && m.spec == Run(Init, es)
    ensures var h := Runs.Fold(es).history;
      forall id :: id in m.channels <==>
        exists i :: 0 <= i < |h| && Introduces(h[i], id) && forall j :: i < j < |h| ==> h[j] != Destroyed(id)
    ensures var h := Runs.Fold(es).history;
      forall id <- m.channels ::
        var ch := m.channels[id];
        && ch.id == id && !ch.dead && Reference(h, id).Some?
        && Means(Reference(h, id).value.text, ch.state)
        && ch.Record().info == Reference(h, id).value.info
    ensures forall a, b :: a in m.channels && b in m.channels && a != b ==> m.channels[a] != m.channels[b]
  {
    m := Play(es);
    Runs.DirectoryIsFold(es);
    ObjectsShowRecords(m);
  }

  method Play(es: seq<Event>) returns (m: AriModel)
    ensures fresh(m) && m.Valid() && m.spec == Run(Init, es)
  {
    m := new AriModel();
    assert Inv(m.spec) && Run(Init, es[..0]) == Init;
    hide Inv, AriModel.Valid, AriModel.Footprint, Run, Step;
    for k := 0 to |es|
      invariant fresh(m) && fresh(m.Footprint()) && m.Valid() && Inv(m.spec)
      invariant m.spec == Run(Init, es[..k])
    {
      RunOneMore(es, k);
      var added := m.Dispatch(es[k]);
    }
    assert es[..|es|] == es;
  }

  lemma RunOneMore(es: seq<Event>, k: nat)
    requires k < |es|
    ensures Run(Init, es[..k + 1]) == Step(Run(Init, es[..k]), es[k])
  {
    assert es[..k + 1][..k] == es[..k];
  }

  lemma ObjectsShowRecords(m: AriModel)
    requires m.Valid()
    ensures forall id :: id in m.channels <==> id in m.spec.dir
    ensures forall id <- m.channels ::
      m.spec.dir[id] < |m.spec.heap| && m.channels[id].Record() == m.spec.heap[m.spec.dir[id]]
  {
  }
}
