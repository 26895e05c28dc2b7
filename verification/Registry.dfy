// The channel registry of AriModel on values: a heap of channel records, indexed in order of construction, and
// a directory from ids to heap indices. `history` is what was done, in terms of ids only.
module Registry {
  import opened Options
  import Decimal

  datatype ChState =
    Down | Reserved | OffHook | Dialing | Ring | Ringing | Up | Busy | DialingOffhook | PreRing | Mute | Unknown

  function ParseState(s: string): ChState {
    if s == "Down" then Down
    else if s == "Rsrvd" then Reserved
    else if s == "OffHook" then OffHook
    else if s == "Dialing" then Dialing
    else if s == "Ring" then Ring
    else if s == "Ringing" then Ringing
    else if s == "Up" then Up
    else if s == "Busy" then Busy
    else if s == "Dialing Offhook" then DialingOffhook
    else if s == "Pre-ring" then PreRing
    else if s == "Mute" then Mute
    else Unknown
  }

  // The names the server has for the states.
  function StateName(st: ChState): string {
    match st
    case Down => "Down"
    case Reserved => "Rsrvd"
    case OffHook => "OffHook"
    case Dialing => "Dialing"
    case Ring => "Ring"
    case Ringing => "Ringing"
    case Up => "Up"
    case Busy => "Busy"
    case DialingOffhook => "Dialing Offhook"
    case PreRing => "Pre-ring"
    case Mute => "Mute"
    case Unknown => "Unknown"
  }

  // A text means the state it is the name of, and Unknown if it is no name.
  ghost predicate Means(text: string, st: ChState) {
    text == StateName(st) || (st == Unknown && forall x :: text != StateName(x))
  }

  lemma ParseName(st: ChState)
    ensures ParseState(StateName(st)) == st
  {
  }

  lemma NameParsed(text: string)
    ensures text == StateName(ParseState(text)) || ParseState(text) == Unknown
  {
  }

  lemma ParseUnknownIff(text: string)
    ensures ParseState(text) == Unknown <==> forall x :: x != Unknown ==> text != StateName(x)
  {
    NameParsed(text);
    hide ParseState, StateName;
    forall x
      ensures text == StateName(x) ==> ParseState(text) == x
    {
      ParseName(x);
    }
  }

  // Parsing finds the one state a text means.
  lemma ParseMeans(text: string, st: ChState)
    ensures Means(text, st) <==> st == ParseState(text)
  {
    NameParsed(text);
    hide ParseState, StateName;
    ParseName(st);
    forall x
      ensures text == StateName(x) ==> ParseState(text) == x
    {
      ParseName(x);
    }
  }

  datatype Info = Info(name: string, extension: string, callerNum: string, callerName: string)

  const NoInfo := Info("", "", "", "")

  datatype Rec = Rec(id: string, dead: bool, state: ChState, info: Info, cause: int)

  function NewRec(id: string, state: string): Rec {
    Rec(id, false, ParseState(state), NoInfo, -1)
  }

  datatype Happening =
    | Made(id: string)
    | Announced(id: string, state: string)
    | Entered(id: string, info: Info)
    | Reported(id: string, state: string)
    | Destroyed(id: string)

  // `orphans`: Hangup commands sent by the destructor of a channel object that never got into the directory.
  datatype State = State(
    heap: seq<Rec>, dir: map<string, nat>, nextId: nat, orphans: seq<string>, history: seq<Happening>)

  const Init := State([], map[], 0, [], [])

  // nextId is an unsigned long long.
  const ID_RANGE: nat := 0x1_0000_0000_0000_0000

  function GeneratedId(n: nat): string {
    "aricpp-c" + Decimal.ToString(n)
  }

  // ---- the operations of AriModel, without the user handlers ----

  // emplace constructs the object first, and destroys it again when the id is taken.
  function Emplace(s: State, id: string, r: Rec): State {
    if id in s.dir then s.(orphans := s.orphans + [id])
    else s.(heap := s.heap + [r], dir := s.dir[id := |s.heap|])
  }

  function CreateChannel(s: State): State {
    var id := GeneratedId(s.nextId);
    Emplace(s.(nextId := (s.nextId + 1) % ID_RANGE, history := s.history + [Made(id)]), id, NewRec(id, ""))
  }

  function Update(s: State, id: string, f: Rec -> Rec): State {
    if id in s.dir && s.dir[id] < |s.heap| then s.(heap := s.heap[s.dir[id] := f(s.heap[s.dir[id]])]) else s
  }

  function Announce(s: State, id: string, state: string): State {
    var t := s.(history := s.history + [Announced(id, state)]);
    if id in s.dir then Update(t, id, (r: Rec) => r.(state := ParseState(state)))
    else Emplace(t, id, NewRec(id, state))
  }

  function Enter(s: State, id: string, info: Info): State {
    Update(s.(history := s.history + [Entered(id, info)]), id, (r: Rec) => r.(info := info))
  }

  function Report(s: State, id: string, state: string): State {
    Update(s.(history := s.history + [Reported(id, state)]), id, (r: Rec) => r.(state := ParseState(state)))
  }

  function Die(s: State, id: string, cause: int): State {
    Update(s, id, (r: Rec) => r.(dead := true, cause := cause))
  }

  function Erase(s: State, id: string): State {
    s.(dir := s.dir - {id}, history := s.history + [Destroyed(id)])
  }

  function CreateChannels(s: State, n: nat): State {
    if n == 0 then s else CreateChannel(CreateChannels(s, n - 1))
  }

  // ---- events, with the channels the user handler creates while it runs ----

  datatype Event =
    | UserCreates
    | ChannelCreated(id: string, state: string, creates: nat)
    | StasisStart(id: string, info: Info, creates: nat)
    | ChannelStateChange(id: string, state: string, creates: nat)
    | ChannelDestroyed(id: string, cause: int, creates: nat)

  function Step(s: State, e: Event): State {
    match e
    case UserCreates => CreateChannel(s)
    case ChannelCreated(id, state, n) => CreateChannels(Announce(s, id, state), n)
    case StasisStart(id, info, n) => if id !in s.dir then s else CreateChannels(Enter(s, id, info), n)
    case ChannelStateChange(id, state, n) => if id !in s.dir then s else CreateChannels(Report(s, id, state), n)
    case ChannelDestroyed(id, cause, n) => if id !in s.dir then s else Erase(CreateChannels(Die(s, id, cause), n), id)
  }

  function Run(s: State, es: seq<Event>): State {
    if es == [] then s else Step(Run(s, es[..|es| - 1]), es[|es| - 1])
  }

  // ---- the reference account: what the history says about one id ----

  // The text of the last state report, and what was said when the channel last entered the application.
  datatype Facts = Facts(text: string, info: Info)

  // What is known of an id that has been made or announced and not destroyed since.
  function Reference(h: seq<Happening>, id: string): Option<Facts> {
    if h == [] then None
    else
      var before := Reference(h[..|h| - 1], id);
      match h[|h| - 1]
      case Made(x) => if x == id && before.None? then Some(Facts("", NoInfo)) else before
      case Announced(x, text) =>
        if x != id then before else Some(Facts(text, if before.Some? then before.value.info else NoInfo))
      case Entered(x, info) => if x == id && before.Some? then Some(Facts(before.value.text, info)) else before
      case Reported(x, text) => if x == id && before.Some? then Some(Facts(text, before.value.info)) else before
      case Destroyed(x) => if x == id then None else before
  }

  predicate Introduces(h: Happening, id: string) {
    (h.Made? || h.Announced?) && h.id == id
  }

  lemma {:induction false} ReferenceMeaning(h: seq<Happening>, id: string)
    ensures Reference(h, id).Some? <==>
      exists i :: 0 <= i < |h| && Introduces(h[i], id) && forall j :: i < j < |h| ==> h[j] != Destroyed(id)
    decreases |h|
  {
    if h != [] {
      var p, last := h[..|h| - 1], h[|h| - 1];
      ReferenceMeaning(p, id);
      if Reference(h, id).Some? && !Introduces(last, id) {
        var i :| 0 <= i < |p| && Introduces(p[i], id) && forall j :: i < j < |p| ==> p[j] != Destroyed(id);
        assert h[i] == p[i];
        assert forall j :: i < j < |h| ==> h[j] != Destroyed(id);
      } else if Introduces(last, id) {
        assert Introduces(h[|h| - 1], id);
      }
      if exists i :: 0 <= i < |h| && Introduces(h[i], id) && forall j :: i < j < |h| ==> h[j] != Destroyed(id) {
        var i :| 0 <= i < |h| && Introduces(h[i], id) && forall j :: i < j < |h| ==> h[j] != Destroyed(id);
        if i < |p| {
          assert p[i] == h[i] && h[|p|] != Destroyed(id);
          assert forall j :: i < j < |p| ==> p[j] != Destroyed(id);
        }
      }
    }
  }

  // ---- invariants ----

  // `dying` is the id whose destruction is being dispatched, if any: its object is dead and still listed.
  ghost predicate Consistent(s: State, dying: Option<string>) {
    && (forall id <- s.dir :: s.dir[id] < |s.heap| && s.heap[s.dir[id]].id == id)
    && (forall id <- s.dir :: s.heap[s.dir[id]].dead <==> dying == Some(id))
    && (forall i :: 0 <= i < |s.heap| && !s.heap[i].dead ==> s.heap[i].id in s.dir && s.dir[s.heap[i].id] == i)
    && (forall i :: 0 <= i < |s.heap| && !s.heap[i].dead ==> s.heap[i].cause == -1)
    && (dying.Some? ==> dying.value in s.dir)
  }

  // The record has the state last reported and the caller data last entered.
  ghost predicate Tells(facts: Option<Facts>, r: Rec) {
    facts.Some? && ParseState(facts.value.text) == r.state && facts.value.info == r.info
  }

  ghost predicate Agrees(s: State) {
    && (forall id <- s.dir :: s.dir[id] < |s.heap|)
    && (forall id :: id in s.dir <==> Reference(s.history, id).Some?)
    && (forall id <- s.dir :: Tells(Reference(s.history, id), s.heap[s.dir[id]]))
  }

  ghost predicate Inv(s: State) {
    Consistent(s, None) && Agrees(s)
  }

  lemma Noted(h: seq<Happening>, x: Happening)
    ensures (h + [x])[..|h|] == h
  {
  }

  lemma CreateInv(s: State, dying: Option<string>)
    requires Consistent(s, dying) && Agrees(s)
    ensures Consistent(CreateChannel(s), dying) && Agrees(CreateChannel(s))
  {
    EmplaceConsistent(s, GeneratedId(s.nextId), NewRec(GeneratedId(s.nextId), ""), dying);
    CreateAgrees(s);
  }

  lemma EmplaceConsistent(s: State, id: string, r: Rec, dying: Option<string>)
    requires Consistent(s, dying) && r.id == id && !r.dead && r.cause == -1
    ensures Consistent(Emplace(s, id, r), dying)
  {
  }

  lemma CreateAgrees(s: State)
    requires Agrees(s)
    ensures Agrees(CreateChannel(s))
  {
    hide GeneratedId;
    Noted(s.history, Made(GeneratedId(s.nextId)));
  }

  lemma {:induction false} CreatesInv(s: State, dying: Option<string>, n: nat)
    requires Consistent(s, dying) && Agrees(s)
    ensures Consistent(CreateChannels(s, n), dying) && Agrees(CreateChannels(s, n))
  {
    hide Consistent, Agrees, CreateChannel;
    if n > 0 {
      CreatesInv(s, dying, n - 1);
      CreateInv(CreateChannels(s, n - 1), dying);
    }
  }

  lemma AnnounceInv(s: State, id: string, state: string)
    requires Inv(s)
    ensures Inv(Announce(s, id, state))
  {
    var t := s.(history := s.history + [Announced(id, state)]);
    if id !in s.dir { EmplaceConsistent(t, id, NewRec(id, state), None); }
    AnnounceAgrees(s, id, state);
  }

  lemma AnnounceAgrees(s: State, id: string, state: string)
    requires Inv(s)
    ensures Agrees(Announce(s, id, state))
  {
    Noted(s.history, Announced(id, state));
  }

  lemma EnterInv(s: State, id: string, info: Info)
    requires Inv(s)
    ensures Inv(Enter(s, id, info))
  {
    Noted(s.history, Entered(id, info));
  }

  lemma ReportInv(s: State, id: string, state: string)
    requires Inv(s) && id in s.dir
    ensures Inv(Report(s, id, state))
  {
    Noted(s.history, Reported(id, state));
  }

  lemma DieInv(s: State, id: string, cause: int)
    requires Inv(s) && id in s.dir
    ensures Consistent(Die(s, id, cause), Some(id)) && Agrees(Die(s, id, cause))
  {
  }

  lemma EraseInv(s: State, id: string)
    requires Consistent(s, Some(id)) && Agrees(s)
    ensures Inv(Erase(s, id))
  {
    EraseAgrees(s, id);
  }

  lemma EraseAgrees(s: State, id: string)
    requires Agrees(s)
    ensures Agrees(Erase(s, id))
  {
    hide Tells;
    Noted(s.history, Destroyed(id));
  }

  lemma StepInv(s: State, e: Event)
    requires Inv(s)
    ensures Inv(Step(s, e))
  {
    match e {
      case UserCreates => CreateInv(s, None);
      case ChannelCreated(id, state, n) => AnnounceInv(s, id, state); CreatesInv(Announce(s, id, state), None, n);
      case StasisStart(id, info, n) =>
        if id in s.dir { EnterInv(s, id, info); CreatesInv(Enter(s, id, info), None, n); }
      case ChannelStateChange(id, state, n) =>
        if id in s.dir { ReportInv(s, id, state); CreatesInv(Report(s, id, state), None, n); }
      case ChannelDestroyed(id, cause, n) =>
        if id in s.dir {
          DieInv(s, id, cause);
          CreatesInv(Die(s, id, cause), Some(id), n);
          EraseInv(CreateChannels(Die(s, id, cause), n), id);
        }
    }
  }

  lemma {:induction false} RunInv(s: State, es: seq<Event>)
    requires Inv(s)
    ensures Inv(Run(s, es))
    decreases |es|
  {
    if es != [] {
      RunInv(s, es[..|es| - 1]);
      StepInv(Run(s, es[..|es| - 1]), es[|es| - 1]);
    }
  }
}
