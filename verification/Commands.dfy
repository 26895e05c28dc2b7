// The ARI commands the two dial examples send.
module Commands {
  datatype Command =
    | GetVar(id: string)
    | Dial(id: string)
    | Answer(id: string)
    | Ring(id: string)
    | StartMoh(id: string)
    | NewBridge
    | AddToBridge(bridge: string, first: string, second: string)
    | Hangup(id: string)
    | DeleteBridge(bridge: string)

  function Hangups(sent: seq<Command>): seq<string> {
    if sent == [] then []
    else Hangups(sent[..|sent| - 1]) + (if sent[|sent| - 1].Hangup? then [sent[|sent| - 1].id] else [])
  }

  function BridgeDeletions(sent: seq<Command>): seq<string> {
    if sent == [] then []
    else
      var c := sent[|sent| - 1];
      BridgeDeletions(sent[..|sent| - 1]) + (if c.DeleteBridge? then [c.bridge] else [])
  }

  lemma SendOne(sent: seq<Command>, c: Command)
    ensures Hangups(sent + [c]) == Hangups(sent) + (if c.Hangup? then [c.id] else [])
    ensures BridgeDeletions(sent + [c]) == BridgeDeletions(sent) + (if c.DeleteBridge? then [c.bridge] else [])
  {
    assert (sent + [c])[..|sent|] == sent;
  }

  // The connection the commands go to.
  class Client {
    var sent: seq<Command>

    constructor ()
      ensures sent == []
    {
      sent := [];
    }

    method Send(c: Command)
      modifies this
      ensures sent == old(sent) + [c]
    {
      sent := sent + [c];
    }
  }

  // The ChMode enumeration.
  datatype Mode = CallingMode | CalledMode | BothMode
}
