/** A managed subagent process with fields that its event handlers update in place. */
module SubagentRpc {
  import opened JsText
  import opened SubagentRpcSpec

  class ManagedProcess {
    const parse: Parser
    var alive: bool
    var listed: bool
    var killed: bool
    var rpcIdCounter: nat
    var pendingRequests: seq<nat>
    var liveTimers: set<nat>
    var lineBuffer: string
    ghost var exited: bool
    ghost var sent: set<nat>
    ghost var thrown: set<nat>
    ghost var heard: seq<string>
    ghost var settled: seq<Settlement>

    ghost function Model(): Proc
      reads this
    {
      Proc(alive, listed, killed, exited, rpcIdCounter, pendingRequests, liveTimers, lineBuffer, sent, thrown, heard,
        settled)
    }

    constructor (parse: Parser, rpcIdCounter: nat)
      ensures Model() == Spawned(rpcIdCounter) && this.parse == parse
    {
      this.parse := parse;
      alive, listed, killed, exited := true, true, false, false;
      this.rpcIdCounter := rpcIdCounter;
      pendingRequests, liveTimers, lineBuffer := [], {}, "";
      sent, thrown, heard, settled := {}, {}, [], [];
    }

    /** Take the entry out of the table, stop its timer, and settle its promise. */
    method SettleRequest(id: nat, outcome: Outcome)
      modifies this
      ensures Model() == Settle(old(Model()), id, outcome)
    {
      liveTimers := liveTimers - {id};
      pendingRequests := Remove(pendingRequests, id);
      settled := settled + [Settlement(id, outcome)];
    }

    method OnMessage(m: Message)
      modifies this
      ensures Model() == HandleMessage(old(Model()), m)
    {
      if m.name == "heartbeat" {
        return;
      }
      if m.id.Number? && m.id.n >= 0 && m.id.n in pendingRequests {
        SettleRequest(m.id.n, if m.hasError then Rejected else Resolved);
      }
    }

    /** The data handler of standard output. */
    method OnData(data: string)
      modifies this
      ensures Model() == Feed(parse, old(Model()), data)
    {
      lineBuffer := lineBuffer + data;
      var lines := Parts(lineBuffer);
      lineBuffer := lines[|lines| - 1];
      lines := lines[..|lines| - 1];
      ghost var start := Model();
      for i := 0 to |lines|
        invariant Model() == HandleLines(parse, start, lines[..i])
      {
        assert lines[..i + 1][..i] == lines[..i];
        var trimmed := Trim(lines[i]);
        if trimmed == "" { continue; }
        heard := heard + [trimmed];
        var parsed := parse(trimmed);
        if parsed.Parsed? {
          OnMessage(parsed.message);
        }
      }
      assert lines[..|lines|] == lines;
    }

    method SendRequest(writable: bool)
      modifies this
      ensures Model() == Send(old(Model()), writable)
    {
      if !listed || !alive {
        return;
      }
      rpcIdCounter := rpcIdCounter + 1;
      var id := rpcIdCounter;
      liveTimers := liveTimers + {id};
      pendingRequests := pendingRequests + [id];
      sent := sent + {id};
      if !writable {
        thrown, settled := thrown + {id}, settled + [Settlement(id, Thrown)];
      }
    }

    method OnTimeout(id: nat)
      modifies this
      ensures Model() == Timeout(old(Model()), id)
    {
      if id in liveTimers {
        SettleRequest(id, TimedOut);
      }
    }

    /** The exit handler rejects every pending request in the order of the table. */
    method OnExit()
      modifies this
      ensures Model() == Exit(old(Model()))
    {
      alive, exited := false, true;
      ghost var before := settled;
      for i := 0 to |pendingRequests|
        invariant unchanged(`pendingRequests) && unchanged(`killed) && unchanged(`listed) && unchanged(`rpcIdCounter)
        invariant unchanged(`lineBuffer) && unchanged(`sent) && unchanged(`thrown) && unchanged(`heard)
        invariant !alive && exited
        invariant liveTimers == old(liveTimers) - set id | id in pendingRequests[..i]
        invariant settled == before + ExitSettlements(pendingRequests[..i])
      {
        assert pendingRequests[..i + 1] == pendingRequests[..i] + [pendingRequests[i]];
        liveTimers := liveTimers - {pendingRequests[i]};
        settled := settled + [Settlement(pendingRequests[i], Exited)];
      }
      assert pendingRequests[..|pendingRequests|] == pendingRequests;
      pendingRequests := [];
      if killed {
        listed := false;
      }
    }

    method KillProcess()
      modifies this
      ensures Model() == Kill(old(Model()))
    {
      if listed {
        alive, killed := false, true;
      }
    }

    method ForceCleanUp()
      modifies this
      ensures Model() == CleanUp(old(Model()))
    {
      if killed {
        listed := false;
      }
    }
  }
}
