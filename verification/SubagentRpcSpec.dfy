/** Talking to a subagent process: framing of its output into lines, and the table of pending requests.

    The state is a value here and every event handler a function on it; `SubagentRpc.dfy` runs the
    same handlers on fields that are updated in place. `sent`, `thrown`, `heard` and `settled` are
    history: the ids sent, those whose request text could not be written, the lines handled, and the
    calls of resolve and reject in their order. */
module SubagentRpcSpec {
  import opened JsText

  datatype RpcId = NoId | Number(n: int) | Text(s: string)

  /** A parsed line: an object with these members (anything else is not a message). */
  datatype Message = Message(name: string, id: RpcId, hasError: bool)

  datatype Parsed = NotJson | Parsed(message: Message)

  type Parser = string -> Parsed

  datatype Outcome = Resolved | Rejected | TimedOut | Exited | Thrown

  datatype Settlement = Settlement(id: nat, outcome: Outcome)

  /** `pending` lists the keys of the table in insertion order. */
  datatype Proc = Proc(
    alive: bool, listed: bool, killed: bool, exited: bool, counter: nat,
    pending: seq<nat>, timers: set<nat>, lineBuffer: string,
    sent: set<nat>, thrown: set<nat>, heard: seq<string>, settled: seq<Settlement>)

  function Spawned(counter: nat): Proc {
    Proc(true, true, false, false, counter, [], {}, "", {}, {}, [], [])
  }

  function Remove(ids: seq<nat>, id: nat): seq<nat> {
    if ids == [] then [] else (if ids[0] == id then [] else [ids[0]]) + Remove(ids[1..], id)
  }

  // ---------- lines ----------

  /** Splitting at line feeds: always at least one part. */
  function Parts(text: string): (parts: seq<string>)
    ensures parts != []
  {
    if text == "" then [""]
    else
      var rest := Parts(text[1..]);
      if text[0] == '\n' then [""] + rest else [[text[0]] + rest[0]] + rest[1..]
  }

  function Last(parts: seq<string>): string
    requires parts != []
  {
    parts[|parts| - 1]
  }

  function Front(parts: seq<string>): seq<string>
    requires parts != []
  {
    parts[..|parts| - 1]
  }

  // ---------- handlers ----------

  function Settle(p: Proc, id: nat, outcome: Outcome): Proc {
    p.(pending := Remove(p.pending, id), timers := p.timers - {id}, settled := p.settled + [Settlement(id, outcome)])
  }

  /** Only a message with a known id touches the table, and a heartbeat never does. */
  function HandleMessage(p: Proc, m: Message): Proc {
    if m.name == "heartbeat" then p
    else if m.id.Number? && m.id.n >= 0 && m.id.n in p.pending then
      Settle(p, m.id.n, if m.hasError then Rejected else Resolved)
    else p
  }

  function HandleLine(parse: Parser, p: Proc, line: string): Proc {
    var trimmed := Trim(line);
    if trimmed == "" then p
    else
      var p1 := p.(heard := p.heard + [trimmed]);
      match parse(trimmed)
      case NotJson => p1
      case Parsed(m) => HandleMessage(p1, m)
  }

  function HandleLines(parse: Parser, p: Proc, lines: seq<string>): Proc {
    if lines == [] then p else HandleLine(parse, HandleLines(parse, p, lines[..|lines| - 1]), lines[|lines| - 1])
  }

  /** One chunk of decoded output. */
  function Feed(parse: Parser, p: Proc, chunk: string): Proc {
    var parts := Parts(p.lineBuffer + chunk);
    HandleLines(parse, p.(lineBuffer := Last(parts)), Front(parts))
  }

  /** A request: refused when the process is gone, else filed before its text is written. */
  function Send(p: Proc, writable: bool): Proc {
    if !p.listed || !p.alive then p
    else
      var id := p.counter + 1;
      var filed := p.(counter := id, pending := p.pending + [id], timers := p.timers + {id}, sent := p.sent + {id});
      if writable then filed
      else filed.(thrown := p.thrown + {id}, settled := p.settled + [Settlement(id, Thrown)])
  }

  /** The counter is shared by all processes. */
  function OtherSend(p: Proc): Proc { p.(counter := p.counter + 1) }

  function Timeout(p: Proc, id: nat): Proc {
    if id in p.timers then Settle(p, id, TimedOut) else p
  }

  function ExitSettlements(ids: seq<nat>): seq<Settlement> {
    seq(|ids|, i requires 0 <= i < |ids| => Settlement(ids[i], Exited))
  }

  function Exit(p: Proc): Proc {
    p.(alive := false, exited := true, listed := p.listed && !p.killed, pending := [],
       timers := p.timers - (set id | id in p.pending), settled := p.settled + ExitSettlements(p.pending))
  }

  function Kill(p: Proc): Proc {
    if p.listed then p.(alive := false, killed := true) else p
  }

  /** The force timer of a kill, or a kill signal that could not be sent. */
  function CleanUp(p: Proc): Proc {
    if p.killed then p.(listed := false) else p
  }

  datatype Event =
    | Sends(writable: bool)
    | OtherSends
    | Data(chunk: string)
    | TimerFires(id: nat)
    | Exits
    | Killed
    | CleansUp

  function Step(parse: Parser, p: Proc, e: Event): Proc {
    match e
    case Sends(writable) => Send(p, writable)
    case OtherSends => OtherSend(p)
    case Data(chunk) => Feed(parse, p, chunk)
    case TimerFires(id) => Timeout(p, id)
    case Exits => Exit(p)
    case Killed => Kill(p)
    case CleansUp => CleanUp(p)
  }

  function Run(parse: Parser, p: Proc, events: seq<Event>): Proc {
    if events == [] then p else Step(parse, Run(parse, p, events[..|events| - 1]), events[|events| - 1])
  }
}
