/**
  integrations/deepseek-harness: SessionRuns (session-runs.ts) as a machine of
  concurrent operations. An operation's body runs from one await to the next in one
  step; the server handles its pending request in another. Any number of sessions,
  any order of steps, other writers on the same server, lost replies.
 */
module Sessions {
  import opened ByteStrings

  /******* JavaScript strings and run ids *******/

  type Unit = u: int | 0 <= u < 0x1_0000

  type Text = seq<Unit>

  // [A-Za-z0-9._-]
  predicate IsSafe(u: Unit) {
    48 <= u <= 57 || 65 <= u <= 90 || 97 <= u <= 122 || u == 46 || u == 95 || u == 45
  }

  const DASH: Unit := 45
  // "dsh-" and "session"
  const DSH: Text := [100, 115, 104, 45]
  const SESSION: Text := [115, 101, 115, 115, 105, 111, 110]

  function Sanitize(s: Text): (r: Text)
    ensures |r| == |s|
  {
    seq(|s|, i requires 0 <= i < |s| => if IsSafe(s[i]) then s[i] else DASH)
  }

  function RunIdBase(session: Text): Text {
    var safe := Sanitize(session);
    var cut := if |safe| <= 96 then safe else safe[..96];
    DSH + if cut == [] then SESSION else cut
  }

  function Decimal(n: nat): (d: Text)
    ensures d != []
  {
    if n < 10 then [48 + n] else Decimal(n / 10) + [48 + n % 10]
  }

  function RunId(session: Text, epoch: nat): Text {
    if epoch == 1 then RunIdBase(session) else RunIdBase(session) + [DASH] + Decimal(epoch)
  }

  const MAX_EPOCH_PROBE: nat := 16

  /******* The server *******/

  datatype ServerRun = ServerRun(committed: bool, mounts: seq<Text>)

  type Server = map<Text, ServerRun>

  // What becomes of a request: handled; answered 500 without effect; failed without
  // effect; or handled, with the reply lost on the way.
  datatype Fate = Honest | Refuse | FailBefore | LoseReply

  datatype StartReply = Created | Refused | StartFailed

  // Landed gives the position the mount was recorded at.
  datatype MountReply = Landed(position: nat) | MountFailed

  function ServeStart(server: Server, id: Text, fate: Fate): (Server, StartReply) {
    match fate
    case Honest => if id in server then (server, Refused) else (server[id := ServerRun(false, [])], Created)
    case Refuse => (server, Refused)
    case FailBefore => (server, StartFailed)
    case LoseReply => (if id in server then server else server[id := ServerRun(false, [])], StartFailed)
  }

  predicate Accepts(server: Server, id: Text) { id in server && !server[id].committed }

  function Append(server: Server, id: Text, uri: Text): Server
    requires id in server
  {
    server[id := server[id].(mounts := server[id].mounts + [uri])]
  }

  function ServeMount(server: Server, id: Text, uri: Text, fate: Fate): (Server, MountReply) {
    if !Accepts(server, id) || fate == Refuse || fate == FailBefore then (server, MountFailed)
    else if fate == Honest then (Append(server, id, uri), Landed(|server[id].mounts|))
    else (Append(server, id, uri), MountFailed)
  }

  function ServeCommit(server: Server, id: Text, fate: Fate): Server {
    if !Accepts(server, id) || fate == Refuse || fate == FailBefore then server
    else server[id := server[id].(committed := true)]
  }

  /******* The client *******/

  // A SessionState object. held is the heap of them; states points into it.
  datatype Held = Held(session: Text, runId: Text, epoch: nat, entries: nat, open: bool)

  datatype Op = MountOp(uri: Text) | CommitOp

  datatype Ticket = Ticket(number: nat, op: Op)

  datatype Call = Call(session: Text, op: Op)

  // The operation a chain is in the middle of, and the reply it is waiting for.
  datatype Activity =
    | Idle
    | Opening(number: nat, uri: Text, from: nat, epoch: nat, started: Option<StartReply>)
    | Mounting(number: nat, uri: Text, obj: nat, landed: Option<MountReply>)
    | Committing(obj: nat, served: bool)

  // One promise chain: operations run one after another in the order they were queued.
  datatype Chain = Chain(session: Text, waiting: seq<Ticket>, activity: Activity)

  // A mount recorded in run held[obj].
  datatype Row = Row(obj: nat, position: nat, uri: Text)

  datatype Done = Done(number: nat, row: Row)

  datatype Machine = Machine(
    server: Server,
    states: map<Text, nat>,        // session to its SessionState
    held: seq<Held>,
    queues: map<Text, nat>,        // session to the chain new operations join
    chains: seq<Chain>,
    calls: seq<Call>,              // every operation requested, in order
    done: map<Text, seq<Done>>)    // every mount that returned, per session, in order

  const START: Machine := Machine(map[], map[], [], map[], [], [], map[])

  datatype Action =
    | CallMount(session: Text, uri: Text)
    | CallCommit(session: Text)
    | CallCommitIfOwned(target: Text)
    | Forget(session: Text)
    | Begin(c: nat)
    | Serve(c: nat, fate: Fate)
    | Continue(c: nat)
    | OutsideStart(id: Text)
    | OutsideMount(id: Text, uri: Text)
    | OutsideCommit(id: Text)

  function DoneOf(m: Machine, session: Text): seq<Done> {
    if session in m.done then m.done[session] else []
  }

  // serialize: join the session's chain, or begin one.
  function Enqueue(m: Machine, session: Text, op: Op): Machine {
    var ticket := Ticket(|m.calls|, op);
    var m' := m.(calls := m.calls + [Call(session, op)]);
    if session in m.queues && m.queues[session] < |m.chains| then
      var c := m.queues[session];
      m'.(chains := m.chains[c := m.chains[c].(waiting := m.chains[c].waiting + [ticket])])
    else
      m'.(chains := m.chains + [Chain(session, [ticket], Idle)], queues := m.queues[session := |m.chains|])
  }

  // The session whose open run is target.
  predicate Owns(m: Machine, session: Text, target: Text) {
    && session in m.states && m.states[session] < |m.held|
    && m.held[m.states[session]].runId == target && m.held[m.states[session]].open
  }

  function Current(m: Machine, session: Text): Option<nat> {
    if session in m.states && m.states[session] < |m.held| then Some(m.states[session]) else None
  }

  function SetActivity(m: Machine, c: nat, a: Activity): Machine
    requires c < |m.chains|
  {
    m.(chains := m.chains[c := m.chains[c].(activity := a)])
  }

  // The first segment of an operation's body.
  function Starting(m: Machine, c: nat, t: Ticket): Machine
    requires c < |m.chains|
  {
    var session := m.chains[c].session;
    var obj := Current(m, session);
    match t.op
    case MountOp(uri) =>
      if obj.Some? && m.held[obj.value].open then SetActivity(m, c, Mounting(t.number, uri, obj.value, None))
      else
        var from := if obj.Some? then m.held[obj.value].epoch + 1 else 1;
        SetActivity(m, c, Opening(t.number, uri, from, from, None))
    case CommitOp =>
      if obj.None? || !m.held[obj.value].open then SetActivity(m, c, Idle)
      else
        var h := m.held[obj.value];
        var closed := m.(held := m.held[obj.value := h.(open := false)]);
        SetActivity(closed, c, if h.entries == 0 then Idle else Committing(obj.value, false))
  }

  function BeginNext(m: Machine, c: nat): Machine
    requires c < |m.chains|
  {
    var chain := m.chains[c];
    if !chain.activity.Idle? || chain.waiting == [] then m
    else Starting(m.(chains := m.chains[c := chain.(waiting := chain.waiting[1..])]), c, chain.waiting[0])
  }

  // The server handles the request chain c is waiting on.
  function ServeChain(m: Machine, c: nat, fate: Fate): Machine
    requires c < |m.chains|
  {
    var session, a := m.chains[c].session, m.chains[c].activity;
    match a
    case Idle => m
    case Opening(_, _, _, epoch, started) =>
      if started.Some? then m
      else
        var (server, reply) := ServeStart(m.server, RunId(session, epoch), fate);
        SetActivity(m.(server := server), c, a.(started := Some(reply)))
    case Mounting(_, uri, obj, landed) =>
      if landed.Some? || obj >= |m.held| then m
      else
        var (server, reply) := ServeMount(m.server, m.held[obj].runId, uri, fate);
        SetActivity(m.(server := server), c, a.(landed := Some(reply)))
    case Committing(obj, served) =>
      if served || obj >= |m.held| then m
      else
        SetActivity(m.(server := ServeCommit(m.server, m.held[obj].runId, fate)), c, a.(served := true))
  }

  // The body goes on with the reply.
  function ContinueChain(m: Machine, c: nat): Machine
    requires c < |m.chains|
  {
    var session, a := m.chains[c].session, m.chains[c].activity;
    match a
    case Idle => m
    case Opening(number, uri, from, epoch, started) =>
      (match started
       case None => m
       case Some(Created) =>
         var obj := |m.held|;
         var grown := m.(
           held := m.held + [Held(session, RunId(session, epoch), epoch, 0, true)],
           states := m.states[session := obj]);
         SetActivity(grown, c, Mounting(number, uri, obj, None))
       case Some(Refused) =>
         if epoch + 1 < from + MAX_EPOCH_PROBE then SetActivity(m, c, Opening(number, uri, from, epoch + 1, None))
         else SetActivity(m, c, Idle)
       case Some(StartFailed) => SetActivity(m, c, Idle))
    case Mounting(number, uri, obj, landed) =>
      (match landed
       case None => m
       case Some(MountFailed) => SetActivity(m, c, Idle)
       case Some(Landed(position)) =>
         if obj >= |m.held| then m
         else
           var recorded := m.(
             held := m.held[obj := m.held[obj].(entries := position + 1)],
             done := m.done[session := DoneOf(m, session) + [Done(number, Row(obj, position, uri))]]);
           SetActivity(recorded, c, Idle))
    case Committing(_, served) => if served then SetActivity(m, c, Idle) else m
  }

  ghost function Next(m: Machine, a: Action): Machine {
    match a
    case CallMount(session, uri) => Enqueue(m, session, MountOp(uri))
    case CallCommit(session) => Enqueue(m, session, CommitOp)
    case CallCommitIfOwned(target) =>
      if session :| Owns(m, session, target) then Enqueue(m, session, CommitOp) else m
    case Forget(session) => m.(states := m.states - {session}, queues := m.queues - {session})
    case Begin(c) => if c < |m.chains| then BeginNext(m, c) else m
    case Serve(c, fate) => if c < |m.chains| then ServeChain(m, c, fate) else m
    case Continue(c) => if c < |m.chains| then ContinueChain(m, c) else m
    case OutsideStart(id) => if id in m.server then m else m.(server := m.server[id := ServerRun(false, [])])
    case OutsideMount(id, uri) => if Accepts(m.server, id) then m.(server := Append(m.server, id, uri)) else m
    case OutsideCommit(id) =>
      if id in m.server then m.(server := m.server[id := m.server[id].(committed := true)]) else m
  }

  ghost function Exec(m: Machine, actions: seq<Action>): Machine
    decreases |actions|
  {
    if actions == [] then m else Exec(Next(m, actions[0]), actions[1..])
  }
}
