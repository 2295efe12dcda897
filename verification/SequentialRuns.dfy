/**
  SessionRuns (session-runs.ts) in the form the program has it: an object with a map
  of SessionState objects whose fields its methods overwrite. Here every await is
  answered before anything else happens; such a call is proved to be one of the runs
  of the concurrent machine, so everything proved of the machine holds of it.
 */
module SequentialRuns {
  import opened ByteStrings
  import opened Sessions
  import opened SessionOwnership
  import opened SessionFrames
  import opened SessionHistory
  import opened SessionCommit

  // The server, and each session's current state.
  datatype View = View(server: Server, states: map<Text, Held>)

  /******* What each operation does *******/

  // The probing of epochs from.. for an unused id: the epoch that was started, if any.
  function Probe(server: Server, session: Text, from: nat, epoch: nat, fates: nat -> Fate): (Server, Option<nat>)
    requires from <= epoch <= from + MAX_EPOCH_PROBE
    decreases from + MAX_EPOCH_PROBE - epoch
  {
    if epoch == from + MAX_EPOCH_PROBE then (server, None)
    else
      var (server', reply) := ServeStart(server, RunId(session, epoch), fates(epoch));
      match reply
      case Created => (server', Some(epoch))
      case Refused => Probe(server', session, from, epoch + 1, fates)
      case StartFailed => (server', None)
  }

  function From(v: View, session: Text): nat {
    if session in v.states then v.states[session].epoch + 1 else 1
  }

  predicate HasOpen(v: View, session: Text) { session in v.states && v.states[session].open }

  function AfterOpen(v: View, session: Text, fates: nat -> Fate): (View, bool) {
    if HasOpen(v, session) then (v, true)
    else
      var (server, epoch) := Probe(v.server, session, From(v, session), From(v, session), fates);
      match epoch
      case None => (View(server, v.states), false)
      case Some(e) => (View(server, v.states[session := Held(session, RunId(session, e), e, 0, true)]), true)
  }

  datatype SessionMount = SessionMount(runId: Text, position: nat)

  function AfterRecord(v: View, session: Text, uri: Text, fate: Fate): (View, Option<SessionMount>)
    requires session in v.states
  {
    var h := v.states[session];
    var (server, reply) := ServeMount(v.server, h.runId, uri, fate);
    match reply
    case MountFailed => (View(server, v.states), None)
    case Landed(p) => (View(server, v.states[session := h.(entries := p + 1)]), Some(SessionMount(h.runId, p)))
  }

  function AfterMount(v: View, session: Text, uri: Text, fates: nat -> Fate, fate: Fate): (View, Option<SessionMount>) {
    var (w, ok) := AfterOpen(v, session, fates);
    if !ok then (w, None) else AfterRecord(w, session, uri, fate)
  }

  // The run whose commit is requested, if any.
  function AfterCommit(v: View, session: Text, fate: Fate): (View, Option<Text>) {
    if !HasOpen(v, session) then (v, None)
    else
      var h := v.states[session];
      var closed := v.states[session := h.(open := false)];
      if h.entries == 0 then (View(v.server, closed), None)
      else (View(ServeCommit(v.server, h.runId, fate), closed), Some(h.runId))
  }

  /******* The object *******/

  class SessionState {
    const session: Text
    const runId: Text
    const epoch: nat
    var entries: nat
    var open: bool

    constructor (session: Text, runId: Text, epoch: nat)
      ensures this.session == session && this.runId == runId && this.epoch == epoch && entries == 0 && open
    {
      this.session, this.runId, this.epoch, entries, open := session, runId, epoch, 0, true;
    }

    function Value(): Held
      reads this
    {
      Held(session, runId, epoch, entries, open)
    }
  }

  class SessionRuns {
    var states: map<Text, SessionState>
    var server: Server

    // Each session has a state object of its own.
    ghost predicate Valid()
      reads this
    {
      forall s | s in states :: states[s].session == s
    }

    ghost function Value(): View
      reads this, states.Values
    {
      View(server, map s | s in states :: states[s].Value())
    }

    constructor (server: Server)
      ensures Valid() && Value() == View(server, map[])
    {
      this.server, states := server, map[];
    }

    method StartRun(runId: Text, fate: Fate) returns (reply: StartReply)
      modifies this`server
      ensures (server, reply) == ServeStart(old(server), runId, fate)
    {
      var (after, r) := ServeStart(server, runId, fate);
      server, reply := after, r;
    }

    method Hold(session: Text, runId: Text, epoch: nat)
      requires Valid()
      modifies this`states
      ensures Valid() && session in states && fresh(states[session])
      ensures states == old(states)[session := states[session]]
      ensures Value() == View(server, old(Value()).states[session := Held(session, runId, epoch, 0, true)])
    {
      ghost var v := Value();
      var state := new SessionState(session, runId, epoch);
      states := states[session := state];
      assert Value().states == v.states[session := state.Value()];
    }

    // The probing loop: the first epoch of the window whose id the server would start.
    method FindUnused(session: Text, from: nat, fates: nat -> Fate) returns (found: Option<nat>)
      modifies this`server
      ensures (server, found) == Probe(old(server), session, from, from, fates)
    {
      var epoch := from;
      while epoch < from + MAX_EPOCH_PROBE
        invariant from <= epoch <= from + MAX_EPOCH_PROBE
        invariant Probe(server, session, from, epoch, fates) == Probe(old(server), session, from, from, fates)
      {
        var reply := StartRun(RunId(session, epoch), fates(epoch));
        match reply {
          case Refused =>
          case StartFailed => return None;
          case Created => return Some(epoch);
        }
        epoch := epoch + 1;
      }
      return None;
    }

    method Open(session: Text, fates: nat -> Fate) returns (ok: bool)
      requires Valid()
      modifies this
      ensures Valid() && (Value(), ok) == AfterOpen(old(Value()), session, fates)
      ensures ok ==> session in states
      ensures ok ==> fresh(states[session]) || (session in old(states) && states[session] == old(states[session]))
    {
      if session in states && states[session].open {
        return true;
      }
      ghost var v := Value();
      assert HasOpen(v, session) <==> session in states && states[session].open;
      var from := if session in states then states[session].epoch + 1 else 1;
      var found := FindUnused(session, from, fates);
      assert Value().states == v.states;
      if found.None? {
        return false;
      }
      Hold(session, RunId(session, found.value), found.value);
      return true;
    }

    method Mount(session: Text, uri: Text, fates: nat -> Fate, fate: Fate) returns (r: Option<SessionMount>)
      requires Valid()
      modifies this, states.Values
      ensures Valid() && (Value(), r) == AfterMount(old(Value()), session, uri, fates, fate)
    {
      var ok := Open(session, fates);
      if !ok {
        return None;
      }
      r := Record(session, uri, fate);
    }

    method Record(session: Text, uri: Text, fate: Fate) returns (r: Option<SessionMount>)
      requires Valid() && session in states
      modifies this`server, states[session]
      ensures Valid() && (Value(), r) == AfterRecord(old(Value()), session, uri, fate)
    {
      var state := states[session];
      ghost var v := Value();
      var (after, reply) := ServeMount(server, state.runId, uri, fate);
      server := after;
      match reply {
        case MountFailed =>
          assert Value().states == v.states;
          return None;
        case Landed(position) =>
          state.entries := position + 1;
          assert Value().states == v.states[session := state.Value()];
          return Some(SessionMount(state.runId, position));
      }
    }

    method Commit(session: Text, fate: Fate) returns (committed: Option<Text>)
      requires Valid()
      modifies this`server, states.Values
      ensures Valid() && (Value(), committed) == AfterCommit(old(Value()), session, fate)
    {
      if session !in states || !states[session].open {
        return None;
      }
      var state := states[session];
      ghost var v := Value();
      state.open := false;
      assert Value().states == v.states[session := state.Value()];
      if state.entries == 0 {
        return None;
      }
      server := ServeCommit(server, state.runId, fate);
      assert Value().states == v.states[session := state.Value()];
      return Some(state.runId);
    }

    method Forget(session: Text)
      requires Valid()
      modifies this`states
      ensures Valid() && Value() == View(old(server), old(Value()).states - {session})
    {
      states := states - {session};
    }
  }

  /******* Such calls are runs of the machine *******/

  ghost function ViewOf(m: Machine): View {
    View(m.server, map s | s in m.states && m.states[s] < |m.held| :: m.held[m.states[s]])
  }

  // Nothing of the session is queued or running.
  ghost predicate Resting(m: Machine, session: Text) {
    session in m.queues ==>
      m.queues[session] < |m.chains| && m.chains[m.queues[session]] == Chain(session, [], Idle)
  }

  // Chain c is the session's, is in the middle of a, and has nothing waiting.
  ghost predicate Working(m: Machine, c: nat, session: Text, a: Activity) {
    c < |m.chains| && m.chains[c] == Chain(session, [], a) && session in m.queues && m.queues[session] == c
  }

  lemma CurrentInView(m: Machine, session: Text)
    requires MachineOk(m)
    ensures Current(m, session).Some? <==> session in ViewOf(m).states
    ensures Current(m, session).Some? ==> ViewOf(m).states[session] == m.held[Current(m, session).value]
    ensures Current(m, session).Some? ==> m.states[session] == Current(m, session).value
  {
  }

  /******* Views *******/

  lemma ViewSame(m: Machine, n: Machine)
    requires n.states == m.states && n.held == m.held
    ensures ViewOf(n) == View(n.server, ViewOf(m).states) && ViewOf(m).server == m.server
  {
  }

  // States point at objects, each session's at its own.
  ghost predicate StatesApart(m: Machine) {
    && (forall s | s in m.states :: m.states[s] < |m.held|)
    && (forall s, t | s in m.states && t in m.states && s != t :: m.states[s] != m.states[t])
  }

  lemma StatesAreApart(m: Machine)
    requires MachineOk(m)
    ensures StatesApart(m)
  {
  }

  lemma ViewUpdated(m: Machine, n: Machine, session: Text, h: Held)
    requires StatesApart(m) && session in m.states
    requires n.states == m.states && n.held == m.held[m.states[session] := h]
    ensures ViewOf(n) == View(n.server, ViewOf(m).states[session := h])
  {
    assert ViewOf(n).states == ViewOf(m).states[session := h];
  }

  lemma ViewGrown(m: Machine, n: Machine, session: Text, h: Held)
    requires StatesApart(m)
    requires n.states == m.states[session := |m.held|] && n.held == m.held + [h]
    ensures ViewOf(n) == View(n.server, ViewOf(m).states[session := h])
  {
    assert ViewOf(n).states == ViewOf(m).states[session := h];
  }

  /******* Steps of one working chain *******/

  ghost predicate SameButChains(m: Machine, n: Machine) {
    n.server == m.server && n.held == m.held && n.states == m.states && n.done == m.done
  }

  lemma Ask(m: Machine, session: Text, op: Op) returns (q: Machine, c: nat)
    requires MachineOk(m) && Resting(m, session)
    ensures q == Enqueue(m, session, op) && MachineOk(q) && SameButChains(m, q)
    ensures c < |q.chains| && q.chains[c] == Chain(session, [Ticket(|m.calls|, op)], Idle)
    ensures session in q.queues && q.queues[session] == c
  {
    q := Enqueue(m, session, op);
    EnqueueKeeps(m, session, op);
    hide MachineOk;
    c := q.queues[session];
    assert [] + [Ticket(|m.calls|, op)] == [Ticket(|m.calls|, op)];
  }

  lemma BeginMount(q: Machine, c: nat, session: Text, number: nat, uri: Text) returns (n: Machine)
    requires MachineOk(q) && c < |q.chains| && q.chains[c] == Chain(session, [Ticket(number, MountOp(uri))], Idle)
    requires session in q.queues && q.queues[session] == c
    ensures n == BeginNext(q, c) && MachineOk(n) && SameButChains(q, n)
    ensures Working(n, c, session, FirstActivity(q, session, number, uri))
  {
    n := BeginNext(q, c);
    BeginKeeps(q, c);
    hide MachineOk;
  }

  // A mount goes into the open run, or opens one.
  function FirstActivity(m: Machine, session: Text, number: nat, uri: Text): Activity {
    var obj := Current(m, session);
    if obj.Some? && m.held[obj.value].open then Mounting(number, uri, obj.value, None)
    else
      var from := if obj.Some? then m.held[obj.value].epoch + 1 else 1;
      Opening(number, uri, from, from, None)
  }

  lemma FirstActivityInView(m: Machine, q: Machine, session: Text, number: nat, uri: Text)
    requires MachineOk(m) && SameButChains(m, q)
    ensures var v := ViewOf(m);
            && (HasOpen(v, session) ==> session in m.states)
            && FirstActivity(q, session, number, uri) ==
               if HasOpen(v, session) then Mounting(number, uri, m.states[session], None)
               else Opening(number, uri, From(v, session), From(v, session), None)
  {
    CurrentInView(m, session);
    hide MachineOk;
    hide ViewOf;
    assert Current(q, session) == Current(m, session);
  }

  lemma AskAndBegin(m: Machine, session: Text, uri: Text) returns (n: Machine, c: nat)
    requires MachineOk(m) && Resting(m, session)
    ensures n == Exec(m, [CallMount(session, uri), Begin(c)]) && MachineOk(n) && SameButChains(m, n)
    ensures var v := ViewOf(m);
            && (HasOpen(v, session) ==> session in m.states)
            && Working(n, c, session,
                 if HasOpen(v, session) then Mounting(|m.calls|, uri, m.states[session], None)
                 else Opening(|m.calls|, uri, From(v, session), From(v, session), None))
  {
    var q: Machine;
    q, c := Ask(m, session, MountOp(uri));
    n := BeginMount(q, c, session, |m.calls|, uri);
    FirstActivityInView(m, q, session, |m.calls|, uri);
    hide MachineOk;
    hide Enqueue;
    hide BeginNext;
    hide FirstActivity;
    hide ViewOf;
    hide HasOpen;
    hide From;
    hide Working;
    ExecTwo(m, CallMount(session, uri), Begin(c));
  }

  // One request of the probing loop and its reply.
  lemma ProbeStep(
    m: Machine, c: nat, session: Text, number: nat, uri: Text, from: nat, epoch: nat, fate: Fate)
    returns (n: Machine)
    requires MachineOk(m) && from <= epoch < from + MAX_EPOCH_PROBE
    requires Working(m, c, session, Opening(number, uri, from, epoch, None))
    ensures n == Exec(m, [Serve(c, fate), Continue(c)]) && MachineOk(n) && n.done == m.done
    ensures var (server, reply) := ServeStart(m.server, RunId(session, epoch), fate);
            && n.server == server
            && if reply == Created then
                 && n.held == m.held + [Held(session, RunId(session, epoch), epoch, 0, true)]
                 && n.states == m.states[session := |m.held|]
                 && Working(n, c, session, Mounting(number, uri, |m.held|, None))
               else
                 && n.held == m.held && n.states == m.states
                 && Working(n, c, session,
                      if reply == Refused && epoch + 1 < from + MAX_EPOCH_PROBE
                      then Opening(number, uri, from, epoch + 1, None) else Idle)
  {
    var (server, reply) := ServeStart(m.server, RunId(session, epoch), fate);
    var served := SetActivity(m.(server := server), c, Opening(number, uri, from, epoch, Some(reply)));
    ServeKeeps(m, c, fate);
    ContinueKeeps(served, c);
    n := ContinueChain(served, c);
    hide MachineOk;
    hide RunId;
    hide ServeStart;
    assert ServeChain(m, c, fate) == served;
    hide ServeChain;
    ExecTwo(m, Serve(c, fate), Continue(c));
  }

  // The probing loop, one request and one reply at a time.
  lemma {:induction false} ProbeIsRun(
    m: Machine, c: nat, session: Text, number: nat, uri: Text, from: nat, epoch: nat, fates: nat -> Fate)
    returns (n: Machine, actions: seq<Action>)
    requires MachineOk(m) && from <= epoch < from + MAX_EPOCH_PROBE
    requires Working(m, c, session, Opening(number, uri, from, epoch, None))
    ensures n == Exec(m, actions) && MachineOk(n) && n.done == m.done
    ensures var (server, found) := Probe(m.server, session, from, epoch, fates);
            && n.server == server
            && match found
               case None => n.held == m.held && n.states == m.states && Working(n, c, session, Idle)
               case Some(e) =>
                 && n.held == m.held + [Held(session, RunId(session, e), e, 0, true)]
                 && n.states == m.states[session := |m.held|]
                 && Working(n, c, session, Mounting(number, uri, |m.held|, None))
    decreases from + MAX_EPOCH_PROBE - epoch
  {
    hide MachineOk;
    hide Exec;
    hide RunId;
    hide ServeStart;
    hide Working;
    actions := [Serve(c, fates(epoch)), Continue(c)];
    n := ProbeStep(m, c, session, number, uri, from, epoch, fates(epoch));
    var reply := ServeStart(m.server, RunId(session, epoch), fates(epoch)).1;
    if reply == Refused && epoch + 1 < from + MAX_EPOCH_PROBE {
      var next := n;
      var rest: seq<Action>;
      n, rest := ProbeIsRun(next, c, session, number, uri, from, epoch + 1, fates);
      ExecAppend(m, actions, rest);
      actions := actions + rest;
    }
  }

  lemma RecordStep(m: Machine, c: nat, session: Text, number: nat, uri: Text, obj: nat, fate: Fate)
    returns (n: Machine)
    requires MachineOk(m) && Working(m, c, session, Mounting(number, uri, obj, None)) && obj < |m.held|
    ensures n == Exec(m, [Serve(c, fate), Continue(c)]) && n.states == m.states && Resting(n, session)
    ensures var (server, reply) := ServeMount(m.server, m.held[obj].runId, uri, fate);
            && n.server == server
            && match reply
               case MountFailed => n.held == m.held && DoneOf(n, session) == DoneOf(m, session)
               case Landed(p) =>
                 && n.held == m.held[obj := m.held[obj].(entries := p + 1)]
                 && DoneOf(n, session) == DoneOf(m, session) + [Done(number, Row(obj, p, uri))]
  {
    n := ContinueChain(ServeChain(m, c, fate), c);
    RecordsReply(m, c, session, number, uri, obj, fate);
    hide MachineOk;
    hide ServeChain;
    hide ContinueChain;
    ExecTwo(m, Serve(c, fate), Continue(c));
  }

  lemma RecordsReply(m: Machine, c: nat, session: Text, number: nat, uri: Text, obj: nat, fate: Fate)
    requires Working(m, c, session, Mounting(number, uri, obj, None)) && obj < |m.held|
    ensures var served := ServeChain(m, c, fate);
            c < |served.chains| &&
            var n := ContinueChain(served, c);
            var (server, reply) := ServeMount(m.server, m.held[obj].runId, uri, fate);
            && n.states == m.states && Resting(n, session) && n.server == server
            && match reply
               case MountFailed => n.held == m.held && DoneOf(n, session) == DoneOf(m, session)
               case Landed(p) =>
                 && n.held == m.held[obj := m.held[obj].(entries := p + 1)]
                 && DoneOf(n, session) == DoneOf(m, session) + [Done(number, Row(obj, p, uri))]
  {
    hide ServeMount;
  }

  // Between m and n the session's mount of uri returned r.
  ghost predicate Returned(m: Machine, n: Machine, session: Text, uri: Text, r: Option<SessionMount>) {
    match r
    case None => DoneOf(n, session) == DoneOf(m, session)
    case Some(mount) =>
      exists d: Done ::
        && DoneOf(n, session) == DoneOf(m, session) + [d]
        && d.row.uri == uri && d.row.position == mount.position
        && d.row.obj < |n.held| && n.held[d.row.obj].runId == mount.runId
  }

  lemma ReturnedHere(m: Machine, n: Machine, session: Text, d: Done)
    requires DoneOf(n, session) == DoneOf(m, session) + [d] && d.row.obj < |n.held|
    ensures Returned(m, n, session, d.row.uri, Some(SessionMount(n.held[d.row.obj].runId, d.row.position)))
  {
  }

  lemma NothingReturned(m: Machine, n: Machine, session: Text, uri: Text)
    requires DoneOf(n, session) == DoneOf(m, session)
    ensures Returned(m, n, session, uri, None)
  {
  }

  lemma ReturnedFrom(m: Machine, m': Machine, n: Machine, session: Text, uri: Text, r: Option<SessionMount>)
    requires Returned(m', n, session, uri, r) && DoneOf(m', session) == DoneOf(m, session)
    ensures Returned(m, n, session, uri, r)
  {
  }

  lemma RecordIsRun(m: Machine, c: nat, session: Text, number: nat, uri: Text, fate: Fate)
    requires MachineOk(m) && session in m.states
    requires Working(m, c, session, Mounting(number, uri, m.states[session], None))
    ensures var n := Exec(m, [Serve(c, fate), Continue(c)]);
            && session in ViewOf(m).states
            && var (w, r) := AfterRecord(ViewOf(m), session, uri, fate);
               ViewOf(n) == w && Resting(n, session) && Returned(m, n, session, uri, r)
  {
    hide MachineOk;
    hide StatesApart;
    hide ViewOf;
    hide Exec;
    hide ServeMount;
    hide Working;
    hide Resting;
    StateInView(m, session);
    StatesAreApart(m);
    var obj := m.states[session];
    var n := RecordStep(m, c, session, number, uri, obj, fate);
    var reply := ServeMount(m.server, m.held[obj].runId, uri, fate).1;
    if reply.MountFailed? {
      ViewSame(m, n);
    } else {
      ViewUpdated(m, n, session, m.held[obj].(entries := reply.position + 1));
      ReturnedHere(m, n, session, Done(number, Row(obj, reply.position, uri)));
    }
  }

  lemma StateInView(m: Machine, session: Text)
    requires MachineOk(m) && session in m.states
    ensures m.states[session] < |m.held| && session in ViewOf(m).states
    ensures ViewOf(m).states[session] == m.held[m.states[session]] && ViewOf(m).server == m.server
  {
  }

  // MAIN RESULT. A mount whose requests are answered with nothing in between is a run
  // of the machine: same server, same session states, same result.
  lemma MountIsRun(m: Machine, session: Text, uri: Text, fates: nat -> Fate, fate: Fate)
    returns (actions: seq<Action>)
    requires MachineOk(m) && Resting(m, session)
    ensures var n := Exec(m, actions);
            var (v, r) := AfterMount(ViewOf(m), session, uri, fates, fate);
            ViewOf(n) == v && Resting(n, session) && Returned(m, n, session, uri, r)
  {
    hide MachineOk;
    hide ViewOf;
    hide Exec;
    hide Working;
    hide Resting;
    hide AfterRecord;
    hide Probe;
    hide RunId;
    hide DoneOf;
    hide Returned;
    var v := ViewOf(m);
    var asked, c := AskAndBegin(m, session, uri);
    ViewSame(m, asked);
    assert DoneOf(asked, session) == DoneOf(m, session) by { DoneSame(m, asked, session); }
    var first := [CallMount(session, uri), Begin(c)];
    var last := [Serve(c, fate), Continue(c)];
    var r := AfterMount(v, session, uri, fates, fate).1;
    if HasOpen(v, session) {
      RecordIsRun(asked, c, session, |m.calls|, uri, fate);
      ReturnedFrom(m, asked, Exec(asked, last), session, uri, r);
      actions := first + last;
      ExecAppend(m, first, last);
    } else {
      var from := From(v, session);
      var begun, probing := ProbeIsRun(asked, c, session, |m.calls|, uri, from, from, fates);
      ExecAppend(m, first, probing);
      DoneSame(asked, begun, session);
      HeldInView(asked, begun, session, from, fates);
      if Probe(m.server, session, from, from, fates).1.None? {
        actions := first + probing;
        WorkingRests(begun, c, session);
        NothingReturned(m, begun, session, uri);
      } else {
        RecordIsRun(begun, c, session, |m.calls|, uri, fate);
        ReturnedFrom(m, begun, Exec(begun, last), session, uri, r);
        actions := first + probing + last;
        ExecAppend(m, first + probing, last);
      }
    }
  }

  lemma DoneSame(m: Machine, n: Machine, session: Text)
    requires n.done == m.done
    ensures DoneOf(n, session) == DoneOf(m, session)
  {
  }

  lemma WorkingRests(m: Machine, c: nat, session: Text)
    requires Working(m, c, session, Idle)
    ensures Resting(m, session)
  {
  }

  lemma HeldInView(m: Machine, n: Machine, session: Text, from: nat, fates: nat -> Fate)
    requires MachineOk(m) && !HasOpen(ViewOf(m), session) && from == From(ViewOf(m), session)
    requires var (server, found) := Probe(m.server, session, from, from, fates);
             && n.server == server
             && match found
                case None => n.held == m.held && n.states == m.states
                case Some(e) =>
                  && n.held == m.held + [Held(session, RunId(session, e), e, 0, true)]
                  && n.states == m.states[session := |m.held|]
    ensures ViewOf(n) == AfterOpen(ViewOf(m), session, fates).0
  {
    hide RunId;
    hide Probe;
    var found := Probe(m.server, session, from, from, fates).1;
    if found.None? {
      ViewSame(m, n);
    } else {
      StatesAreApart(m);
      ViewGrown(m, n, session, Held(session, RunId(session, found.value), found.value, 0, true));
    }
    hide MachineOk;
    hide ViewOf;
  }

  /******* Commits *******/

  lemma BeginCommit(q: Machine, c: nat, session: Text, number: nat) returns (n: Machine)
    requires MachineOk(q) && c < |q.chains| && q.chains[c] == Chain(session, [Ticket(number, CommitOp)], Idle)
    requires session in q.queues && q.queues[session] == c
    ensures n == BeginNext(q, c) && n.server == q.server && n.states == q.states && n.done == q.done
    ensures var obj := Current(q, session);
            if obj.None? || !q.held[obj.value].open then n.held == q.held && Working(n, c, session, Idle)
            else
              && n.held == q.held[obj.value := q.held[obj.value].(open := false)]
              && Working(n, c, session, if q.held[obj.value].entries == 0 then Idle else Committing(obj.value, false))
  {
    hide MachineOk;
    n := BeginNext(q, c);
  }

  lemma CommitSteps(m: Machine, c: nat, session: Text, obj: nat, fate: Fate) returns (n: Machine)
    requires Working(m, c, session, Committing(obj, false)) && obj < |m.held|
    ensures n == Exec(m, [Serve(c, fate), Continue(c)])
    ensures n.held == m.held && n.states == m.states && n.done == m.done && Resting(n, session)
    ensures n.server == ServeCommit(m.server, m.held[obj].runId, fate)
  {
    hide ServeCommit;
    n := ContinueChain(ServeChain(m, c, fate), c);
    ExecTwo(m, Serve(c, fate), Continue(c));
  }

  // So is a commit.
  lemma CommitIsRun(m: Machine, session: Text, fate: Fate) returns (actions: seq<Action>)
    requires MachineOk(m) && Resting(m, session)
    ensures var n := Exec(m, actions);
            ViewOf(n) == AfterCommit(ViewOf(m), session, fate).0 && Resting(n, session) && n.done == m.done
  {
    CurrentInView(m, session);
    StatesAreApart(m);
    var q, c := Ask(m, session, CommitOp);
    var n := BeginCommit(q, c, session, |m.calls|);
    assert Current(q, session) == Current(m, session);
    hide Enqueue;
    hide BeginNext;
    hide ServeCommit;
    actions := [CallCommit(session), Begin(c)];
    ExecTwo(m, CallCommit(session), Begin(c));
    var v := ViewOf(m);
    if !HasOpen(v, session) {
      ViewSame(m, n);
      hide ViewOf;
    } else {
      var obj := m.states[session];
      ViewUpdated(m, n, session, m.held[obj].(open := false));
      if m.held[obj].entries > 0 {
        var last := [Serve(c, fate), Continue(c)];
        var k := CommitSteps(n, c, session, obj, fate);
        ViewSame(n, k);
        ExecAppend(m, actions, last);
        actions := actions + last;
      }
      hide ViewOf;
      hide MachineOk;
    }
  }
}
