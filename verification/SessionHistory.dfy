/**
  What a session's runs say it read. As long as the session itself is not forgotten, no
  reply to one of its mounts is lost and nobody else mounts into its runs, the runs
  laid end to end are exactly the mounts that returned, in the order they were asked
  for, whatever happens to other sessions.
 */
module SessionHistory {
  import opened ByteStrings
  import opened Sessions
  import opened SessionOwnership
  import opened SessionFrames

  /******* Histories *******/

  function Rows(obj: nat, mounts: seq<Text>): seq<Row> {
    seq(|mounts|, p requires 0 <= p < |mounts| => Row(obj, p, mounts[p]))
  }

  // The mounts of a session's runs, run after run in epoch order.
  function History(held: seq<Held>, server: Server, s: Text): seq<Row>
    decreases |held|
  {
    if held == [] then []
    else
      var n := |held| - 1;
      History(held[..n], server, s)
      + if held[n].session == s then Rows(n, MountsOf(server, held[n].runId)) else []
  }

  function RowsOf(done: seq<Done>): seq<Row> {
    seq(|done|, i requires 0 <= i < |done| => done[i].row)
  }

  function InFlight(m: Machine, s: Text): seq<Row> {
    if s in m.queues && m.queues[s] < |m.chains| then Landing(m.chains[m.queues[s]].activity) else []
  }

  ghost predicate Balanced(m: Machine, s: Text) {
    History(m.held, m.server, s) == RowsOf(DoneOf(m, s)) + InFlight(m, s)
  }

  /******* One chain, working on the latest run *******/

  // c is the only chain that works for s.
  ghost predicate Sole(m: Machine, c: nat, s: Text) {
    && c < |m.chains| && m.chains[c].session == s && s in m.queues && m.queues[s] == c
    && forall d | 0 <= d < |m.chains| && m.chains[d].session == s :: d == c
  }

  ghost predicate OneChain(m: Machine, s: Text) {
    && (forall c | 0 <= c < |m.chains| && m.chains[c].session == s :: s in m.queues && m.queues[s] == c)
    && (s in m.states ==> s in m.queues)
  }

  ghost predicate CurrentIsLast(held: seq<Held>, states: map<Text, nat>, s: Text) {
    forall i | 0 <= i < |held| && held[i].session == s :: s in states && i <= states[s]
  }

  ghost predicate EpochsIncrease(held: seq<Held>, s: Text) {
    forall i, j | 0 <= i < j < |held| && held[i].session == s && held[j].session == s :: held[i].epoch < held[j].epoch
  }

  // A mount goes into the session's current run; a run is opened, or committed, only
  // once the current one is closed, and opened only in a later epoch.
  ghost predicate WorksOnCurrent(held: seq<Held>, states: map<Text, nat>, chain: Chain) {
    var s, a := chain.session, chain.activity;
    && (a.Mounting? ==> s in states && states[s] == a.obj)
    && ((a.Opening? || a.Committing?) && s in states && states[s] < |held| ==> !held[states[s]].open)
    && (a.Opening? && s in states && states[s] < |held| ==> a.from == held[states[s]].epoch + 1)
  }

  ghost predicate Orderly(m: Machine, s: Text) {
    && OneChain(m, s) && CurrentIsLast(m.held, m.states, s) && EpochsIncrease(m.held, s)
    && forall c | 0 <= c < |m.chains| && m.chains[c].session == s :: WorksOnCurrent(m.held, m.states, m.chains[c])
  }

  // A run just started has no mounts.
  ghost predicate PendingEmpty(m: Machine, s: Text) {
    forall c | 0 <= c < |m.chains| && m.chains[c].session == s && Started(m.chains[c]) ::
      MountsOf(m.server, PendingId(m.chains[c])) == []
  }

  lemma SoleChain(m: Machine, c: nat, s: Text)
    requires MachineOk(m) && Orderly(m, s) && c < |m.chains| && m.chains[c].session == s
    ensures Sole(m, c, s) && WorksOnCurrent(m.held, m.states, m.chains[c])
  {
  }

  // An open current run and the chain that works on it.
  lemma CurrentFacts(m: Machine, s: Text)
    requires MachineOk(m) && Orderly(m, s) && s in m.states
    ensures PointsTo(m.held, m.states[s], s) && s in m.queues && Sole(m, m.queues[s], s)
  {
  }

  /******* Others leave all this alone *******/

  lemma OrderlyUntouched(m: Machine, n: Machine, s: Text)
    requires MachineOk(m) && Orderly(m, s) && Untouched(m, n, s)
    ensures Orderly(n, s)
  {
    if s in m.states {
      CurrentFacts(m, s);
    }
    hide MachineOk;
    forall c | 0 <= c < |n.chains| && n.chains[c].session == s
      ensures WorksOnCurrent(n.held, n.states, n.chains[c])
    {
      assert n.chains[c] == m.chains[c] && WorksOnCurrent(m.held, m.states, m.chains[c]);
    }
  }

  lemma {:induction false} HistoryFrame(h: seq<Held>, k: seq<Held>, server: Server, server': Server, s: Text)
    requires SameHeld(h, k, s)
    requires forall i | 0 <= i < |h| && h[i].session == s ::
               MountsOf(server', h[i].runId) == MountsOf(server, h[i].runId)
    ensures History(k, server', s) == History(h, server, s)
    decreases |k|
  {
    hide MountsOf;
    if k != [] {
      var n := |k| - 1;
      if |h| == |k| {
        HistoryFrame(h[..n], k[..n], server, server', s);
      } else {
        HistoryFrame(h, k[..n], server, server', s);
      }
    }
  }

  lemma InFlightUntouched(m: Machine, n: Machine, s: Text)
    requires MachineOk(m) && Untouched(m, n, s)
    ensures InFlight(n, s) == InFlight(m, s)
  {
  }

  lemma BalancedUntouched(m: Machine, n: Machine, s: Text)
    requires MachineOk(m) && Balanced(m, s) && Untouched(m, n, s) && SameMounts(m, n, s)
    ensures Balanced(n, s)
  {
    InFlightUntouched(m, n, s);
    hide MachineOk;
    hide InFlight;
    HistoryFrame(m.held, n.held, m.server, n.server, s);
  }

  lemma PendingUntouched(m: Machine, n: Machine, s: Text)
    requires PendingEmpty(m, s) && Untouched(m, n, s) && SameMounts(m, n, s)
    ensures PendingEmpty(n, s)
  {
    forall c | 0 <= c < |n.chains| && n.chains[c].session == s && Started(n.chains[c])
      ensures MountsOf(n.server, PendingId(n.chains[c])) == []
    {
      assert n.chains[c] == m.chains[c];
    }
  }

  /******* How histories change *******/

  lemma {:induction false} HistorySame(h: seq<Held>, k: seq<Held>, server: Server, server': Server, s: Text)
    requires SameRuns(h, k)
    requires forall i | 0 <= i < |h| && h[i].session == s ::
               MountsOf(server', h[i].runId) == MountsOf(server, h[i].runId)
    ensures History(k, server', s) == History(h, server, s)
    decreases |h|
  {
    if h != [] {
      var n := |h| - 1;
      HistorySame(h[..n], k[..n], server, server', s);
    }
  }

  lemma HistoryHold(held: seq<Held>, server: Server, h: Held, s: Text)
    requires MountsOf(server, h.runId) == []
    ensures History(held + [h], server, s) == History(held, server, s)
  {
    var k := held + [h];
    assert k[..|held|] == held;
    assert Rows(|held|, []) == [];
  }

  // A mount into a session's last run extends that session's history by its row.
  lemma {:induction false} HistoryMount(held: seq<Held>, server: Server, obj: nat, uri: Text)
    requires obj < |held| && held[obj].runId in server
    requires forall i | 0 <= i < |held| && i != obj :: held[i].runId != held[obj].runId
    requires forall i | obj < i < |held| :: held[i].session != held[obj].session
    ensures var id := held[obj].runId;
            History(held, Append(server, id, uri), held[obj].session) ==
            History(held, server, held[obj].session) + [Row(obj, |server[id].mounts|, uri)]
    decreases |held|
  {
    var n, id, s := |held| - 1, held[obj].runId, held[obj].session;
    var server' := Append(server, id, uri);
    if obj == n {
      HistorySame(held[..n], held[..n], server, server', s);
      var before := server[id].mounts;
      assert Rows(n, before + [uri]) == Rows(n, before) + [Row(n, |before|, uri)];
    } else {
      HistoryMount(held[..n], server, obj, uri);
      assert held[..n][obj] == held[obj];
    }
  }

  /******* The session's own steps: balance *******/

  // Its chain changes; nothing lands, returns or is held.
  lemma BalancedSame(m: Machine, n: Machine, s: Text)
    requires Balanced(m, s) && SameRuns(m.held, n.held) && n.done == m.done
    requires forall i | 0 <= i < |m.held| && m.held[i].session == s ::
               MountsOf(n.server, m.held[i].runId) == MountsOf(m.server, m.held[i].runId)
    requires InFlight(n, s) == InFlight(m, s)
    ensures Balanced(n, s)
  {
    HistorySame(m.held, n.held, m.server, n.server, s);
  }

  lemma EnqueueInFlight(m: Machine, t: Text, op: Op, s: Text)
    requires MachineOk(m)
    ensures InFlight(Enqueue(m, t, op), s) == InFlight(m, s)
  {
  }

  lemma EnqueueBalanced(m: Machine, t: Text, op: Op, s: Text)
    requires MachineOk(m) && Balanced(m, s)
    ensures Balanced(Enqueue(m, t, op), s)
  {
    hide History;
    EnqueueInFlight(m, t, op, s);
    BalancedSame(m, Enqueue(m, t, op), s);
  }

  // What starting an operation does for s: nothing returns, and no mount is in flight yet.
  lemma BeginInFlight(m: Machine, c: nat, s: Text)
    requires MachineOk(m) && Sole(m, c, s)
    ensures var n := BeginNext(m, c);
            && n.server == m.server && n.done == m.done && SameRuns(m.held, n.held) && InFlight(n, s) == InFlight(m, s)
  {
    hide MachineOk;
    hide Starting;
    var chain := m.chains[c];
    if chain.activity.Idle? && chain.waiting != [] {
      var popped := chain.(waiting := chain.waiting[1..]);
      var n := m.(chains := m.chains[c := popped]);
      LocalStep(m, n, c, popped);
      StartingInFlight(n, c, chain.waiting[0], s);
    }
  }

  lemma StartingInFlight(m: Machine, c: nat, t: Ticket, s: Text)
    requires MachineOk(m) && Sole(m, c, s) && m.chains[c].activity.Idle?
    ensures var n := Starting(m, c, t);
            && n.server == m.server && n.done == m.done && SameRuns(m.held, n.held)
            && InFlight(n, s) == InFlight(m, s) == []
  {
    CurrentAt(m, s);
    hide MachineOk;
    if t.op.MountOp? {
      StartingMountInFlight(m, c, t, s);
    } else {
      StartingCommitInFlight(m, c, t, s);
    }
  }

  lemma StartingMountInFlight(m: Machine, c: nat, t: Ticket, s: Text)
    requires Sole(m, c, s) && m.chains[c].activity.Idle? && t.op.MountOp?
    ensures var n := Starting(m, c, t);
            && n.server == m.server && n.done == m.done && n.held == m.held
            && InFlight(n, s) == InFlight(m, s) == []
  {
  }

  lemma StartingCommitInFlight(m: Machine, c: nat, t: Ticket, s: Text)
    requires Sole(m, c, s) && m.chains[c].activity.Idle? && t.op.CommitOp?
    ensures var n := Starting(m, c, t);
            && n.server == m.server && n.done == m.done && SameRuns(m.held, n.held)
            && InFlight(n, s) == InFlight(m, s) == []
  {
  }

  lemma BeginBalanced(m: Machine, c: nat, s: Text)
    requires MachineOk(m) && Sole(m, c, s) && Balanced(m, s)
    ensures Balanced(BeginNext(m, c), s)
  {
    BeginInFlight(m, c, s);
    hide MachineOk;
    hide BeginNext;
    hide Balanced;
    hide InFlight;
    hide MountsOf;
    BalancedSame(m, BeginNext(m, c), s);
  }

  // Requests that record nothing: to start or commit a run, or refused.
  ghost predicate Quiet(m: Machine, n: Machine, s: Text) {
    && n.held == m.held && n.done == m.done && InFlight(n, s) == InFlight(m, s)
    && forall i | 0 <= i < |m.held| && m.held[i].session == s ::
         MountsOf(n.server, m.held[i].runId) == MountsOf(m.server, m.held[i].runId)
  }

  lemma OpeningQuiet(m: Machine, c: nat, fate: Fate, s: Text)
    requires MachineOk(m) && Sole(m, c, s) && m.chains[c].activity.Opening?
    ensures Quiet(m, ServeChain(m, c, fate), s)
  {
    hide MachineOk;
    hide RunId;
    RunsExist(m);
  }

  lemma CommittingQuiet(m: Machine, c: nat, fate: Fate, s: Text)
    requires MachineOk(m) && Sole(m, c, s) && m.chains[c].activity.Committing?
    ensures Quiet(m, ServeChain(m, c, fate), s)
  {
    hide MachineOk;
    RunsExist(m);
  }

  ghost predicate Lands(m: Machine, c: nat)
    requires c < |m.chains|
  {
    var a := m.chains[c].activity;
    a.Mounting? && a.landed.None? && a.obj < |m.held| && Accepts(m.server, m.held[a.obj].runId)
  }

  lemma RefusedQuiet(m: Machine, c: nat, fate: Fate, s: Text)
    requires Sole(m, c, s) && m.chains[c].activity.Mounting?
    requires !Lands(m, c) || fate == Refuse || fate == FailBefore
    ensures Quiet(m, ServeChain(m, c, fate), s)
  {
    hide MountsOf;
  }

  lemma ServeIsQuiet(m: Machine, c: nat, fate: Fate, s: Text)
    requires MachineOk(m) && Sole(m, c, s)
    requires !Lands(m, c) || fate == Refuse || fate == FailBefore
    ensures Quiet(m, ServeChain(m, c, fate), s)
  {
    hide MachineOk;
    hide ServeChain;
    hide Lands;
    match m.chains[c].activity
    case Idle => ServeIdle(m, c, fate);
    case Opening(_, _, _, _, _) => OpeningQuiet(m, c, fate, s);
    case Mounting(_, _, _, _) => RefusedQuiet(m, c, fate, s);
    case Committing(_, _) => CommittingQuiet(m, c, fate, s);
  }

  // A mount goes into the latest of its session's runs, which no other object shares.
  lemma CurrentIsLatest(m: Machine, c: nat, s: Text)
    requires MachineOk(m) && Orderly(m, s) && c < |m.chains|
    requires m.chains[c].session == s && m.chains[c].activity.Mounting?
    ensures var obj := m.chains[c].activity.obj;
            && PointsTo(m.held, obj, s)
            && (forall i | obj < i < |m.held| :: m.held[i].session != m.held[obj].session)
            && (forall i | 0 <= i < |m.held| && i != obj :: m.held[i].runId != m.held[obj].runId)
  {
    ActivityAt(m, c);
    SoleChain(m, c, s);
  }

  lemma LandsOnServer(m: Machine, c: nat, s: Text)
    requires Sole(m, c, s) && Lands(m, c)
    ensures var a, n := m.chains[c].activity, ServeChain(m, c, Honest);
            var id := m.held[a.obj].runId;
            && n.server == Append(m.server, id, a.uri) && n.held == m.held && n.done == m.done
            && InFlight(m, s) == [] && InFlight(n, s) == [Row(a.obj, |m.server[id].mounts|, a.uri)]
  {
  }

  lemma MountLands(m: Machine, c: nat, s: Text)
    requires MachineOk(m) && Orderly(m, s) && Balanced(m, s) && Sole(m, c, s) && Lands(m, c)
    ensures Balanced(ServeChain(m, c, Honest), s)
  {
    LandsOnServer(m, c, s);
    CurrentIsLatest(m, c, s);
    hide MachineOk;
    hide Orderly;
    hide InFlight;
    hide History;
    hide ServeChain;
    var a := m.chains[c].activity;
    HistoryMount(m.held, m.server, a.obj, a.uri);
  }

  lemma ServeBalanced(m: Machine, c: nat, fate: Fate, s: Text)
    requires MachineOk(m) && Orderly(m, s) && Balanced(m, s) && Sole(m, c, s)
    requires fate == LoseReply ==> !m.chains[c].activity.Mounting?
    ensures Balanced(ServeChain(m, c, fate), s)
  {
    hide MachineOk;
    hide Orderly;
    hide ServeChain;
    hide Balanced;
    hide InFlight;
    hide MountsOf;
    if Lands(m, c) && fate == Honest {
      MountLands(m, c, s);
    } else {
      ServeIsQuiet(m, c, fate, s);
      BalancedSame(m, ServeChain(m, c, fate), s);
    }
  }

  lemma HoldBalanced(m: Machine, c: nat, s: Text)
    requires Sole(m, c, s) && PendingEmpty(m, s) && Balanced(m, s) && Started(m.chains[c])
    ensures Balanced(ContinueChain(m, c), s)
  {
    hide History;
    var n := ContinueChain(m, c);
    HistoryHold(m.held, m.server, n.held[|m.held|], s);
    assert InFlight(n, s) == InFlight(m, s);
  }

  // The reply arrives: what was in flight is done.
  lemma ReturnStep(m: Machine, c: nat, s: Text)
    requires MachineOk(m) && Sole(m, c, s) && Landing(m.chains[c].activity) != []
    ensures var a, n := m.chains[c].activity, ContinueChain(m, c);
            && a.obj < |m.held| && n.server == m.server && n.states == m.states
            && n.held == m.held[a.obj := m.held[a.obj].(entries := a.landed.value.position + 1)]
            && DoneOf(n, s) == DoneOf(m, s) + [Done(a.number, Landing(a)[0])]
            && InFlight(m, s) == Landing(a) && InFlight(n, s) == []
  {
    ActivityAt(m, c);
    hide MachineOk;
  }

  lemma ReturnBalanced(m: Machine, c: nat, s: Text)
    requires MachineOk(m) && Balanced(m, s) && Sole(m, c, s) && Landing(m.chains[c].activity) != []
    ensures Balanced(ContinueChain(m, c), s)
  {
    ReturnStep(m, c, s);
    hide MachineOk;
    hide History;
    hide InFlight;
    hide ContinueChain;
    var n := ContinueChain(m, c);
    HistorySame(m.held, n.held, m.server, n.server, s);
    assert RowsOf(DoneOf(n, s)) == RowsOf(DoneOf(m, s)) + Landing(m.chains[c].activity);
  }

  lemma ContinueBalanced(m: Machine, c: nat, s: Text)
    requires MachineOk(m) && PendingEmpty(m, s) && Balanced(m, s) && Sole(m, c, s)
    ensures Balanced(ContinueChain(m, c), s)
  {
    hide MachineOk;
    hide Balanced;
    hide ContinueChain;
    if Started(m.chains[c]) {
      HoldBalanced(m, c, s);
    } else if Landing(m.chains[c].activity) != [] {
      ReturnBalanced(m, c, s);
    } else {
      hide MountsOf;
      var b := ContinueQuiet(m, c);
      BalancedSame(m, SetActivity(m, c, b), s);
    }
  }

  // Whatever its own session does next, the balance is kept.
  lemma ActBalanced(m: Machine, a: Action, s: Text)
    requires MachineOk(m) && Orderly(m, s) && PendingEmpty(m, s) && Balanced(m, s) && Tame(m, a, s) && Acts(m, a, s)
    ensures Balanced(Next(m, a), s)
  {
    hide MachineOk;
    hide Orderly;
    hide PendingEmpty;
    hide Balanced;
    hide Ours;
    hide Enqueue;
    hide BeginNext;
    hide ServeChain;
    hide ContinueChain;
    hide Sole;
    match a
    case CallMount(_, uri) => EnqueueBalanced(m, s, MountOp(uri), s);
    case CallCommit(_) => EnqueueBalanced(m, s, CommitOp, s);
    case Begin(c) => SoleChain(m, c, s); BeginBalanced(m, c, s);
    case Serve(c, fate) => SoleChain(m, c, s); ServeBalanced(m, c, fate, s);
    case Continue(c) => SoleChain(m, c, s); ContinueBalanced(m, c, s);
    case _ =>
  }

  /******* The session's own steps: pending runs *******/

  lemma ServePending(m: Machine, c: nat, fate: Fate, s: Text)
    requires MachineOk(m) && PendingEmpty(m, s) && Sole(m, c, s)
    ensures PendingEmpty(ServeChain(m, c, fate), s)
  {
    hide MachineOk;
    hide RunId;
  }

  // A chain that was not waiting for a started run is not, and the server is as it was.
  lemma PendingLocal(m: Machine, n: Machine, s: Text)
    requires PendingEmpty(m, s) && n.server == m.server
    requires forall c | 0 <= c < |n.chains| && Started(n.chains[c]) ::
               && c < |m.chains| && Started(m.chains[c]) && n.chains[c].session == m.chains[c].session
               && n.chains[c].activity == m.chains[c].activity
    ensures PendingEmpty(n, s)
  {
    hide MountsOf;
  }

  lemma EnqueuePending(m: Machine, op: Op, s: Text)
    requires MachineOk(m) && PendingEmpty(m, s)
    ensures PendingEmpty(Enqueue(m, s, op), s)
  {
    hide MachineOk;
    hide PendingEmpty;
    PendingLocal(m, Enqueue(m, s, op), s);
  }

  lemma BeginPending(m: Machine, c: nat, s: Text)
    requires PendingEmpty(m, s) && c < |m.chains|
    ensures PendingEmpty(BeginNext(m, c), s)
  {
    hide PendingEmpty;
    PendingLocal(m, BeginNext(m, c), s);
  }

  lemma ContinuePending(m: Machine, c: nat, s: Text)
    requires PendingEmpty(m, s) && c < |m.chains|
    ensures PendingEmpty(ContinueChain(m, c), s)
  {
    hide PendingEmpty;
    hide RunId;
    PendingLocal(m, ContinueChain(m, c), s);
  }

  lemma ActPending(m: Machine, a: Action, s: Text)
    requires MachineOk(m) && Orderly(m, s) && PendingEmpty(m, s) && Acts(m, a, s)
    ensures PendingEmpty(Next(m, a), s)
  {
    hide MachineOk;
    hide Orderly;
    hide PendingEmpty;
    hide Enqueue;
    hide BeginNext;
    hide ServeChain;
    hide ContinueChain;
    hide Sole;
    match a
    case CallMount(_, uri) => EnqueuePending(m, MountOp(uri), s);
    case CallCommit(_) => EnqueuePending(m, CommitOp, s);
    case Begin(c) => BeginPending(m, c, s);
    case Serve(c, fate) => SoleChain(m, c, s); ServePending(m, c, fate, s);
    case Continue(c) => ContinuePending(m, c, s);
    case _ =>
  }

  /******* The session's own steps: order of runs *******/

  // The sole chain changes; runs keep their ids and are at most closed.
  lemma OrderlyLocal(m: Machine, n: Machine, c: nat, s: Text)
    requires Orderly(m, s) && Sole(m, c, s) && |n.chains| == |m.chains| && n.chains[c].session == s
    requires n.queues == m.queues && n.states == m.states
    requires forall d | 0 <= d < |m.chains| && d != c :: n.chains[d] == m.chains[d]
    requires SameRuns(m.held, n.held) && WorksOnCurrent(n.held, n.states, n.chains[c])
    ensures Orderly(n, s)
  {
    hide WorksOnCurrent;
  }

  lemma EnqueueOrderly(m: Machine, op: Op, s: Text)
    requires MachineOk(m) && Orderly(m, s)
    ensures Orderly(Enqueue(m, s, op), s)
  {
    var n := Enqueue(m, s, op);
    if s in m.queues {
      SoleChain(m, m.queues[s], s);
      hide MachineOk;
      hide Orderly;
      OrderlyLocal(m, n, m.queues[s], s);
    } else {
      assert forall d | 0 <= d < |m.chains| :: m.chains[d].session != s;
      hide MachineOk;
    }
  }

  // What the first segment of an operation leaves alone.
  ghost predicate StartShape(m: Machine, n: Machine, c: nat, t: Ticket)
    requires c < |m.chains|
  {
    && n.calls == m.calls && n.done == m.done && n.queues == m.queues && n.states == m.states
    && |n.chains| == |m.chains|
    && n.chains == m.chains[c := m.chains[c].(activity := n.chains[c].activity)]
    && (n.chains[c].activity.Opening? || n.chains[c].activity.Mounting? ==>
          n.chains[c].activity.number == t.number && t.op == MountOp(n.chains[c].activity.uri))
  }

  lemma StartingMountShape(m: Machine, c: nat, t: Ticket)
    requires c < |m.chains| && t.op.MountOp?
    ensures StartShape(m, Starting(m, c, t), c, t)
  {
  }

  lemma StartingCommitShape(m: Machine, c: nat, t: Ticket)
    requires c < |m.chains| && t.op.CommitOp?
    ensures StartShape(m, Starting(m, c, t), c, t)
  {
  }

  lemma StartingShape(m: Machine, c: nat, t: Ticket)
    requires c < |m.chains|
    ensures StartShape(m, Starting(m, c, t), c, t)
  {
    hide Starting;
    hide StartShape;
    if t.op.MountOp? {
      StartingMountShape(m, c, t);
    } else {
      StartingCommitShape(m, c, t);
    }
  }

  lemma StartingOrderly(m: Machine, c: nat, t: Ticket, s: Text)
    requires MachineOk(m) && Orderly(m, s) && Sole(m, c, s)
    ensures Orderly(Starting(m, c, t), s)
  {
    CurrentAt(m, s);
    StartingShape(m, c, t);
    if t.op.MountOp? {
      StartingMountWorks(m, c, t, s);
    } else {
      StartingCommitWorks(m, c, t, s);
    }
    hide MachineOk;
    hide Orderly;
    hide Starting;
    hide WorksOnCurrent;
    OrderlyLocal(m, Starting(m, c, t), c, s);
  }

  lemma StartingMountWorks(m: Machine, c: nat, t: Ticket, s: Text)
    requires Sole(m, c, s) && t.op.MountOp?
    requires Current(m, s).Some? ==> PointsTo(m.held, Current(m, s).value, s)
    ensures var n := Starting(m, c, t); n.held == m.held && WorksOnCurrent(n.held, n.states, n.chains[c])
  {
  }

  lemma StartingCommitWorks(m: Machine, c: nat, t: Ticket, s: Text)
    requires Sole(m, c, s) && t.op.CommitOp?
    requires Current(m, s).Some? ==> PointsTo(m.held, Current(m, s).value, s)
    ensures var n := Starting(m, c, t); SameRuns(m.held, n.held) && WorksOnCurrent(n.held, n.states, n.chains[c])
  {
  }

  lemma BeginOrderly(m: Machine, c: nat, s: Text)
    requires MachineOk(m) && Orderly(m, s) && Sole(m, c, s)
    ensures Orderly(BeginNext(m, c), s)
  {
    SoleChain(m, c, s);
    hide MachineOk;
    hide Orderly;
    hide Starting;
    var chain := m.chains[c];
    if chain.activity.Idle? && chain.waiting != [] {
      var popped := chain.(waiting := chain.waiting[1..]);
      var n := m.(chains := m.chains[c := popped]);
      OrderlyLocal(m, n, c, s);
      LocalStep(m, n, c, popped);
      StartingOrderly(n, c, chain.waiting[0], s);
    }
  }

  lemma ServeOrderly(m: Machine, c: nat, fate: Fate, s: Text)
    requires MachineOk(m) && Orderly(m, s) && Sole(m, c, s)
    ensures Orderly(ServeChain(m, c, fate), s)
  {
    SoleChain(m, c, s);
    hide MachineOk;
    hide Orderly;
    hide ServeStart;
    hide ServeMount;
    hide ServeCommit;
    OrderlyLocal(m, ServeChain(m, c, fate), c, s);
  }

  // The window starts above every epoch the session has used.
  lemma NewEpoch(m: Machine, c: nat, s: Text, i: nat)
    requires MachineOk(m) && Orderly(m, s) && Sole(m, c, s) && m.chains[c].activity.Opening?
    requires i < |m.held| && m.held[i].session == s
    ensures m.held[i].epoch < m.chains[c].activity.epoch
  {
    SoleChain(m, c, s);
    ActivityAt(m, c);
    CurrentAt(m, s);
    hide MachineOk;
  }

  lemma HoldOrderly(m: Machine, c: nat, s: Text)
    requires MachineOk(m) && Orderly(m, s) && Sole(m, c, s) && Started(m.chains[c])
    ensures Orderly(ContinueChain(m, c), s)
  {
    forall i | 0 <= i < |m.held| && m.held[i].session == s
      ensures m.held[i].epoch < m.chains[c].activity.epoch
    {
      NewEpoch(m, c, s, i);
    }
    hide MachineOk;
    hide RunId;
    var n := ContinueChain(m, c);
    assert EpochsIncrease(n.held, s);
  }

  lemma ContinueOrderly(m: Machine, c: nat, s: Text)
    requires MachineOk(m) && Orderly(m, s) && Sole(m, c, s)
    ensures Orderly(ContinueChain(m, c), s)
  {
    SoleChain(m, c, s);
    hide MachineOk;
    hide Orderly;
    hide ContinueChain;
    if Started(m.chains[c]) {
      HoldOrderly(m, c, s);
    } else if Landing(m.chains[c].activity) != [] {
      ReturnOrderly(m, c, s);
    } else {
      var b := ContinueQuiet(m, c);
      OrderlyLocal(m, SetActivity(m, c, b), c, s);
    }
  }

  lemma ReturnOrderly(m: Machine, c: nat, s: Text)
    requires MachineOk(m) && Orderly(m, s) && Sole(m, c, s) && Landing(m.chains[c].activity) != []
    ensures Orderly(ContinueChain(m, c), s)
  {
    ActivityAt(m, c);
    hide MachineOk;
    hide Orderly;
    OrderlyLocal(m, ContinueChain(m, c), c, s);
  }

  lemma ActOrderly(m: Machine, a: Action, s: Text)
    requires MachineOk(m) && Orderly(m, s) && Acts(m, a, s)
    ensures Orderly(Next(m, a), s)
  {
    hide MachineOk;
    hide Orderly;
    hide Enqueue;
    hide BeginNext;
    hide ServeChain;
    hide ContinueChain;
    hide Sole;
    match a
    case CallMount(_, uri) => EnqueueOrderly(m, MountOp(uri), s);
    case CallCommit(_) => EnqueueOrderly(m, CommitOp, s);
    case Begin(c) => SoleChain(m, c, s); BeginOrderly(m, c, s);
    case Serve(c, fate) => SoleChain(m, c, s); ServeOrderly(m, c, fate, s);
    case Continue(c) => SoleChain(m, c, s); ContinueOrderly(m, c, s);
    case _ =>
  }

  /******* Queue order *******/

  ghost predicate Asked(calls: seq<Call>, number: nat, s: Text, op: Op) {
    number < |calls| && calls[number] == Call(s, op)
  }

  // What returned was asked for by this session, in this order.
  ghost predicate InCallOrder(calls: seq<Call>, s: Text, done: seq<Done>) {
    && (forall k | 0 <= k < |done| :: Asked(calls, done[k].number, s, MountOp(done[k].row.uri)))
    && (forall j, k | 0 <= j < k < |done| :: done[j].number < done[k].number)
  }

  // number comes after everything done and before everything waiting.
  ghost predicate Between(done: seq<Done>, number: nat, waiting: seq<Ticket>) {
    && (forall k | 0 <= k < |done| :: done[k].number < number)
    && (forall k | 0 <= k < |waiting| :: number < waiting[k].number)
  }

  ghost predicate ChainInOrder(calls: seq<Call>, chain: Chain, done: seq<Done>) {
    && (forall i | 0 <= i < |chain.waiting| ::
          && Asked(calls, chain.waiting[i].number, chain.session, chain.waiting[i].op)
          && Between(done, chain.waiting[i].number, chain.waiting[i + 1..]))
    && (chain.activity.Opening? || chain.activity.Mounting? ==>
          && Asked(calls, chain.activity.number, chain.session, MountOp(chain.activity.uri))
          && Between(done, chain.activity.number, chain.waiting))
  }

  ghost predicate InOrder(m: Machine, s: Text) {
    && (forall c | 0 <= c < |m.chains| && m.chains[c].session == s :: ChainInOrder(m.calls, m.chains[c], DoneOf(m, s)))
    && InCallOrder(m.calls, s, DoneOf(m, s))
  }

  lemma AskedLater(calls: seq<Call>, more: seq<Call>, number: nat, s: Text, op: Op)
    requires Asked(calls, number, s, op) && calls <= more
    ensures Asked(more, number, s, op)
  {
  }

  lemma ChainLater(calls: seq<Call>, more: seq<Call>, chain: Chain, done: seq<Done>)
    requires ChainInOrder(calls, chain, done) && calls <= more
    ensures ChainInOrder(more, chain, done)
  {
    hide Between;
    forall i | 0 <= i < |chain.waiting|
      ensures Asked(more, chain.waiting[i].number, chain.session, chain.waiting[i].op)
    {
      AskedLater(calls, more, chain.waiting[i].number, chain.session, chain.waiting[i].op);
    }
  }

  lemma InCallOrderLater(calls: seq<Call>, more: seq<Call>, s: Text, done: seq<Done>)
    requires InCallOrder(calls, s, done) && calls <= more
    ensures InCallOrder(more, s, done)
  {
    forall k | 0 <= k < |done|
      ensures Asked(more, done[k].number, s, MountOp(done[k].row.uri))
    {
      AskedLater(calls, more, done[k].number, s, MountOp(done[k].row.uri));
    }
  }

  lemma InOrderUntouched(m: Machine, n: Machine, s: Text)
    requires InOrder(m, s) && Untouched(m, n, s)
    ensures InOrder(n, s)
  {
    hide ChainInOrder;
    hide InCallOrder;
    InCallOrderLater(m.calls, n.calls, s, DoneOf(m, s));
    forall c | 0 <= c < |n.chains| && n.chains[c].session == s
      ensures ChainInOrder(n.calls, n.chains[c], DoneOf(n, s))
    {
      assert n.chains[c] == m.chains[c];
      ChainLater(m.calls, n.calls, m.chains[c], DoneOf(m, s));
    }
  }

  lemma ChainAppend(calls: seq<Call>, op: Op, chain: Chain, done: seq<Done>)
    requires ChainInOrder(calls, chain, done) && InCallOrder(calls, chain.session, done)
    ensures ChainInOrder(
              calls + [Call(chain.session, op)],
              chain.(waiting := chain.waiting + [Ticket(|calls|, op)]), done)
  {
    var w := chain.waiting;
    var w' := w + [Ticket(|calls|, op)];
    forall i | 0 <= i < |w'|
      ensures Between(done, w'[i].number, w'[i + 1..])
      ensures Asked(calls + [Call(chain.session, op)], w'[i].number, chain.session, w'[i].op)
    {
      if i < |w| {
        assert Between(done, w[i].number, w[i + 1..]) && Asked(calls, w[i].number, chain.session, w[i].op);
        assert w'[i + 1..] == w[i + 1..] + [Ticket(|calls|, op)];
      } else {
        assert forall k | 0 <= k < |done| :: Asked(calls, done[k].number, chain.session, MountOp(done[k].row.uri));
      }
    }
    if chain.activity.Opening? || chain.activity.Mounting? {
      assert Asked(calls, chain.activity.number, chain.session, MountOp(chain.activity.uri));
    }
  }

  lemma EmptyChain(calls: seq<Call>, s: Text, done: seq<Done>)
    ensures ChainInOrder(calls, Chain(s, [], Idle), done)
  {
  }

  lemma EnqueueInOrder(m: Machine, op: Op, s: Text)
    requires MachineOk(m) && Orderly(m, s) && InOrder(m, s)
    ensures InOrder(Enqueue(m, s, op), s)
  {
    if s in m.queues {
      SoleChain(m, m.queues[s], s);
    }
    assert s !in m.queues ==> forall d | 0 <= d < |m.chains| :: m.chains[d].session != s;
    hide MachineOk;
    hide Orderly;
    hide ChainInOrder;
    hide InCallOrder;
    var n := Enqueue(m, s, op);
    var done := DoneOf(m, s);
    InCallOrderLater(m.calls, n.calls, s, done);
    if s in m.queues {
      ChainAppend(m.calls, op, m.chains[m.queues[s]], done);
    } else {
      EmptyChain(m.calls, s, done);
      ChainAppend(m.calls, op, Chain(s, [], Idle), done);
      assert [] + [Ticket(|m.calls|, op)] == [Ticket(|m.calls|, op)];
    }
  }

  // The sole chain changes and no result is added.
  lemma InOrderLocal(m: Machine, n: Machine, c: nat, s: Text)
    requires InOrder(m, s) && Sole(m, c, s) && |n.chains| == |m.chains|
    requires n.calls == m.calls && DoneOf(n, s) == DoneOf(m, s)
    requires forall d | 0 <= d < |m.chains| && d != c :: n.chains[d] == m.chains[d]
    requires ChainInOrder(n.calls, n.chains[c], DoneOf(m, s))
    ensures InOrder(n, s)
  {
    hide ChainInOrder;
    hide InCallOrder;
    hide DoneOf;
  }

  lemma PopInOrder(calls: seq<Call>, chain: Chain, next: Chain, done: seq<Done>)
    requires ChainInOrder(calls, chain, done) && chain.waiting != []
    requires next.session == chain.session && next.waiting == chain.waiting[1..]
    requires next.activity.Opening? || next.activity.Mounting? ==>
               next.activity.number == chain.waiting[0].number && chain.waiting[0].op == MountOp(next.activity.uri)
    ensures ChainInOrder(calls, next, done)
  {
    assert Between(done, chain.waiting[0].number, chain.waiting[0 + 1..]);
    assert Asked(calls, chain.waiting[0].number, chain.session, chain.waiting[0].op);
    forall i | 0 <= i < |next.waiting|
      ensures Asked(calls, next.waiting[i].number, next.session, next.waiting[i].op)
      ensures Between(done, next.waiting[i].number, next.waiting[i + 1..])
    {
      assert next.waiting[i] == chain.waiting[i + 1] && next.waiting[i + 1..] == chain.waiting[i + 1 + 1..];
    }
  }

  // What an operation's first segment does to its chain.
  lemma BeginInOrder(m: Machine, c: nat, s: Text)
    requires InOrder(m, s) && Sole(m, c, s)
    ensures InOrder(BeginNext(m, c), s)
  {
    hide Starting;
    hide ChainInOrder;
    var chain, n := m.chains[c], BeginNext(m, c);
    if chain.activity.Idle? && chain.waiting != [] {
      var popped := m.(chains := m.chains[c := chain.(waiting := chain.waiting[1..])]);
      StartingShape(popped, c, chain.waiting[0]);
      PopInOrder(m.calls, chain, n.chains[c], DoneOf(m, s));
      InOrderLocal(m, n, c, s);
    }
  }

  // The activity keeps its number and uri, or ends.
  lemma SameNumberInOrder(calls: seq<Call>, chain: Chain, next: Chain, done: seq<Done>)
    requires ChainInOrder(calls, chain, done) && next == chain.(activity := next.activity)
    requires next.activity.Opening? || next.activity.Mounting? ==>
               && (chain.activity.Opening? || chain.activity.Mounting?)
               && next.activity.number == chain.activity.number && next.activity.uri == chain.activity.uri
    ensures ChainInOrder(calls, next, done)
  {
  }

  lemma ServeInOrder(m: Machine, c: nat, fate: Fate, s: Text)
    requires InOrder(m, s) && Sole(m, c, s)
    ensures InOrder(ServeChain(m, c, fate), s)
  {
    hide ChainInOrder;
    hide ServeStart;
    hide ServeMount;
    hide ServeCommit;
    var n := ServeChain(m, c, fate);
    SameNumberInOrder(m.calls, m.chains[c], n.chains[c], DoneOf(m, s));
    hide InOrder;
    InOrderLocal(m, n, c, s);
  }

  lemma HoldInOrder(m: Machine, c: nat, s: Text)
    requires InOrder(m, s) && Sole(m, c, s) && Started(m.chains[c])
    ensures InOrder(ContinueChain(m, c), s)
  {
    hide ChainInOrder;
    hide RunId;
    var n := ContinueChain(m, c);
    SameNumberInOrder(m.calls, m.chains[c], n.chains[c], DoneOf(m, s));
    hide InOrder;
    InOrderLocal(m, n, c, s);
  }

  lemma OneMoreDone(calls: seq<Call>, chain: Chain, done: seq<Done>, last: Done)
    requires ChainInOrder(calls, chain, done) && InCallOrder(calls, chain.session, done)
    requires chain.activity.Mounting? && last.number == chain.activity.number && last.row.uri == chain.activity.uri
    ensures InCallOrder(calls, chain.session, done + [last])
    ensures ChainInOrder(calls, chain.(activity := Idle), done + [last])
  {
    forall i | 0 <= i < |chain.waiting|
      ensures Between(done + [last], chain.waiting[i].number, chain.waiting[i + 1..])
    {
      assert Between(done, chain.waiting[i].number, chain.waiting[i + 1..]);
      assert Between(done, chain.activity.number, chain.waiting);
    }
  }

  // The mount that returns is the one all that is done came before.
  lemma ReturnInOrder(m: Machine, c: nat, s: Text)
    requires MachineOk(m) && InOrder(m, s) && Sole(m, c, s) && Landing(m.chains[c].activity) != []
    ensures InOrder(ContinueChain(m, c), s)
  {
    ReturnStep(m, c, s);
    hide MachineOk;
    hide InFlight;
    hide ChainInOrder;
    hide InCallOrder;
    var chain, n := m.chains[c], ContinueChain(m, c);
    var last := Done(chain.activity.number, Landing(chain.activity)[0]);
    OneMoreDone(m.calls, chain, DoneOf(m, s), last);
    hide DoneOf;
    assert n.chains[c] == chain.(activity := Idle);
    forall d | 0 <= d < |n.chains| && n.chains[d].session == s
      ensures d == c
    {
    }
  }

  lemma ContinueInOrder(m: Machine, c: nat, s: Text)
    requires MachineOk(m) && InOrder(m, s) && Sole(m, c, s)
    ensures InOrder(ContinueChain(m, c), s)
  {
    hide MachineOk;
    hide ContinueChain;
    hide ChainInOrder;
    if Started(m.chains[c]) {
      HoldInOrder(m, c, s);
    } else if Landing(m.chains[c].activity) != [] {
      ReturnInOrder(m, c, s);
    } else {
      var b := ContinueQuiet(m, c);
      SameNumberInOrder(m.calls, m.chains[c], m.chains[c].(activity := b), DoneOf(m, s));
      InOrderLocal(m, SetActivity(m, c, b), c, s);
    }
  }

  lemma ActInOrder(m: Machine, a: Action, s: Text)
    requires MachineOk(m) && Orderly(m, s) && InOrder(m, s) && Acts(m, a, s)
    ensures InOrder(Next(m, a), s)
  {
    hide MachineOk;
    hide Orderly;
    hide InOrder;
    hide Enqueue;
    hide BeginNext;
    hide ServeChain;
    hide ContinueChain;
    hide Sole;
    match a
    case CallMount(_, uri) => EnqueueInOrder(m, MountOp(uri), s);
    case CallCommit(_) => EnqueueInOrder(m, CommitOp, s);
    case Begin(c) => SoleChain(m, c, s); BeginInOrder(m, c, s);
    case Serve(c, fate) => SoleChain(m, c, s); ServeInOrder(m, c, fate, s);
    case Continue(c) => SoleChain(m, c, s); ContinueInOrder(m, c, s);
    case _ =>
  }

  /******* Every step *******/

  // As long as s is not forgotten its runs and its queue stay in order.
  lemma NextOrderly(m: Machine, a: Action, s: Text)
    requires MachineOk(m) && Orderly(m, s) && InOrder(m, s) && a != Forget(s)
    ensures Orderly(Next(m, a), s) && InOrder(Next(m, a), s)
  {
    var b := Plainly(m, a, s);
    hide MachineOk;
    hide Orderly;
    hide InOrder;
    hide Next;
    hide Acts;
    if Acts(m, b, s) {
      ActOrderly(m, b, s);
      ActInOrder(m, b, s);
    } else {
      NextUntouched(m, b, s);
      OrderlyUntouched(m, Next(m, b), s);
      InOrderUntouched(m, Next(m, b), s);
    }
  }

  lemma NextBalanced(m: Machine, a: Action, s: Text)
    requires MachineOk(m) && Orderly(m, s) && PendingEmpty(m, s) && Balanced(m, s) && Tame(m, a, s)
    ensures PendingEmpty(Next(m, a), s) && Balanced(Next(m, a), s)
  {
    assert a != Forget(s);
    var b := Plainly(m, a, s);
    hide MachineOk;
    hide Orderly;
    hide PendingEmpty;
    hide Balanced;
    hide Next;
    hide Acts;
    hide Tame;
    if Acts(m, b, s) {
      ActBalanced(m, b, s);
      ActPending(m, b, s);
    } else {
      NextUntouched(m, b, s);
      NextSameMounts(m, b, s);
      BalancedUntouched(m, Next(m, b), s);
      PendingUntouched(m, Next(m, b), s);
    }
  }

  /******* Every run *******/

  lemma {:induction false} ExecOrderly(m: Machine, actions: seq<Action>, s: Text)
    requires MachineOk(m) && Orderly(m, s) && InOrder(m, s) && Remembering(actions, s)
    ensures var n := Exec(m, actions); MachineOk(n) && Orderly(n, s) && InOrder(n, s)
    decreases |actions|
  {
    hide MachineOk;
    hide Orderly;
    hide InOrder;
    hide Next;
    if actions != [] {
      NextKeeps(m, actions[0]);
      NextOrderly(m, actions[0], s);
      ExecOrderly(Next(m, actions[0]), actions[1..], s);
    }
  }

  lemma {:induction false} ExecBalanced(m: Machine, actions: seq<Action>, s: Text)
    requires MachineOk(m) && Orderly(m, s) && InOrder(m, s)
    requires PendingEmpty(m, s) && Balanced(m, s) && TameRun(m, actions, s)
    ensures var n := Exec(m, actions);
            MachineOk(n) && Orderly(n, s) && InOrder(n, s) && PendingEmpty(n, s) && Balanced(n, s)
    decreases |actions|
  {
    hide MachineOk;
    hide Orderly;
    hide InOrder;
    hide PendingEmpty;
    hide Balanced;
    hide Next;
    if actions != [] {
      var a := actions[0];
      assert a != Forget(s);
      hide Tame;
      NextKeeps(m, a);
      NextOrderly(m, a, s);
      NextBalanced(m, a, s);
      ExecBalanced(Next(m, a), actions[1..], s);
    }
  }

  lemma StartHistory(s: Text)
    ensures MachineOk(START) && Orderly(START, s) && InOrder(START, s) && PendingEmpty(START, s) && Balanced(START, s)
  {
    StartOk();
  }

  // MAIN RESULT. The mounts of a session's runs, laid end to end in epoch order and
  // numbered from 0 in each run, are the session's mounts that returned, in the order
  // they were asked for, then at most one whose reply is on its way. Epochs increase.
  lemma SessionRunsAreItsMounts(actions: seq<Action>, s: Text)
    requires TameRun(START, actions, s)
    ensures var m := Exec(START, actions);
            && History(m.held, m.server, s) == RowsOf(DoneOf(m, s)) + InFlight(m, s)
            && |InFlight(m, s)| <= 1
            && InCallOrder(m.calls, s, DoneOf(m, s))
            && EpochsIncrease(m.held, s)
  {
    hide Exec;
    StartHistory(s);
    ExecBalanced(START, actions, s);
    HistoryFacts(Exec(START, actions), s);
  }

  lemma HistoryFacts(m: Machine, s: Text)
    requires Orderly(m, s) && InOrder(m, s)
    ensures EpochsIncrease(m.held, s) && InCallOrder(m.calls, s, DoneOf(m, s))
  {
  }

  // Order, without any promise about replies or other writers.
  lemma ResultsAreInOrder(actions: seq<Action>, s: Text)
    requires Remembering(actions, s)
    ensures var m := Exec(START, actions); InCallOrder(m.calls, s, DoneOf(m, s)) && EpochsIncrease(m.held, s)
  {
    hide Exec;
    StartHistory(s);
    ExecOrderly(START, actions, s);
    HistoryFacts(Exec(START, actions), s);
  }
}
