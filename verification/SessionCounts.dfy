/**
  The count of entries a session keeps for its run is the run's own: so a commit is
  requested exactly for runs that recorded something.
 */
module SessionCounts {
  import opened ByteStrings
  import opened Sessions
  import opened SessionOwnership
  import opened SessionFrames
  import opened SessionHistory

  // The run's mounts are the entries counted, and one more while its reply is on the way.
  ghost predicate Counted(m: Machine, i: nat)
    requires i < |m.held|
  {
    var n, landing := |MountsOf(m.server, m.held[i].runId)|, InFlight(m, m.held[i].session);
    if landing != [] && landing[0].obj == i
    then n == m.held[i].entries + 1 && landing[0].position == m.held[i].entries
    else n == m.held[i].entries
  }

  ghost predicate AllCounted(m: Machine, s: Text) {
    forall i | 0 <= i < |m.held| && m.held[i].session == s :: Counted(m, i)
  }

  ghost predicate SameEntries(h: seq<Held>, k: seq<Held>) {
    |h| == |k| && forall i | 0 <= i < |h| :: h[i].entries == k[i].entries
  }

  /******* Steps *******/

  lemma CountedUntouched(m: Machine, n: Machine, s: Text)
    requires MachineOk(m) && AllCounted(m, s) && Untouched(m, n, s) && SameMounts(m, n, s)
    ensures AllCounted(n, s)
  {
    InFlightUntouched(m, n, s);
    hide MachineOk;
    hide InFlight;
    hide MountsOf;
    forall i | 0 <= i < |n.held| && n.held[i].session == s
      ensures Counted(n, i)
    {
      assert Counted(m, i) && n.held[i] == m.held[i];
    }
  }

  // Nothing lands, returns or is held.
  lemma CountedSame(m: Machine, n: Machine, s: Text)
    requires AllCounted(m, s) && SameRuns(m.held, n.held) && SameEntries(m.held, n.held)
    requires forall i | 0 <= i < |m.held| && m.held[i].session == s ::
               MountsOf(n.server, m.held[i].runId) == MountsOf(m.server, m.held[i].runId)
    requires InFlight(n, s) == InFlight(m, s)
    ensures AllCounted(n, s)
  {
    hide MountsOf;
    hide InFlight;
    forall i | 0 <= i < |n.held| && n.held[i].session == s
      ensures Counted(n, i)
    {
      assert Counted(m, i);
    }
  }

  lemma EnqueueCounted(m: Machine, op: Op, s: Text)
    requires MachineOk(m) && AllCounted(m, s)
    ensures AllCounted(Enqueue(m, s, op), s)
  {
    EnqueueInFlight(m, s, op, s);
    hide MachineOk;
    hide InFlight;
    hide AllCounted;
    CountedSame(m, Enqueue(m, s, op), s);
  }

  lemma BeginEntries(m: Machine, c: nat)
    requires MachineOk(m) && c < |m.chains|
    ensures SameEntries(m.held, BeginNext(m, c).held)
  {
    CurrentAt(m, m.chains[c].session);
    hide MachineOk;
  }

  lemma BeginCounted(m: Machine, c: nat, s: Text)
    requires MachineOk(m) && Sole(m, c, s) && AllCounted(m, s)
    ensures AllCounted(BeginNext(m, c), s)
  {
    hide MachineOk;
    hide AllCounted;
    hide BeginNext;
    hide InFlight;
    hide MountsOf;
    BeginInFlight(m, c, s);
    BeginEntries(m, c);
    CountedSame(m, BeginNext(m, c), s);
  }

  lemma LandsCounted(m: Machine, c: nat, s: Text)
    requires MachineOk(m) && Orderly(m, s) && AllCounted(m, s) && Sole(m, c, s) && Lands(m, c)
    ensures AllCounted(ServeChain(m, c, Honest), s)
  {
    LandsOnServer(m, c, s);
    CurrentIsLatest(m, c, s);
    hide MachineOk;
    hide Orderly;
    hide InFlight;
    hide ServeChain;
    var a, n := m.chains[c].activity, ServeChain(m, c, Honest);
    forall i | 0 <= i < |n.held| && n.held[i].session == s
      ensures Counted(n, i)
    {
      assert Counted(m, i);
      assert i != a.obj ==> m.held[i].runId != m.held[a.obj].runId;
    }
  }

  lemma ServeCounted(m: Machine, c: nat, fate: Fate, s: Text)
    requires MachineOk(m) && Orderly(m, s) && AllCounted(m, s) && Sole(m, c, s)
    requires fate == LoseReply ==> !m.chains[c].activity.Mounting?
    ensures AllCounted(ServeChain(m, c, fate), s)
  {
    hide MachineOk;
    hide Orderly;
    hide AllCounted;
    hide ServeChain;
    hide MountsOf;
    hide InFlight;
    if Lands(m, c) && fate == Honest {
      LandsCounted(m, c, s);
    } else {
      ServeIsQuiet(m, c, fate, s);
      CountedSame(m, ServeChain(m, c, fate), s);
    }
  }

  lemma HoldCounted(m: Machine, c: nat, s: Text)
    requires MachineOk(m) && PendingEmpty(m, s) && AllCounted(m, s) && Sole(m, c, s) && Started(m.chains[c])
    ensures AllCounted(ContinueChain(m, c), s)
  {
    hide MachineOk;
    hide RunId;
    var n := ContinueChain(m, c);
    assert InFlight(m, s) == [] && InFlight(n, s) == [];
    assert MountsOf(m.server, PendingId(m.chains[c])) == [];
    hide InFlight;
    hide MountsOf;
    forall i | 0 <= i < |n.held| && n.held[i].session == s
      ensures Counted(n, i)
    {
      if i < |m.held| {
        assert Counted(m, i) && n.held[i] == m.held[i];
      }
    }
  }

  lemma ReturnCounted(m: Machine, c: nat, s: Text)
    requires MachineOk(m) && AllCounted(m, s) && Sole(m, c, s) && Landing(m.chains[c].activity) != []
    ensures AllCounted(ContinueChain(m, c), s)
  {
    ActivityAt(m, c);
    ReturnStep(m, c, s);
    hide MachineOk;
    hide InFlight;
    hide MountsOf;
    hide ContinueChain;
    var n := ContinueChain(m, c);
    forall i | 0 <= i < |n.held| && n.held[i].session == s
      ensures Counted(n, i)
    {
      assert m.held[i].session == s;
      assert Counted(m, i);
    }
  }

  lemma ContinueCounted(m: Machine, c: nat, s: Text)
    requires MachineOk(m) && PendingEmpty(m, s) && AllCounted(m, s) && Sole(m, c, s)
    ensures AllCounted(ContinueChain(m, c), s)
  {
    hide MachineOk;
    hide AllCounted;
    hide PendingEmpty;
    hide ContinueChain;
    if Started(m.chains[c]) {
      HoldCounted(m, c, s);
    } else if Landing(m.chains[c].activity) != [] {
      ReturnCounted(m, c, s);
    } else {
      hide MountsOf;
      var b := ContinueQuiet(m, c);
      CountedSame(m, SetActivity(m, c, b), s);
    }
  }

  lemma ActCounted(m: Machine, a: Action, s: Text)
    requires MachineOk(m) && Orderly(m, s) && PendingEmpty(m, s) && AllCounted(m, s) && Tame(m, a, s) && Acts(m, a, s)
    ensures AllCounted(Next(m, a), s)
  {
    hide MachineOk;
    hide Orderly;
    hide PendingEmpty;
    hide AllCounted;
    hide Ours;
    hide Enqueue;
    hide BeginNext;
    hide ServeChain;
    hide ContinueChain;
    hide Sole;
    match a
    case CallMount(_, uri) => EnqueueCounted(m, MountOp(uri), s);
    case CallCommit(_) => EnqueueCounted(m, CommitOp, s);
    case Begin(c) => SoleChain(m, c, s); BeginCounted(m, c, s);
    case Serve(c, fate) => SoleChain(m, c, s); ServeCounted(m, c, fate, s);
    case Continue(c) => SoleChain(m, c, s); ContinueCounted(m, c, s);
    case _ =>
  }

  lemma NextCounted(m: Machine, a: Action, s: Text)
    requires MachineOk(m) && Orderly(m, s) && PendingEmpty(m, s) && AllCounted(m, s) && Tame(m, a, s)
    ensures AllCounted(Next(m, a), s)
  {
    assert a != Forget(s);
    var b := Plainly(m, a, s);
    hide MachineOk;
    hide Orderly;
    hide PendingEmpty;
    hide AllCounted;
    hide Next;
    hide Acts;
    hide Tame;
    if Acts(m, b, s) {
      ActCounted(m, b, s);
    } else {
      NextUntouched(m, b, s);
      NextSameMounts(m, b, s);
      CountedUntouched(m, Next(m, b), s);
    }
  }

  // All that is kept of s as long as its history is tame.
  ghost predicate Kept(m: Machine, s: Text) {
    MachineOk(m) && Orderly(m, s) && InOrder(m, s) && PendingEmpty(m, s) && Balanced(m, s) && AllCounted(m, s)
  }

  lemma {:induction false} ExecCounted(m: Machine, actions: seq<Action>, s: Text)
    requires Kept(m, s) && TameRun(m, actions, s)
    ensures Kept(Exec(m, actions), s)
    decreases |actions|
  {
    hide MachineOk;
    hide Orderly;
    hide InOrder;
    hide PendingEmpty;
    hide Balanced;
    hide AllCounted;
    hide Next;
    if actions != [] {
      var a := actions[0];
      assert a != Forget(s);
      hide Tame;
      NextKeeps(m, a);
      NextOrderly(m, a, s);
      NextBalanced(m, a, s);
      NextCounted(m, a, s);
      ExecCounted(Next(m, a), actions[1..], s);
    }
  }

  // The session's commit is next in its chain.
  predicate CommitIsNext(m: Machine, c: nat, s: Text) {
    && c < |m.chains| && m.chains[c].session == s && m.chains[c].activity.Idle?
    && m.chains[c].waiting != [] && m.chains[c].waiting[0].op.CommitOp?
  }

  // MAIN RESULT. When a commit's turn comes, the session's open run is closed, and a
  // commit is requested for it exactly when the server has recorded mounts in it.
  lemma CommitsWhatWasRead(actions: seq<Action>, c: nat, s: Text)
    requires TameRun(START, actions, s) && CommitIsNext(Exec(START, actions), c, s)
    ensures var m := Exec(START, actions);
            var n := BeginNext(m, c);
            c < |n.chains| &&
            if s in m.states && m.states[s] < |m.held| && m.held[m.states[s]].open then
              var obj := m.states[s];
              && obj < |n.held| && !n.held[obj].open
              && n.chains[c].activity ==
                 if MountsOf(m.server, m.held[obj].runId) == [] then Idle else Committing(obj, false)
            else n.chains[c].activity.Idle? && n.held == m.held
  {
    hide Exec;
    StartHistory(s);
    ExecCounted(START, actions, s);
    CommitTurn(Exec(START, actions), c, s);
  }

  lemma CommitTurn(m: Machine, c: nat, s: Text)
    requires MachineOk(m) && Orderly(m, s) && AllCounted(m, s) && CommitIsNext(m, c, s)
    ensures var n := BeginNext(m, c);
            c < |n.chains| &&
            if s in m.states && m.states[s] < |m.held| && m.held[m.states[s]].open then
              var obj := m.states[s];
              && obj < |n.held| && !n.held[obj].open
              && n.chains[c].activity ==
                 if MountsOf(m.server, m.held[obj].runId) == [] then Idle else Committing(obj, false)
            else n.chains[c].activity.Idle? && n.held == m.held
  {
    CurrentAt(m, s);
    SoleChain(m, c, s);
    assert InFlight(m, s) == [];
    hide MachineOk;
    hide Orderly;
    hide InFlight;
    if s in m.states && m.states[s] < |m.held| {
      assert Counted(m, m.states[s]);
    }
  }
}
