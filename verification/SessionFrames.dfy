/**
  What a step leaves alone: an action of one session, of the server on its behalf, or
  of another writer, seen from a session it does not concern.
 */
module SessionFrames {
  import opened ByteStrings
  import opened Sessions
  import opened SessionOwnership

  function MountsOf(server: Server, id: Text): seq<Text> {
    if id in server then server[id].mounts else []
  }

  /******* Histories considered *******/

  // The runs a session holds or is about to hold.
  ghost predicate Ours(m: Machine, id: Text, s: Text) {
    || (exists i :: 0 <= i < |m.held| && m.held[i].session == s && m.held[i].runId == id)
    || (exists c :: && 0 <= c < |m.chains| && m.chains[c].session == s
                    && Started(m.chains[c]) && PendingId(m.chains[c]) == id)
  }

  // Nothing forgets s, no reply to a mount of s is lost, and nobody else mounts into
  // its runs. Other sessions do as they like.
  ghost predicate Tame(m: Machine, a: Action, s: Text) {
    && a != Forget(s)
    && (a.Serve? && a.fate == LoseReply && a.c < |m.chains| && m.chains[a.c].session == s ==>
          !m.chains[a.c].activity.Mounting?)
    && (a.OutsideMount? ==> !Ours(m, a.id, s))
  }

  ghost predicate TameRun(m: Machine, actions: seq<Action>, s: Text)
    decreases |actions|
  {
    actions == [] || (Tame(m, actions[0], s) && TameRun(Next(m, actions[0]), actions[1..], s))
  }

  // Only forgetting s is excluded.
  predicate Remembering(actions: seq<Action>, s: Text) {
    forall i | 0 <= i < |actions| :: actions[i] != Forget(s)
  }

  /******* Frames *******/

  ghost predicate SameChains(h: seq<Chain>, k: seq<Chain>, s: Text) {
    && |h| <= |k|
    && (forall d | 0 <= d < |h| && h[d].session == s :: k[d] == h[d])
    && (forall d | 0 <= d < |k| && k[d].session == s :: d < |h| && h[d].session == s)
  }

  ghost predicate SameHeld(h: seq<Held>, k: seq<Held>, s: Text) {
    && |h| <= |k|
    && (forall i | 0 <= i < |h| && h[i].session == s :: k[i] == h[i])
    && (forall i | 0 <= i < |k| && k[i].session == s :: i < |h| && h[i].session == s)
  }

  ghost predicate SameKey(h: map<Text, nat>, k: map<Text, nat>, s: Text) {
    (s in k <==> s in h) && (s in h ==> k[s] == h[s])
  }

  // Everything the client keeps for s is as it was.
  ghost predicate Untouched(m: Machine, n: Machine, s: Text) {
    && SameChains(m.chains, n.chains, s) && SameHeld(m.held, n.held, s)
    && SameKey(m.queues, n.queues, s) && SameKey(m.states, n.states, s)
    && DoneOf(n, s) == DoneOf(m, s) && m.calls <= n.calls
  }

  // So are the mounts of its runs on the server.
  ghost predicate SameMounts(m: Machine, n: Machine, s: Text) {
    && (forall i | 0 <= i < |m.held| && m.held[i].session == s ::
          MountsOf(n.server, m.held[i].runId) == MountsOf(m.server, m.held[i].runId))
    && (forall d | 0 <= d < |m.chains| && m.chains[d].session == s && Started(m.chains[d]) ::
          MountsOf(n.server, PendingId(m.chains[d])) == MountsOf(m.server, PendingId(m.chains[d])))
  }

  // The action is one of s itself.
  predicate Acts(m: Machine, a: Action, s: Text) {
    match a
    case CallMount(t, _) => t == s
    case CallCommit(t) => t == s
    case Begin(c) => c < |m.chains| && m.chains[c].session == s
    case Serve(c, _) => c < |m.chains| && m.chains[c].session == s
    case Continue(c) => c < |m.chains| && m.chains[c].session == s
    case _ => false
  }

  // commitIfOwned is a commit of some session, or nothing.
  lemma Plainly(m: Machine, a: Action, s: Text) returns (b: Action)
    ensures Next(m, b) == Next(m, a) && !b.CallCommitIfOwned?
    ensures a != Forget(s) ==> b != Forget(s)
    ensures Tame(m, a, s) ==> Tame(m, b, s)
  {
    hide Enqueue;
    b := a;
    if a.CallCommitIfOwned? {
      if t :| Owns(m, t, a.target) {
        var owner :| Owns(m, owner, a.target) && Next(m, a) == Enqueue(m, owner, CommitOp);
        b := CallCommit(owner);
      } else {
        b := Begin(|m.chains|);
      }
    }
  }

  /******* Steps of others *******/

  lemma EnqueueUntouched(m: Machine, t: Text, op: Op, s: Text)
    requires MachineOk(m) && t != s
    ensures Untouched(m, Enqueue(m, t, op), s)
  {
    QueueIsOwn(m, t);
    SameKeyReflexive(m.states, s);
    SameHeldReflexive(m.held, s);
    hide MachineOk;
    hide SameHeld;
  }

  lemma QueueIsOwn(m: Machine, t: Text)
    requires MachineOk(m)
    ensures t in m.queues && m.queues[t] < |m.chains| ==> m.chains[m.queues[t]].session == t
  {
  }

  lemma ForgetUntouched(m: Machine, t: Text, s: Text)
    requires t != s
    ensures Untouched(m, Next(m, Forget(t)), s)
  {
  }

  // Another session's chain moves on, with its own held objects and results.
  lemma UntouchedLocal(m: Machine, n: Machine, c: nat, s: Text)
    requires c < |m.chains| && m.chains[c].session != s && c < |n.chains| && n.chains[c].session != s
    requires n.chains == m.chains[c := n.chains[c]] && n.queues == m.queues && n.calls == m.calls
    requires SameHeld(m.held, n.held, s) && SameKey(m.states, n.states, s) && DoneOf(n, s) == DoneOf(m, s)
    ensures Untouched(m, n, s)
  {
    hide SameHeld;
    hide SameKey;
    hide DoneOf;
    assert SameKey(m.queues, n.queues, s) by { SameKeyReflexive(m.queues, s); }
  }

  lemma SameKeyReflexive(h: map<Text, nat>, s: Text)
    ensures SameKey(h, h, s)
  {
  }

  lemma SameHeldUpdate(h: seq<Held>, i: nat, x: Held, s: Text)
    requires i < |h| && h[i].session != s && x.session != s
    ensures SameHeld(h, h[i := x], s) && SameHeld(h, h + [x], s) && SameHeld(h, h, s)
  {
  }

  lemma UntouchedTwice(m: Machine, n: Machine, k: Machine, s: Text)
    requires Untouched(m, n, s) && Untouched(n, k, s)
    ensures Untouched(m, k, s)
  {
  }

  lemma BeginUntouched(m: Machine, c: nat, s: Text)
    requires MachineOk(m) && c < |m.chains| && m.chains[c].session != s
    ensures Untouched(m, BeginNext(m, c), s)
  {
    hide MachineOk;
    hide Starting;
    var chain := m.chains[c];
    SameKeyReflexive(m.states, s);
    if chain.activity.Idle? && chain.waiting != [] {
      var popped := chain.(waiting := chain.waiting[1..]);
      var n := m.(chains := m.chains[c := popped]);
      UntouchedLocal(m, n, c, s);
      LocalStep(m, n, c, popped);
      StartingUntouched(n, c, chain.waiting[0], s);
      hide Untouched;
      UntouchedTwice(m, n, Starting(n, c, chain.waiting[0]), s);
    } else {
      UntouchedReflexive(m, s);
    }
  }

  lemma UntouchedReflexive(m: Machine, s: Text)
    ensures Untouched(m, m, s)
  {
  }

  lemma StartingUntouched(m: Machine, c: nat, t: Ticket, s: Text)
    requires MachineOk(m) && c < |m.chains| && m.chains[c].session != s
    ensures Untouched(m, Starting(m, c, t), s)
  {
    hide MachineOk;
    hide Untouched;
    hide SameHeld;
    var session := m.chains[c].session;
    CurrentAt(m, session);
    SameKeyReflexive(m.states, s);
    var n := Starting(m, c, t);
    assert SameHeld(m.held, m.held, s) by { SameHeldReflexive(m.held, s); }
    if t.op.CommitOp? && Current(m, session).Some? {
      var obj := Current(m, session).value;
      SameHeldUpdate(m.held, obj, m.held[obj].(open := false), s);
    }
    UntouchedLocal(m, n, c, s);
  }

  lemma SameHeldReflexive(h: seq<Held>, s: Text)
    ensures SameHeld(h, h, s)
  {
  }

  lemma ServeUntouched(m: Machine, c: nat, fate: Fate, s: Text)
    requires c < |m.chains| && m.chains[c].session != s
    ensures Untouched(m, ServeChain(m, c, fate), s)
  {
    ServeShape(m, c, fate);
    SameKeyReflexive(m.states, s);
    SameHeldReflexive(m.held, s);
    hide ServeChain;
    hide SameHeld;
    hide Untouched;
    UntouchedLocal(m, ServeChain(m, c, fate), c, s);
  }

  // A request changes the server and what its chain is waiting for.
  lemma ServeShape(m: Machine, c: nat, fate: Fate)
    requires c < |m.chains|
    ensures var n := ServeChain(m, c, fate);
            && |n.chains| == |m.chains| && n.chains[c].session == m.chains[c].session
            && n == m.(server := n.server, chains := m.chains[c := n.chains[c]])
  {
    hide ServeStart;
    hide ServeMount;
    hide ServeCommit;
    assert m.chains[c := m.chains[c]] == m.chains;
  }

  // A mount the server has recorded and the client has not yet been told about.
  function Landing(a: Activity): seq<Row> {
    if a.Mounting? && a.landed.Some? && a.landed.value.Landed? then [Row(a.obj, a.landed.value.position, a.uri)] else []
  }

  // A reply that neither opens a run nor lands a mount: the chain ends its operation,
  // probes the next epoch or goes on waiting.
  lemma ContinueQuiet(m: Machine, c: nat) returns (b: Activity)
    requires c < |m.chains| && !Started(m.chains[c]) && Landing(m.chains[c].activity) == []
    ensures ContinueChain(m, c) == SetActivity(m, c, b)
    ensures var a := m.chains[c].activity;
            b == a || b == Idle || (a.Opening? && b == Opening(a.number, a.uri, a.from, a.epoch + 1, None))
  {
    b := ContinueChain(m, c).chains[c].activity;
  }

  lemma ContinueUntouched(m: Machine, c: nat, s: Text)
    requires MachineOk(m) && c < |m.chains| && m.chains[c].session != s
    ensures Untouched(m, ContinueChain(m, c), s)
  {
    hide MachineOk;
    hide Untouched;
    hide ContinueChain;
    if Started(m.chains[c]) {
      HoldUntouched(m, c, s);
    } else if Landing(m.chains[c].activity) != [] {
      ReturnUntouched(m, c, s);
    } else {
      var b := ContinueQuiet(m, c);
      SameHeldReflexive(m.held, s);
      SameKeyReflexive(m.states, s);
      UntouchedLocal(m, SetActivity(m, c, b), c, s);
    }
  }

  lemma HoldUntouched(m: Machine, c: nat, s: Text)
    requires c < |m.chains| && m.chains[c].session != s && Started(m.chains[c])
    ensures Untouched(m, ContinueChain(m, c), s)
  {
    hide Untouched;
    hide RunId;
    var n := ContinueChain(m, c);
    assert SameHeld(m.held, n.held, s);
    assert SameKey(m.states, n.states, s);
    hide SameHeld;
    hide SameKey;
    UntouchedLocal(m, n, c, s);
  }

  lemma ReturnUntouched(m: Machine, c: nat, s: Text)
    requires MachineOk(m) && c < |m.chains| && m.chains[c].session != s && Landing(m.chains[c].activity) != []
    ensures Untouched(m, ContinueChain(m, c), s)
  {
    hide MachineOk;
    hide Untouched;
    hide SameHeld;
    ActivityAt(m, c);
    var a, n := m.chains[c].activity, ContinueChain(m, c);
    SameHeldUpdate(m.held, a.obj, m.held[a.obj].(entries := a.landed.value.position + 1), s);
    SameKeyReflexive(m.states, s);
    UntouchedLocal(m, n, c, s);
  }

  lemma NextUntouched(m: Machine, a: Action, s: Text)
    requires MachineOk(m) && a != Forget(s) && !a.CallCommitIfOwned? && !Acts(m, a, s)
    ensures Untouched(m, Next(m, a), s)
  {
    hide MachineOk;
    hide Enqueue;
    hide BeginNext;
    hide ServeChain;
    hide ContinueChain;
    match a
    case CallMount(t, uri) => EnqueueUntouched(m, t, MountOp(uri), s);
    case CallCommit(t) => EnqueueUntouched(m, t, CommitOp, s);
    case CallCommitIfOwned(_) =>
    case Forget(t) => ForgetUntouched(m, t, s);
    case Begin(c) => if c < |m.chains| { BeginUntouched(m, c, s); }
    case Serve(c, fate) => if c < |m.chains| { ServeUntouched(m, c, fate, s); }
    case Continue(c) => if c < |m.chains| { ContinueUntouched(m, c, s); }
    case OutsideStart(_) =>
    case OutsideMount(_, _) =>
    case OutsideCommit(_) =>
  }

  /******* Mounts *******/

  // No run of s is the one another session's chain mounts into or commits.
  lemma RunsApart(m: Machine, obj: nat, s: Text)
    requires MachineOk(m) && obj < |m.held| && m.held[obj].session != s
    ensures forall i | 0 <= i < |m.held| && m.held[i].session == s :: m.held[i].runId != m.held[obj].runId
    ensures forall d | 0 <= d < |m.chains| && Started(m.chains[d]) :: PendingId(m.chains[d]) != m.held[obj].runId
  {
  }

  lemma RunsExist(m: Machine)
    requires MachineOk(m)
    ensures forall i | 0 <= i < |m.held| :: m.held[i].runId in m.server
    ensures forall d | 0 <= d < |m.chains| && Started(m.chains[d]) :: PendingId(m.chains[d]) in m.server
  {
  }

  // The run with this id may change, and none of s is it.
  lemma SameMountsBut(m: Machine, n: Machine, id: Text, s: Text)
    requires forall x | x != id :: MountsOf(n.server, x) == MountsOf(m.server, x)
    requires !Ours(m, id, s) || MountsOf(n.server, id) == MountsOf(m.server, id)
    ensures SameMounts(m, n, s)
  {
    hide MountsOf;
  }

  lemma NewRunElsewhere(m: Machine, id: Text, s: Text)
    requires MachineOk(m) && id !in m.server
    ensures !Ours(m, id, s)
  {
    RunsExist(m);
  }

  lemma RunElsewhere(m: Machine, obj: nat, s: Text)
    requires MachineOk(m) && obj < |m.held| && m.held[obj].session != s
    ensures !Ours(m, m.held[obj].runId, s)
  {
    RunsApart(m, obj, s);
  }

  // The request of a chain concerns one run.
  lemma ServeOpeningServer(m: Machine, c: nat, fate: Fate)
    requires c < |m.chains| && m.chains[c].activity.Opening?
    ensures var id := RunId(m.chains[c].session, m.chains[c].activity.epoch);
            var n := ServeChain(m, c, fate);
            && (forall x | x != id :: MountsOf(n.server, x) == MountsOf(m.server, x))
            && (id in m.server ==> MountsOf(n.server, id) == MountsOf(m.server, id))
  {
    hide RunId;
  }

  lemma ServeMountingServer(m: Machine, c: nat, fate: Fate)
    requires c < |m.chains| && m.chains[c].activity.Mounting? && m.chains[c].activity.obj < |m.held|
    ensures var id, n := m.held[m.chains[c].activity.obj].runId, ServeChain(m, c, fate);
            forall x | x != id :: MountsOf(n.server, x) == MountsOf(m.server, x)
  {
  }

  lemma ServeCommittingServer(m: Machine, c: nat, fate: Fate)
    requires c < |m.chains| && m.chains[c].activity.Committing? && m.chains[c].activity.obj < |m.held|
    ensures var id, n := m.held[m.chains[c].activity.obj].runId, ServeChain(m, c, fate);
            forall x | x != id :: MountsOf(n.server, x) == MountsOf(m.server, x)
  {
  }

  lemma ServeSameMounts(m: Machine, c: nat, fate: Fate, s: Text)
    requires MachineOk(m) && c < |m.chains| && m.chains[c].session != s
    ensures SameMounts(m, ServeChain(m, c, fate), s)
  {
    ActivityAt(m, c);
    hide MachineOk;
    hide Ours;
    hide RunId;
    hide SameMounts;
    var a, n := m.chains[c].activity, ServeChain(m, c, fate);
    if a.Idle? {
      SameMountsBut(m, n, [], s);
    } else if a.Opening? {
      var id := RunId(m.chains[c].session, a.epoch);
      ServeOpeningServer(m, c, fate);
      hide ServeChain;
      if id !in m.server {
        NewRunElsewhere(m, id, s);
      }
      SameMountsBut(m, n, id, s);
    } else {
      RunElsewhere(m, a.obj, s);
      if a.Mounting? {
        ServeMountingServer(m, c, fate);
      } else {
        ServeCommittingServer(m, c, fate);
      }
      hide ServeChain;
      SameMountsBut(m, n, m.held[a.obj].runId, s);
    }
  }

  lemma OutsideSameMounts(m: Machine, a: Action, s: Text)
    requires MachineOk(m) && Tame(m, a, s) && (a.OutsideStart? || a.OutsideMount? || a.OutsideCommit?)
    ensures SameMounts(m, Next(m, a), s)
  {
    hide MachineOk;
    hide Ours;
    hide SameMounts;
    if a.OutsideStart? && a.id !in m.server {
      NewRunElsewhere(m, a.id, s);
    }
    SameMountsBut(m, Next(m, a), a.id, s);
  }

  lemma NextSameMounts(m: Machine, a: Action, s: Text)
    requires MachineOk(m) && Tame(m, a, s) && !a.CallCommitIfOwned? && !Acts(m, a, s)
    ensures SameMounts(m, Next(m, a), s)
  {
    hide MachineOk;
    hide MountsOf;
    hide Ours;
    hide RunId;
    match a
    case Serve(c, fate) =>
      hide ServeChain;
      if c < |m.chains| { ServeSameMounts(m, c, fate, s); }
    case OutsideStart(_) => OutsideSameMounts(m, a, s);
    case OutsideMount(_, _) => OutsideSameMounts(m, a, s);
    case OutsideCommit(_) => OutsideSameMounts(m, a, s);
    case _ =>
  }
}
