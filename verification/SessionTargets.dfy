/**
  commitIfOwned(target) looks the target up at once but commits when its turn comes: it
  commits the target exactly when no other commit was queued before it.
 */
module SessionTargets {
  import opened ByteStrings
  import opened Sessions
  import opened SessionOwnership
  import opened SessionFrames
  import opened SessionHistory

  predicate MountsOnly(waiting: seq<Ticket>) {
    forall i | 0 <= i < |waiting| :: waiting[i].op.MountOp?
  }

  // The commit numbered k waits in chain c behind p other operations.
  ghost predicate WaitsAt(m: Machine, c: nat, k: nat, p: nat) {
    && c < |m.chains| && k < |m.calls|
    && p < |m.chains[c].waiting| && m.chains[c].waiting[p] == Ticket(k, CommitOp)
    && forall i | 0 <= i < |m.chains[c].waiting| && i != p :: m.chains[c].waiting[i].number != k
  }

  // It has had its turn.
  ghost predicate Gone(m: Machine, c: nat, k: nat) {
    && c < |m.chains| && k < |m.calls|
    && forall i | 0 <= i < |m.chains[c].waiting| :: m.chains[c].waiting[i].number != k
  }

  ghost predicate IsRun(m: Machine, obj: nat, s: Text, target: Text) {
    PointsTo(m.held, obj, s) && m.held[obj].runId == target
  }

  // The run is the session's open one, and its chain is not about to replace it.
  ghost predicate Live(m: Machine, c: nat, s: Text, obj: nat) {
    && c < |m.chains| && (m.chains[c].activity.Idle? || m.chains[c].activity.Mounting?)
    && s in m.states && m.states[s] == obj && obj < |m.held| && m.held[obj].open
  }

  ghost predicate Shut(m: Machine, obj: nat) { obj < |m.held| && !m.held[obj].open }

  // What is still ahead of the commit decides whether it finds the run open.
  ghost predicate Decided(m: Machine, c: nat, s: Text, obj: nat, only: bool, p: nat)
    requires c < |m.chains| && p < |m.chains[c].waiting|
  {
    || (Live(m, c, s, obj) && (only <==> MountsOnly(m.chains[c].waiting[..p])))
    || (Shut(m, obj) && !only)
  }

  ghost predicate Turn(m: Machine, c: nat, s: Text, target: Text, obj: nat, only: bool, k: nat) {
    && IsRun(m, obj, s, target)
    && (Gone(m, c, k) || exists p: nat :: WaitsAt(m, c, k, p) && Decided(m, c, s, obj, only, p))
  }

  /******* Steps *******/

  lemma TurnUntouched(m: Machine, n: Machine, c: nat, s: Text, target: Text, obj: nat, only: bool, k: nat)
    requires Turn(m, c, s, target, obj, only, k) && Sole(m, c, s) && Untouched(m, n, s)
    ensures Turn(n, c, s, target, obj, only, k)
  {
    assert n.chains[c] == m.chains[c] && n.held[obj] == m.held[obj];
    if !Gone(m, c, k) {
      var p: nat :| WaitsAt(m, c, k, p) && Decided(m, c, s, obj, only, p);
      assert WaitsAt(n, c, k, p) && Decided(n, c, s, obj, only, p);
    }
  }

  // The chain's activity moves on, its queue and the run's openness do not.
  lemma TurnSame(m: Machine, n: Machine, c: nat, s: Text, target: Text, obj: nat, only: bool, k: nat)
    requires Turn(m, c, s, target, obj, only, k) && n.calls == m.calls
    requires c < |m.chains| && c < |n.chains| && n.chains[c].waiting == m.chains[c].waiting
    requires IsRun(n, obj, s, target) && n.held[obj].open == m.held[obj].open
    requires Live(m, c, s, obj) ==> Live(n, c, s, obj)
    ensures Turn(n, c, s, target, obj, only, k)
  {
    if !Gone(m, c, k) {
      var p: nat :| WaitsAt(m, c, k, p) && Decided(m, c, s, obj, only, p);
      assert WaitsAt(n, c, k, p) && Decided(n, c, s, obj, only, p);
    }
  }

  lemma EnqueueTurn(m: Machine, c: nat, op: Op, s: Text, target: Text, obj: nat, only: bool, k: nat)
    requires Turn(m, c, s, target, obj, only, k) && Sole(m, c, s)
    ensures Turn(Enqueue(m, s, op), c, s, target, obj, only, k)
  {
    var n := Enqueue(m, s, op);
    if !Gone(m, c, k) {
      var p: nat :| WaitsAt(m, c, k, p) && Decided(m, c, s, obj, only, p);
      assert n.chains[c].waiting[..p] == m.chains[c].waiting[..p];
      assert WaitsAt(n, c, k, p) && Decided(n, c, s, obj, only, p);
    }
  }

  // The operation at the head begins: a mount leaves an open run open, a commit closes it.
  lemma StartingRun(m: Machine, c: nat, t: Ticket, s: Text, target: Text, obj: nat)
    requires MachineOk(m) && Sole(m, c, s) && IsRun(m, obj, s, target) && m.chains[c].activity.Idle?
    ensures var n := Starting(m, c, t);
            && n.calls == m.calls && c < |n.chains| && n.chains[c].waiting == m.chains[c].waiting
            && IsRun(n, obj, s, target)
            && (Shut(m, obj) ==> Shut(n, obj))
            && (Live(m, c, s, obj) ==> if t.op.MountOp? then Live(n, c, s, obj) else Shut(n, obj))
  {
    CurrentAt(m, s);
    hide MachineOk;
  }

  // The operation that was first has begun, and those behind it have moved up.
  ghost predicate Popped(m: Machine, n: Machine, c: nat, s: Text, obj: nat) {
    && c < |m.chains| && m.chains[c].waiting != []
    && n.calls == m.calls && c < |n.chains| && n.chains[c].waiting == m.chains[c].waiting[1..]
    && (Shut(m, obj) ==> Shut(n, obj))
    && (Live(m, c, s, obj) ==> if m.chains[c].waiting[0].op.MountOp? then Live(n, c, s, obj) else Shut(n, obj))
  }

  lemma PopDecided(m: Machine, n: Machine, c: nat, s: Text, obj: nat, only: bool, k: nat, p: nat)
    requires Popped(m, n, c, s, obj) && p > 0
    requires WaitsAt(m, c, k, p) && Decided(m, c, s, obj, only, p)
    ensures WaitsAt(n, c, k, p - 1) && Decided(n, c, s, obj, only, p - 1)
  {
    hide Live;
    hide Shut;
    hide MountsOnly;
    var w := m.chains[c].waiting;
    assert w[..p] == [w[0]] + w[1..][..p - 1];
    OneMoreMount(w[0], w[1..][..p - 1]);
  }

  lemma PopIsPopped(m: Machine, c: nat, s: Text, target: Text, obj: nat)
    requires MachineOk(m) && Sole(m, c, s) && IsRun(m, obj, s, target)
    requires m.chains[c].activity.Idle? && m.chains[c].waiting != []
    ensures var n := BeginNext(m, c); IsRun(n, obj, s, target) && Popped(m, n, c, s, obj)
  {
    var chain := m.chains[c];
    var popped := chain.(waiting := chain.waiting[1..]);
    var q := m.(chains := m.chains[c := popped]);
    LocalStep(m, q, c, popped);
    hide MachineOk;
    hide Starting;
    StartingRun(q, c, chain.waiting[0], s, target, obj);
    assert BeginNext(m, c) == Starting(q, c, chain.waiting[0]);
  }

  lemma PopTurn(m: Machine, c: nat, s: Text, target: Text, obj: nat, only: bool, k: nat)
    requires MachineOk(m) && Turn(m, c, s, target, obj, only, k) && Sole(m, c, s)
    requires m.chains[c].activity.Idle? && m.chains[c].waiting != []
    ensures Turn(BeginNext(m, c), c, s, target, obj, only, k)
  {
    PopIsPopped(m, c, s, target, obj);
    hide MachineOk;
    hide BeginNext;
    hide Sole;
    var n := BeginNext(m, c);
    if Gone(m, c, k) {
      assert Gone(n, c, k);
    } else {
      var p: nat :| WaitsAt(m, c, k, p) && Decided(m, c, s, obj, only, p);
      if p == 0 {
        assert Gone(n, c, k);
      } else {
        PopDecided(m, n, c, s, obj, only, k, p);
      }
    }
  }

  lemma OneMoreMount(t: Ticket, rest: seq<Ticket>)
    ensures MountsOnly([t] + rest) <==> t.op.MountOp? && MountsOnly(rest)
  {
    if MountsOnly([t] + rest) {
      assert ([t] + rest)[0] == t;
      forall i | 0 <= i < |rest| ensures rest[i].op.MountOp? { assert ([t] + rest)[i + 1] == rest[i]; }
    }
  }

  lemma BeginTurn(m: Machine, c: nat, s: Text, target: Text, obj: nat, only: bool, k: nat)
    requires MachineOk(m) && Turn(m, c, s, target, obj, only, k) && Sole(m, c, s)
    ensures Turn(BeginNext(m, c), c, s, target, obj, only, k)
  {
    hide MachineOk;
    hide Turn;
    hide Starting;
    if m.chains[c].activity.Idle? && m.chains[c].waiting != [] {
      PopTurn(m, c, s, target, obj, only, k);
    }
  }

  lemma ServeTurn(m: Machine, c: nat, fate: Fate, s: Text, target: Text, obj: nat, only: bool, k: nat)
    requires Turn(m, c, s, target, obj, only, k) && Sole(m, c, s)
    ensures Turn(ServeChain(m, c, fate), c, s, target, obj, only, k)
  {
    assert IsRun(m, obj, s, target);
    hide Turn;
    hide ServeStart;
    hide ServeMount;
    hide ServeCommit;
    TurnSame(m, ServeChain(m, c, fate), c, s, target, obj, only, k);
  }

  // What a step of the chain leaves of the run it may be about to commit.
  ghost predicate SameTarget(m: Machine, n: Machine, c: nat, s: Text, target: Text, obj: nat)
    requires c < |m.chains| && obj < |m.held|
  {
    && n.calls == m.calls && c < |n.chains| && n.chains[c].waiting == m.chains[c].waiting
    && IsRun(n, obj, s, target) && n.held[obj].open == m.held[obj].open
    && (Live(m, c, s, obj) ==> Live(n, c, s, obj))
  }

  lemma ContinueMounting(m: Machine, c: nat, s: Text, target: Text, obj: nat)
    requires Sole(m, c, s) && IsRun(m, obj, s, target) && m.chains[c].activity.Mounting?
    ensures SameTarget(m, ContinueChain(m, c), c, s, target, obj)
  {
  }

  lemma ContinueOther(m: Machine, c: nat, s: Text, target: Text, obj: nat)
    requires Sole(m, c, s) && IsRun(m, obj, s, target) && !m.chains[c].activity.Mounting?
    ensures SameTarget(m, ContinueChain(m, c), c, s, target, obj)
  {
    hide RunId;
  }

  lemma ContinueRun(m: Machine, c: nat, s: Text, target: Text, obj: nat)
    requires MachineOk(m) && Sole(m, c, s) && IsRun(m, obj, s, target)
    ensures SameTarget(m, ContinueChain(m, c), c, s, target, obj)
  {
    ActivityAt(m, c);
    hide MachineOk;
    hide SameTarget;
    hide ContinueChain;
    if m.chains[c].activity.Mounting? {
      ContinueMounting(m, c, s, target, obj);
    } else {
      ContinueOther(m, c, s, target, obj);
    }
  }

  lemma ContinueTurn(m: Machine, c: nat, s: Text, target: Text, obj: nat, only: bool, k: nat)
    requires MachineOk(m) && Turn(m, c, s, target, obj, only, k) && Sole(m, c, s)
    ensures Turn(ContinueChain(m, c), c, s, target, obj, only, k)
  {
    assert IsRun(m, obj, s, target);
    ContinueRun(m, c, s, target, obj);
    hide MachineOk;
    hide Turn;
    hide Live;
    hide ContinueChain;
    TurnSame(m, ContinueChain(m, c), c, s, target, obj, only, k);
  }

  lemma NextTurn(m: Machine, a: Action, c: nat, s: Text, target: Text, obj: nat, only: bool, k: nat)
    requires MachineOk(m) && Orderly(m, s) && a != Forget(s) && Sole(m, c, s)
    requires Turn(m, c, s, target, obj, only, k)
    ensures Turn(Next(m, a), c, s, target, obj, only, k)
  {
    var b := Plainly(m, a, s);
    hide Orderly;
    hide Turn;
    hide Next;
    if Acts(m, b, s) {
      ActsTurn(m, b, c, s, target, obj, only, k);
    } else {
      NextUntouched(m, b, s);
      TurnUntouched(m, Next(m, b), c, s, target, obj, only, k);
    }
  }

  lemma ActsTurn(m: Machine, a: Action, c: nat, s: Text, target: Text, obj: nat, only: bool, k: nat)
    requires MachineOk(m) && Sole(m, c, s) && Acts(m, a, s) && !a.CallCommitIfOwned?
    requires a != Forget(s) && Turn(m, c, s, target, obj, only, k)
    ensures Turn(Next(m, a), c, s, target, obj, only, k)
  {
    hide MachineOk;
    hide Turn;
    hide Enqueue;
    hide BeginNext;
    hide ServeChain;
    hide ContinueChain;
    match a
    case CallMount(_, uri) => EnqueueTurn(m, c, MountOp(uri), s, target, obj, only, k);
    case CallCommit(_) => EnqueueTurn(m, c, CommitOp, s, target, obj, only, k);
    case Begin(_) => BeginTurn(m, c, s, target, obj, only, k);
    case Serve(_, fate) => ServeTurn(m, c, fate, s, target, obj, only, k);
    case Continue(_) => ContinueTurn(m, c, s, target, obj, only, k);
    case _ =>
  }

  // s keeps its one chain.
  lemma NextSole(m: Machine, a: Action, c: nat, s: Text)
    requires MachineOk(m) && Orderly(m, s) && InOrder(m, s) && a != Forget(s) && Sole(m, c, s)
    ensures Sole(Next(m, a), c, s)
  {
    NextKeeps(m, a);
    NextOrderly(m, a, s);
    ChainStays(m, a, c);
    hide InOrder;
    hide Next;
    SoleChain(Next(m, a), c, s);
  }

  ghost predicate KeepsChain(m: Machine, n: Machine, c: nat)
    requires c < |m.chains|
  {
    c < |n.chains| && n.chains[c].session == m.chains[c].session
  }

  lemma EnqueueKeepsChain(m: Machine, t: Text, op: Op, c: nat)
    requires c < |m.chains|
    ensures KeepsChain(m, Enqueue(m, t, op), c)
  {
  }

  lemma StepKeepsChain(m: Machine, d: nat, c: nat)
    requires c < |m.chains| && d < |m.chains|
    ensures KeepsChain(m, BeginNext(m, d), c) && KeepsChain(m, ContinueChain(m, d), c)
  {
    hide BeginNext;
    hide ContinueChain;
    BeginKeepsChain(m, d, c);
    ContinueKeepsChain(m, d, c);
  }

  lemma BeginKeepsChain(m: Machine, d: nat, c: nat)
    requires c < |m.chains| && d < |m.chains|
    ensures KeepsChain(m, BeginNext(m, d), c)
  {
  }

  lemma ContinueKeepsChain(m: Machine, d: nat, c: nat)
    requires c < |m.chains| && d < |m.chains|
    ensures KeepsChain(m, ContinueChain(m, d), c)
  {
    hide RunId;
    hide DoneOf;
  }

  lemma ServeKeepsChain(m: Machine, d: nat, fate: Fate, c: nat)
    requires c < |m.chains| && d < |m.chains|
    ensures KeepsChain(m, ServeChain(m, d, fate), c)
  {
    hide ServeStart;
    hide ServeMount;
    hide ServeCommit;
    hide RunId;
  }

  lemma ChainStays(m: Machine, a: Action, c: nat)
    requires c < |m.chains|
    ensures KeepsChain(m, Next(m, a), c)
  {
    hide Enqueue;
    hide BeginNext;
    hide ServeChain;
    hide ContinueChain;
    match a
    case CallMount(t, uri) => EnqueueKeepsChain(m, t, MountOp(uri), c);
    case CallCommit(t) => EnqueueKeepsChain(m, t, CommitOp, c);
    case CallCommitIfOwned(_) => forall t { EnqueueKeepsChain(m, t, CommitOp, c); }
    case Begin(d) => if d < |m.chains| { StepKeepsChain(m, d, c); }
    case Serve(d, fate) => if d < |m.chains| { ServeKeepsChain(m, d, fate, c); }
    case Continue(d) => if d < |m.chains| { StepKeepsChain(m, d, c); }
    case _ =>
  }

  lemma {:induction false} ExecTurn(
    m: Machine, actions: seq<Action>, c: nat, s: Text, target: Text, obj: nat, only: bool, k: nat)
    requires MachineOk(m) && Orderly(m, s) && InOrder(m, s) && Sole(m, c, s) && Remembering(actions, s)
    requires Turn(m, c, s, target, obj, only, k)
    ensures var n := Exec(m, actions); MachineOk(n) && Sole(n, c, s) && Turn(n, c, s, target, obj, only, k)
    decreases |actions|
  {
    hide MachineOk;
    hide Orderly;
    hide InOrder;
    hide Sole;
    hide Turn;
    hide Next;
    if actions != [] {
      var a := actions[0];
      NextKeeps(m, a);
      NextOrderly(m, a, s);
      NextSole(m, a, c, s);
      NextTurn(m, a, c, s, target, obj, only, k);
      ExecTurn(Next(m, a), actions[1..], c, s, target, obj, only, k);
    }
  }

  /******* The result *******/

  // commitIfOwned queues a commit for the one session that owns the target.
  lemma QueuesForOwner(m: Machine, s: Text, target: Text)
    requires MachineOk(m) && Owns(m, s, target)
    ensures Next(m, CallCommitIfOwned(target)) == Enqueue(m, s, CommitOp)
  {
    hide MachineOk;
    hide Owns;
    hide Enqueue;
    forall t | Owns(m, t, target)
      ensures t == s
    {
      OwnersAgree(m, s, t, target);
    }
  }

  lemma OwnersAgree(m: Machine, s: Text, t: Text, target: Text)
    requires MachineOk(m) && Owns(m, s, target) && Owns(m, t, target)
    ensures s == t
  {
    CurrentAt(m, s);
    CurrentAt(m, t);
    OneHolder(m, m.states[s], m.states[t]);
    hide MachineOk;
  }

  lemma TurnStarts(m: Machine, s: Text, target: Text, c: nat)
    requires MachineOk(m) && Orderly(m, s) && Owns(m, s, target) && Sole(m, c, s)
    requires forall i | 0 <= i < |m.chains[c].waiting| :: m.chains[c].waiting[i].number < |m.calls|
    ensures var n := Enqueue(m, s, CommitOp);
            Sole(n, c, s) && Turn(n, c, s, target, m.states[s], MountsOnly(m.chains[c].waiting), |m.calls|)
  {
    CurrentAt(m, s);
    SoleChain(m, c, s);
    hide MachineOk;
    hide Orderly;
    var n, p := Enqueue(m, s, CommitOp), |m.chains[c].waiting|;
    assert n.chains[c].waiting[..p] == m.chains[c].waiting;
    assert Live(n, c, s, m.states[s]);
    assert WaitsAt(n, c, |m.calls|, p);
    assert Decided(n, c, s, m.states[s], MountsOnly(m.chains[c].waiting), p);
  }

  lemma NumbersWereCalled(m: Machine, c: nat, s: Text)
    requires InOrder(m, s) && c < |m.chains| && m.chains[c].session == s
    ensures forall i | 0 <= i < |m.chains[c].waiting| :: m.chains[c].waiting[i].number < |m.calls|
  {
    assert ChainInOrder(m.calls, m.chains[c], DoneOf(m, s));
    forall i | 0 <= i < |m.chains[c].waiting|
      ensures m.chains[c].waiting[i].number < |m.calls|
    {
      assert Asked(m.calls, m.chains[c].waiting[i].number, s, m.chains[c].waiting[i].op);
    }
  }

  // At its turn the run is the session's open one exactly if only mounts were ahead.
  lemma TurnMeans(m: Machine, c: nat, s: Text, target: Text, obj: nat, only: bool, k: nat)
    requires MachineOk(m) && Turn(m, c, s, target, obj, only, k) && Sole(m, c, s)
    requires m.chains[c].activity.Idle? && m.chains[c].waiting != [] && m.chains[c].waiting[0] == Ticket(k, CommitOp)
    ensures Owns(m, s, target) <==> only
  {
    var p: nat :| WaitsAt(m, c, k, p) && Decided(m, c, s, obj, only, p);
    assert p == 0;
    assert m.chains[c].waiting[..0] == [];
    if Owns(m, s, target) {
      assert m.held[m.states[s]].runId == m.held[obj].runId;
      assert m.states[s] == obj by { OneHolder(m, m.states[s], obj); }
    }
  }

  lemma OneHolder(m: Machine, i: nat, j: nat)
    requires MachineOk(m) && i < |m.held| && j < |m.held| && m.held[i].runId == m.held[j].runId
    ensures i == j
  {
  }

  // A session that was never forgotten and owns a run has a chain.
  lemma OwnerHasChain(before: seq<Action>, s: Text, target: Text)
    requires Remembering(before, s) && Owns(Exec(START, before), s, target)
    ensures var m := Exec(START, before);
            s in m.queues && m.queues[s] < |m.chains| && m.chains[m.queues[s]].session == s
  {
    hide MachineOk;
    hide Orderly;
    hide InOrder;
    hide Exec;
    StartHistory(s);
    ExecOrderly(START, before, s);
    CurrentFacts(Exec(START, before), s);
  }

  // The operation now at the head of chain c is a commit of this run.
  ghost predicate CommitsRun(m: Machine, c: nat, target: Text)
    requires c < |m.chains|
  {
    var n := BeginNext(m, c);
    c < |n.chains| && n.chains[c].activity.Committing? && n.chains[c].activity.obj < |n.held|
    && n.held[n.chains[c].activity.obj].runId == target
  }

  lemma CommitsWhatItOwns(m: Machine, c: nat, s: Text, target: Text)
    requires MachineOk(m) && c < |m.chains| && m.chains[c].session == s
    requires m.chains[c].activity.Idle? && m.chains[c].waiting != [] && m.chains[c].waiting[0].op.CommitOp?
    ensures CommitsRun(m, c, target) <==> Owns(m, s, target) && m.held[m.states[s]].entries > 0
  {
    CurrentAt(m, s);
    hide MachineOk;
  }

  /******* When the session is forgotten on the way *******/

  // The run is known; once the session is gone, it points elsewhere or nowhere.
  ghost predicate Lost(m: Machine, s: Text, target: Text, obj: nat, gone: bool) {
    && obj < |m.held| && m.held[obj].runId == target
    && (gone && s in m.states ==> m.states[s] != obj)
  }

  lemma StepLost(m: Machine, c: nat, s: Text, target: Text, obj: nat, gone: bool)
    requires c < |m.chains| && Lost(m, s, target, obj, gone)
    ensures Lost(BeginNext(m, c), s, target, obj, gone) && Lost(ContinueChain(m, c), s, target, obj, gone)
  {
    hide Lost;
    hide BeginNext;
    hide ContinueChain;
    BeginLost(m, c, s, target, obj, gone);
    ContinueLost(m, c, s, target, obj, gone);
  }

  lemma BeginLost(m: Machine, c: nat, s: Text, target: Text, obj: nat, gone: bool)
    requires c < |m.chains| && Lost(m, s, target, obj, gone)
    ensures Lost(BeginNext(m, c), s, target, obj, gone)
  {
  }

  lemma ContinueLost(m: Machine, c: nat, s: Text, target: Text, obj: nat, gone: bool)
    requires c < |m.chains| && Lost(m, s, target, obj, gone)
    ensures Lost(ContinueChain(m, c), s, target, obj, gone)
  {
    hide RunId;
    hide DoneOf;
  }

  lemma ServeLost(m: Machine, c: nat, fate: Fate, s: Text, target: Text, obj: nat, gone: bool)
    requires c < |m.chains| && Lost(m, s, target, obj, gone)
    ensures Lost(ServeChain(m, c, fate), s, target, obj, gone)
  {
    hide RunId;
    hide ServeStart;
    hide ServeMount;
    hide ServeCommit;
  }

  // It never comes back: a session only ever opens new runs.
  lemma NextLost(m: Machine, a: Action, s: Text, target: Text, obj: nat, gone: bool)
    requires Lost(m, s, target, obj, gone)
    ensures Lost(Next(m, a), s, target, obj, gone || a == Forget(s))
  {
    hide BeginNext;
    hide ServeChain;
    hide ContinueChain;
    match a
    case Begin(c) => if c < |m.chains| { StepLost(m, c, s, target, obj, gone); }
    case Serve(c, fate) => if c < |m.chains| { ServeLost(m, c, fate, s, target, obj, gone); }
    case Continue(c) => if c < |m.chains| { StepLost(m, c, s, target, obj, gone); }
    case _ =>
  }

  lemma RememberingRest(actions: seq<Action>, s: Text)
    requires actions != []
    ensures Remembering(actions, s) <==> actions[0] != Forget(s) && Remembering(actions[1..], s)
  {
    if actions[0] != Forget(s) && Remembering(actions[1..], s) {
      forall i | 0 <= i < |actions|
        ensures actions[i] != Forget(s)
      {
        assert i > 0 ==> actions[i] == actions[1..][i - 1];
      }
    }
  }

  lemma {:induction false} ExecLost(
    m: Machine, actions: seq<Action>, c: nat, s: Text, target: Text, obj: nat, gone: bool)
    requires MachineOk(m) && Lost(m, s, target, obj, gone) && c < |m.chains| && m.chains[c].session == s
    ensures var n := Exec(m, actions);
            && MachineOk(n) && Lost(n, s, target, obj, gone || !Remembering(actions, s))
            && c < |n.chains| && n.chains[c].session == s
    decreases |actions|
  {
    hide MachineOk;
    hide Next;
    if actions != [] {
      hide Lost;
      hide Remembering;
      var a := actions[0];
      NextKeeps(m, a);
      NextLost(m, a, s, target, obj, gone);
      ChainStays(m, a, c);
      RememberingRest(actions, s);
      ExecLost(Next(m, a), actions[1..], c, s, target, obj, gone || a == Forget(s));
    }
  }

  lemma LostIsNotOwned(m: Machine, s: Text, target: Text, obj: nat)
    requires MachineOk(m) && Lost(m, s, target, obj, true)
    ensures !Owns(m, s, target)
  {
    if Owns(m, s, target) {
      OneHolder(m, m.states[s], obj);
    }
  }

  // The ticket of a commitIfOwned is the next operation of the chain it joined.
  ghost predicate HasItsTurn(n: Machine, c: nat, k: nat) {
    && c < |n.chains| && n.chains[c].activity.Idle?
    && n.chains[c].waiting != [] && n.chains[c].waiting[0] == Ticket(k, CommitOp)
  }

  lemma RememberedTarget(before: seq<Action>, later: seq<Action>, s: Text, target: Text, c: nat)
    requires Remembering(before, s) && Remembering(later, s)
    requires var m := Exec(START, before);
             && Owns(m, s, target) && s in m.queues && m.queues[s] == c && c < |m.chains|
             && HasItsTurn(Exec(Next(m, CallCommitIfOwned(target)), later), c, |m.calls|)
    ensures var m := Exec(START, before);
            var n := Exec(Next(m, CallCommitIfOwned(target)), later);
            Owns(n, s, target) <==> MountsOnly(m.chains[c].waiting)
  {
    hide MachineOk;
    hide Orderly;
    hide InOrder;
    hide Sole;
    hide Turn;
    hide Exec;
    hide Next;
    hide Enqueue;
    hide MountsOnly;
    StartHistory(s);
    ExecOrderly(START, before, s);
    var m := Exec(START, before);
    var only, k := MountsOnly(m.chains[c].waiting), |m.calls|;
    CurrentFacts(m, s);
    NumbersWereCalled(m, c, s);
    QueuesForOwner(m, s, target);
    TurnStarts(m, s, target, c);
    var q := Next(m, CallCommitIfOwned(target));
    NextKeeps(m, CallCommitIfOwned(target));
    NextOrderly(m, CallCommitIfOwned(target), s);
    ExecTurn(q, later, c, s, target, m.states[s], only, k);
    TurnMeans(Exec(q, later), c, s, target, m.states[s], only, k);
  }

  lemma ForgottenTarget(before: seq<Action>, later: seq<Action>, s: Text, target: Text, c: nat)
    requires Remembering(before, s)
    requires var m := Exec(START, before); Owns(m, s, target) && s in m.queues && m.queues[s] == c && c < |m.chains|
    ensures var n := Exec(Next(Exec(START, before), CallCommitIfOwned(target)), later);
            && MachineOk(n) && c < |n.chains| && n.chains[c].session == s
            && (!Remembering(later, s) ==> !Owns(n, s, target))
  {
    hide MachineOk;
    hide Orderly;
    hide InOrder;
    hide Exec;
    hide Next;
    hide Remembering;
    StartHistory(s);
    ExecOrderly(START, before, s);
    var m := Exec(START, before);
    CurrentFacts(m, s);
    var a, obj := CallCommitIfOwned(target), m.states[s];
    NextKeeps(m, a);
    NextLost(m, a, s, target, obj, false);
    ChainStays(m, a, c);
    hide Lost;
    ExecLost(Next(m, a), later, c, s, target, obj, false);
    if !Remembering(later, s) {
      LostIsNotOwned(Exec(Next(m, a), later), s, target, obj);
    }
  }

  // MAIN RESULT. A commitIfOwned of the session's open run, when its turn comes, finds
  // that run still open exactly if no commit was queued before it and the session was not
  // forgotten since, and then commits it unless it is empty. Other sessions, lost replies
  // and other writers change nothing.
  lemma CommitsTargetIff(before: seq<Action>, later: seq<Action>, s: Text, target: Text, c: nat)
    requires Remembering(before, s)
    requires var m := Exec(START, before);
             && Owns(m, s, target) && s in m.queues && m.queues[s] == c && c < |m.chains|
             && HasItsTurn(Exec(Next(m, CallCommitIfOwned(target)), later), c, |m.calls|)
    ensures var m := Exec(START, before);
            var n := Exec(Next(m, CallCommitIfOwned(target)), later);
            && (Owns(n, s, target) <==> MountsOnly(m.chains[c].waiting) && Remembering(later, s))
            && (CommitsRun(n, c, target) <==> Owns(n, s, target) && n.held[n.states[s]].entries > 0)
  {
    hide MachineOk;
    hide Exec;
    hide Next;
    hide MountsOnly;
    hide Remembering;
    hide CommitsRun;
    ForgottenTarget(before, later, s, target, c);
    if Remembering(later, s) {
      RememberedTarget(before, later, s, target, c);
    }
    CommitsWhatItOwns(Exec(Next(Exec(START, before), CallCommitIfOwned(target)), later), c, s, target);
  }
}
