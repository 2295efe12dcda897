/**
  Who holds which run: whatever sessions, forgetting, overlapping opens, lost replies
  and other writers do, no run id is ever held twice.
 */
module SessionOwnership {
  import opened ByteStrings
  import opened Sessions

  /******* Run ids *******/

  lemma {:induction false} DecimalInjective(m: nat, n: nat)
    requires Decimal(m) == Decimal(n)
    ensures m == n
    decreases m + n
  {
    DecimalLength(m);
    DecimalLength(n);
    if m >= 10 {
      var d, e := Decimal(m), Decimal(n);
      assert d[|d| - 1] == 48 + m % 10 && e[|e| - 1] == 48 + n % 10;
      assert d[..|d| - 1] == Decimal(m / 10) && e[..|e| - 1] == Decimal(n / 10);
      DecimalInjective(m / 10, n / 10);
    }
  }

  lemma DecimalLength(n: nat)
    ensures n < 10 <==> |Decimal(n)| == 1
  {
  }

  // One session never uses one id for two epochs.
  lemma EpochsDiffer(session: Text, e: nat, f: nat)
    requires e >= 1 && f >= 1 && RunId(session, e) == RunId(session, f)
    ensures e == f
  {
    var base := RunIdBase(session);
    if e != 1 && f != 1 {
      assert RunId(session, e)[|base| + 1..] == Decimal(e) && RunId(session, f)[|base| + 1..] == Decimal(f);
      DecimalInjective(e, f);
    }
  }

  lemma {:induction false} DecimalHasNoDash(n: nat)
    ensures DASH !in Decimal(n)
    decreases n
  {
    if n >= 10 {
      DecimalHasNoDash(n / 10);
    }
  }

  // Where the last dash is decides where the epoch begins.
  lemma LastDash(a: Text, d: Text, b: Text, e: Text)
    requires a + [DASH] + d == b + [DASH] + e && DASH !in d && DASH !in e
    ensures a == b && d == e
  {
    var x, y := a + [DASH] + d, b + [DASH] + e;
    assert x[|a|] == DASH && forall i | |a| < i < |x| :: x[i] == d[i - |a| - 1];
    assert y[|b|] == DASH && forall i | |b| < i < |y| :: y[i] == e[i - |b| - 1];
    assert x[..|a|] == a && y[..|b|] == b && x[|a| + 1..] == d && y[|b| + 1..] == e;
  }

  // t's base is s's base and an epoch above the first.
  predicate ReadsAsEpoch(s: Text, t: Text, f: nat) {
    f > 1 && RunIdBase(s) == RunIdBase(t) + [DASH] + Decimal(f)
  }

  // MAIN RESULT. Two run ids are the same string exactly if they are the same epoch of
  // sessions with one base, or one is a first epoch whose base reads like a later epoch
  // of the other.
  lemma RunIdsEqualIff(s: Text, e: nat, t: Text, f: nat)
    requires e >= 1 && f >= 1
    ensures RunId(s, e) == RunId(t, f) <==>
            || (e == f && RunIdBase(s) == RunIdBase(t))
            || (e == 1 && ReadsAsEpoch(s, t, f))
            || (f == 1 && ReadsAsEpoch(t, s, e))
  {
    hide RunIdBase;
    hide Decimal;
    if e > 1 && f > 1 && RunId(s, e) == RunId(t, f) {
      DecimalHasNoDash(e);
      DecimalHasNoDash(f);
      LastDash(RunIdBase(s), Decimal(e), RunIdBase(t), Decimal(f));
      DecimalInjective(e, f);
    }
  }

  // Different sessions can: by sanitizing, by cutting at 96 units, or because one
  // session's id ends like another's epoch.
  lemma SessionsCollide()
    ensures RunIdBase([97, 32, 98]) == RunIdBase([97, 45, 98])
    ensures RunId([97], 2) == RunId([97, 45, 50], 1)
    ensures RunIdBase([]) == RunIdBase(SESSION)
    ensures forall s, t: Text | |s| == 96 :: RunIdBase(s + t) == RunIdBase(s)
  {
    assert Sanitize([97, 32, 98]) == Sanitize([97, 45, 98]);
    assert Sanitize([97]) == [97] && Sanitize([97, 45, 50]) == [97, 45, 50];
    assert Decimal(2) == [50];
    assert DSH + [97] + [DASH] + [50] == DSH + [97, 45, 50];
    assert Sanitize(SESSION) == SESSION;
    forall s, t: Text | |s| == 96
      ensures RunIdBase(s + t) == RunIdBase(s)
    {
      assert Sanitize(s + t)[..96] == Sanitize(s);
    }
  }

  /******* Ownership *******/

  // A chain whose run was started but that has not been told yet.
  predicate Started(chain: Chain) {
    chain.activity.Opening? && chain.activity.started == Some(Created)
  }

  function PendingId(chain: Chain): Text
    requires Started(chain)
  {
    RunId(chain.session, chain.activity.epoch)
  }

  ghost predicate HeldOk(held: seq<Held>, server: Server) {
    && (forall i | 0 <= i < |held| ::
          held[i].runId in server && held[i].runId == RunId(held[i].session, held[i].epoch) && held[i].epoch >= 1)
    && (forall i, j | 0 <= i < j < |held| :: held[i].runId != held[j].runId)
  }

  ghost predicate PendingOk(chains: seq<Chain>, held: seq<Held>, server: Server) {
    && (forall c | 0 <= c < |chains| && Started(chains[c]) ::
          && PendingId(chains[c]) in server
          && forall i | 0 <= i < |held| :: held[i].runId != PendingId(chains[c]))
    && (forall c, d | 0 <= c < d < |chains| && Started(chains[c]) && Started(chains[d]) ::
          PendingId(chains[c]) != PendingId(chains[d]))
  }

  // Indices point where they should.
  ghost predicate PointsTo(held: seq<Held>, obj: nat, session: Text) {
    obj < |held| && held[obj].session == session
  }

  ghost predicate ActivityOk(held: seq<Held>, chain: Chain) {
    match chain.activity
    case Idle => true
    case Opening(_, _, from, epoch, _) => 1 <= from <= epoch < from + MAX_EPOCH_PROBE
    case Mounting(_, _, obj, _) => PointsTo(held, obj, chain.session)
    case Committing(obj, _) => PointsTo(held, obj, chain.session)
  }

  ghost predicate PointersOk(m: Machine) {
    && (forall s | s in m.states :: PointsTo(m.held, m.states[s], s))
    && (forall s | s in m.queues :: m.queues[s] < |m.chains| && m.chains[m.queues[s]].session == s)
    && (forall c | 0 <= c < |m.chains| :: ActivityOk(m.held, m.chains[c]))
  }

  ghost predicate MachineOk(m: Machine) {
    HeldOk(m.held, m.server) && PendingOk(m.chains, m.held, m.server) && PointersOk(m)
  }

  /******* Small facts *******/

  // Same run ids, possibly other fields.
  ghost predicate SameRuns(h: seq<Held>, k: seq<Held>) {
    |h| == |k| && forall i | 0 <= i < |h| ::
      h[i].runId == k[i].runId && h[i].session == k[i].session && h[i].epoch == k[i].epoch
  }

  lemma HeldStays(h: seq<Held>, k: seq<Held>, server: Server, server': Server)
    requires HeldOk(h, server) && SameRuns(h, k) && server.Keys <= server'.Keys
    ensures HeldOk(k, server')
  {
  }

  // Chain c changes without becoming Started.
  lemma PendingStays(
    chains: seq<Chain>, h: seq<Held>, k: seq<Held>, server: Server, server': Server, c: nat, chain: Chain)
    requires PendingOk(chains, h, server) && SameRuns(h, k) && server.Keys <= server'.Keys
    requires c < |chains| && chain.session == chains[c].session && (Started(chain) ==> chain == chains[c])
    ensures PendingOk(chains[c := chain], k, server')
  {
  }

  lemma ActivityStays(h: seq<Held>, k: seq<Held>, chain: Chain)
    requires ActivityOk(h, chain) && |h| <= |k| && forall i | 0 <= i < |h| :: k[i].session == h[i].session
    ensures ActivityOk(k, chain)
  {
  }

  // Everything but one chain's activity, the fields of held objects and the server's
  // runs stays as it was.
  lemma LocalStep(m: Machine, n: Machine, c: nat, chain: Chain)
    requires MachineOk(m) && c < |m.chains|
    requires n == m.(server := n.server, held := n.held, chains := m.chains[c := chain], done := n.done)
    requires SameRuns(m.held, n.held) && m.server.Keys <= n.server.Keys
    requires chain.session == m.chains[c].session && (Started(chain) ==> chain == m.chains[c])
    requires ActivityOk(n.held, chain)
    ensures MachineOk(n)
  {
    HeldStays(m.held, n.held, m.server, n.server);
    PendingStays(m.chains, m.held, n.held, m.server, n.server, c, chain);
    forall d | 0 <= d < |n.chains|
      ensures ActivityOk(n.held, n.chains[d])
    {
      if d != c {
        ActivityStays(m.held, n.held, m.chains[d]);
      }
    }
  }

  lemma ActivityAt(m: Machine, c: nat)
    requires MachineOk(m) && c < |m.chains|
    ensures ActivityOk(m.held, m.chains[c])
  {
  }

  lemma CurrentAt(m: Machine, session: Text)
    requires MachineOk(m)
    ensures Current(m, session).Some? ==>
              PointsTo(m.held, Current(m, session).value, session) && m.held[Current(m, session).value].epoch >= 1
  {
  }

  /******* Steps *******/

  lemma QueueAt(m: Machine, session: Text)
    requires MachineOk(m) && session in m.queues
    ensures m.queues[session] < |m.chains| && m.chains[m.queues[session]].session == session
  {
  }

  lemma JoinKeeps(m: Machine, c: nat, ticket: Ticket)
    requires MachineOk(m) && c < |m.chains|
    ensures MachineOk(m.(chains := m.chains[c := m.chains[c].(waiting := m.chains[c].waiting + [ticket])]))
  {
    var chain := m.chains[c].(waiting := m.chains[c].waiting + [ticket]);
    assert Started(chain) <==> Started(m.chains[c]);
    forall d | 0 <= d < |m.chains| && Started(m.chains[c := chain][d])
      ensures Started(m.chains[d]) && PendingId(m.chains[c := chain][d]) == PendingId(m.chains[d])
    {
    }
  }

  lemma NewChainKeeps(m: Machine, session: Text, ticket: Ticket)
    requires MachineOk(m)
    ensures MachineOk(m.(chains := m.chains + [Chain(session, [ticket], Idle)],
                         queues := m.queues[session := |m.chains|]))
  {
    var chains := m.chains + [Chain(session, [ticket], Idle)];
    assert !Started(chains[|m.chains|]);
    forall c | 0 <= c < |chains| && Started(chains[c])
      ensures c < |m.chains| && chains[c] == m.chains[c]
    {
    }
  }

  lemma CallsDoNotMatter(m: Machine, calls: seq<Call>)
    requires MachineOk(m)
    ensures MachineOk(m.(calls := calls))
  {
  }

  lemma EnqueueKeeps(m: Machine, session: Text, op: Op)
    requires MachineOk(m)
    ensures MachineOk(Enqueue(m, session, op))
  {
    var ticket := Ticket(|m.calls|, op);
    var asked := m.(calls := m.calls + [Call(session, op)]);
    CallsDoNotMatter(m, asked.calls);
    if session in m.queues {
      QueueAt(m, session);
      JoinKeeps(asked, m.queues[session], ticket);
    } else {
      NewChainKeeps(asked, session, ticket);
    }
    hide MachineOk;
  }

  lemma BeginKeeps(m: Machine, c: nat)
    requires MachineOk(m) && c < |m.chains|
    ensures MachineOk(BeginNext(m, c))
  {
    hide MachineOk;
    hide Starting;
    var chain := m.chains[c];
    if chain.activity.Idle? && chain.waiting != [] {
      var popped := chain.(waiting := chain.waiting[1..]);
      var n := m.(chains := m.chains[c := popped]);
      LocalStep(m, n, c, popped);
      if chain.waiting[0].op.MountOp? {
        StartingMount(n, c, chain.waiting[0]);
      } else {
        StartingCommit(n, c, chain.waiting[0]);
      }
    }
  }

  lemma StartingMount(m: Machine, c: nat, t: Ticket)
    requires MachineOk(m) && c < |m.chains| && t.op.MountOp?
    ensures MachineOk(Starting(m, c, t))
  {
    hide MachineOk;
    CurrentAt(m, m.chains[c].session);
    var n := Starting(m, c, t);
    LocalStep(m, n, c, n.chains[c]);
  }

  lemma StartingCommit(m: Machine, c: nat, t: Ticket)
    requires MachineOk(m) && c < |m.chains| && t.op.CommitOp?
    ensures MachineOk(Starting(m, c, t))
  {
    hide MachineOk;
    CurrentAt(m, m.chains[c].session);
    var n := Starting(m, c, t);
    LocalStep(m, n, c, n.chains[c]);
  }

  lemma ServeKeeps(m: Machine, c: nat, fate: Fate)
    requires MachineOk(m) && c < |m.chains|
    ensures MachineOk(ServeChain(m, c, fate))
  {
    hide MachineOk;
    hide ServeChain;
    match m.chains[c].activity
    case Idle => assert ServeChain(m, c, fate) == m by { ServeIdle(m, c, fate); }
    case Opening(_, _, _, _, _) => ServeOpening(m, c, fate);
    case Mounting(_, _, _, _) => ServeMounting(m, c, fate);
    case Committing(_, _) => ServeCommitting(m, c, fate);
  }

  lemma ServeIdle(m: Machine, c: nat, fate: Fate)
    requires c < |m.chains| && m.chains[c].activity.Idle?
    ensures ServeChain(m, c, fate) == m
  {
  }

  lemma ServeOpening(m: Machine, c: nat, fate: Fate)
    requires MachineOk(m) && c < |m.chains| && m.chains[c].activity.Opening?
    ensures MachineOk(ServeChain(m, c, fate))
  {
    hide MachineOk;
    ActivityAt(m, c);
    var n := ServeChain(m, c, fate);
    if m.chains[c].activity.started.None? {
      if Started(n.chains[c]) {
        CreatedKeeps(m, c);
      } else {
        LocalStep(m, n, c, n.chains[c]);
      }
    }
  }

  lemma ServeMounting(m: Machine, c: nat, fate: Fate)
    requires MachineOk(m) && c < |m.chains| && m.chains[c].activity.Mounting?
    ensures MachineOk(ServeChain(m, c, fate))
  {
    hide MachineOk;
    ActivityAt(m, c);
    if m.chains[c].activity.landed.None? {
      var n := ServeChain(m, c, fate);
      LocalStep(m, n, c, n.chains[c]);
    }
  }

  lemma ServeCommitting(m: Machine, c: nat, fate: Fate)
    requires MachineOk(m) && c < |m.chains| && m.chains[c].activity.Committing?
    ensures MachineOk(ServeChain(m, c, fate))
  {
    hide MachineOk;
    ActivityAt(m, c);
    if !m.chains[c].activity.served {
      var n := ServeChain(m, c, fate);
      LocalStep(m, n, c, n.chains[c]);
    }
  }

  // The server started a run that did not exist: nobody holds it or waits for it.
  lemma CreatedKeeps(m: Machine, c: nat)
    requires MachineOk(m) && c < |m.chains| && m.chains[c].activity.Opening? && m.chains[c].activity.started.None?
    requires RunId(m.chains[c].session, m.chains[c].activity.epoch) !in m.server
    ensures MachineOk(ServeChain(m, c, Honest))
  {
    var n := ServeChain(m, c, Honest);
    HeldStays(m.held, m.held, m.server, n.server);
    forall d | 0 <= d < |n.chains| && Started(n.chains[d])
      ensures PendingId(n.chains[d]) in n.server
      ensures forall i | 0 <= i < |m.held| :: m.held[i].runId != PendingId(n.chains[d])
    {
      if d != c {
        assert n.chains[d] == m.chains[d];
      }
    }
    forall d, e | 0 <= d < e < |n.chains| && Started(n.chains[d]) && Started(n.chains[e])
      ensures PendingId(n.chains[d]) != PendingId(n.chains[e])
    {
      if d != c { assert PendingId(n.chains[d]) in m.server; }
      if e != c { assert PendingId(n.chains[e]) in m.server; }
    }
  }

  lemma ContinueKeeps(m: Machine, c: nat)
    requires MachineOk(m) && c < |m.chains|
    ensures MachineOk(ContinueChain(m, c))
  {
    hide MachineOk;
    if Started(m.chains[c]) {
      HoldKeeps(m, c);
    } else if m.chains[c].activity.Mounting? {
      ContinueMounting(m, c);
    } else {
      ActivityAt(m, c);
      var n := ContinueChain(m, c);
      if n != m {
        LocalStep(m, n, c, n.chains[c]);
      }
    }
  }

  lemma ContinueMounting(m: Machine, c: nat)
    requires MachineOk(m) && c < |m.chains| && m.chains[c].activity.Mounting?
    ensures MachineOk(ContinueChain(m, c))
  {
    hide MachineOk;
    ActivityAt(m, c);
    if m.chains[c].activity.landed.Some? {
      var n := ContinueChain(m, c);
      LocalStep(m, n, c, n.chains[c]);
    }
  }

  // A started run becomes a held one.
  lemma HoldKeeps(m: Machine, c: nat)
    requires MachineOk(m) && c < |m.chains| && Started(m.chains[c])
    ensures MachineOk(ContinueChain(m, c))
  {
    var n := ContinueChain(m, c);
    var id := PendingId(m.chains[c]);
    assert n.held[|m.held|].runId == id;
    forall d | 0 <= d < |n.chains| && Started(n.chains[d])
      ensures d != c && n.chains[d] == m.chains[d] && PendingId(n.chains[d]) != id
    {
    }
    forall d | 0 <= d < |n.chains|
      ensures ActivityOk(n.held, n.chains[d])
    {
      if d != c {
        ActivityStays(m.held, n.held, m.chains[d]);
      }
    }
  }

  lemma OutsideKeeps(m: Machine, server: Server)
    requires MachineOk(m) && m.server.Keys <= server.Keys
    ensures MachineOk(m.(server := server))
  {
  }

  lemma NextKeeps(m: Machine, a: Action)
    requires MachineOk(m)
    ensures MachineOk(Next(m, a))
  {
    hide MachineOk;
    hide Enqueue;
    hide BeginNext;
    hide ServeChain;
    hide ContinueChain;
    match a
    case CallMount(session, uri) => EnqueueKeeps(m, session, MountOp(uri));
    case CallCommit(session) => EnqueueKeeps(m, session, CommitOp);
    case CallCommitIfOwned(target) =>
      forall session {
        EnqueueKeeps(m, session, CommitOp);
      }
    case Forget(session) => ForgetKeeps(m, session);
    case Begin(c) => if c < |m.chains| { BeginKeeps(m, c); }
    case Serve(c, fate) => if c < |m.chains| { ServeKeeps(m, c, fate); }
    case Continue(c) => if c < |m.chains| { ContinueKeeps(m, c); }
    case OutsideStart(id) => OutsideKeeps(m, Next(m, a).server);
    case OutsideMount(id, uri) => OutsideKeeps(m, Next(m, a).server);
    case OutsideCommit(id) => OutsideKeeps(m, Next(m, a).server);
  }

  lemma ForgetKeeps(m: Machine, session: Text)
    requires MachineOk(m)
    ensures MachineOk(m.(states := m.states - {session}, queues := m.queues - {session}))
  {
  }

  lemma StartOk()
    ensures MachineOk(START)
  {
  }

  lemma {:induction false} ExecKeepsOk(m: Machine, actions: seq<Action>)
    requires MachineOk(m)
    ensures MachineOk(Exec(m, actions))
    decreases |actions|
  {
    hide MachineOk;
    hide Next;
    if actions != [] {
      NextKeeps(m, actions[0]);
      ExecKeepsOk(Next(m, actions[0]), actions[1..]);
    }
  }

  // MAIN RESULT. In every reachable state each run id ever obtained is held by one
  // session in one epoch, is that session's id for that epoch, and exists on the server.
  lemma RunOwnership(actions: seq<Action>, i: nat, j: nat)
    requires var m := Exec(START, actions); i < |m.held| && j < |m.held|
    ensures var m := Exec(START, actions);
            && (m.held[i].runId == m.held[j].runId ==> i == j)
            && m.held[i].runId == RunId(m.held[i].session, m.held[i].epoch) && m.held[i].runId in m.server
            && (m.held[i].session == m.held[j].session && m.held[i].epoch == m.held[j].epoch ==> i == j)
  {
    StartOk();
    ExecKeepsOk(START, actions);
  }

  // So commitIfOwned finds at most one session for a target.
  lemma OneOwner(actions: seq<Action>, s: Text, t: Text, target: Text)
    requires var m := Exec(START, actions); Owns(m, s, target) && Owns(m, t, target)
    ensures s == t
  {
    StartOk();
    ExecKeepsOk(START, actions);
    var m := Exec(START, actions);
    RunOwnership(actions, m.states[s], m.states[t]);
  }

  /******* Probing *******/

  // Every id probed before this epoch was refused because it exists.
  ghost predicate RefusedTaken(server: Server, chain: Chain) {
    chain.activity.Opening? ==>
      && (forall e | chain.activity.from <= e < chain.activity.epoch :: RunId(chain.session, e) in server)
      && (chain.activity.started == Some(Refused) ==> RunId(chain.session, chain.activity.epoch) in server)
  }

  ghost predicate ProbesOk(m: Machine) {
    forall c | 0 <= c < |m.chains| :: RefusedTaken(m.server, m.chains[c])
  }

  // The server answers 500 only for ids that exist.
  predicate HonestRefusals(actions: seq<Action>) {
    forall i | 0 <= i < |actions| :: actions[i].Serve? ==> actions[i].fate != Refuse
  }

  // One chain changes, or one is added.
  lemma ProbesLocal(m: Machine, n: Machine, c: nat)
    requires ProbesOk(m) && m.server.Keys <= n.server.Keys && c < |n.chains|
    requires |m.chains| <= |n.chains| <= |m.chains| + 1 && (|n.chains| > |m.chains| ==> c == |m.chains|)
    requires forall d | 0 <= d < |m.chains| && d != c :: n.chains[d] == m.chains[d]
    requires RefusedTaken(n.server, n.chains[c])
    ensures ProbesOk(n)
  {
    forall d | 0 <= d < |n.chains|
      ensures RefusedTaken(n.server, n.chains[d])
    {
      if d != c {
        assert RefusedTaken(m.server, m.chains[d]);
      }
    }
  }

  lemma ProbesElsewhere(m: Machine, n: Machine)
    requires ProbesOk(m) && n.chains == m.chains && m.server.Keys <= n.server.Keys
    ensures ProbesOk(n)
  {
    forall d | 0 <= d < |n.chains|
      ensures RefusedTaken(n.server, n.chains[d])
    {
      assert RefusedTaken(m.server, m.chains[d]);
    }
  }

  lemma EnqueueProbes(m: Machine, session: Text, op: Op)
    requires ProbesOk(m)
    ensures ProbesOk(Enqueue(m, session, op))
  {
    var n := Enqueue(m, session, op);
    var c := if session in m.queues && m.queues[session] < |m.chains| then m.queues[session] else |m.chains|;
    if c < |m.chains| {
      assert RefusedTaken(m.server, m.chains[c]);
    }
    ProbesLocal(m, n, c);
  }

  lemma BeginProbes(m: Machine, c: nat)
    requires ProbesOk(m) && c < |m.chains|
    ensures ProbesOk(BeginNext(m, c))
  {
    hide ProbesOk;
    var n := BeginNext(m, c);
    if n != m {
      ProbesLocal(m, n, c);
    }
  }

  lemma ServeProbes(m: Machine, c: nat, fate: Fate)
    requires ProbesOk(m) && c < |m.chains| && fate != Refuse
    ensures ProbesOk(ServeChain(m, c, fate))
  {
    assert RefusedTaken(m.server, m.chains[c]);
    hide ProbesOk;
    var n := ServeChain(m, c, fate);
    if n != m {
      ProbesLocal(m, n, c);
    }
  }

  lemma ContinueProbes(m: Machine, c: nat)
    requires ProbesOk(m) && c < |m.chains|
    ensures ProbesOk(ContinueChain(m, c))
  {
    assert RefusedTaken(m.server, m.chains[c]);
    hide ProbesOk;
    var n := ContinueChain(m, c);
    if n != m {
      ProbesLocal(m, n, c);
    }
  }

  lemma NextProbes(m: Machine, a: Action)
    requires ProbesOk(m) && (a.Serve? ==> a.fate != Refuse)
    ensures ProbesOk(Next(m, a))
  {
    hide ProbesOk;
    hide Enqueue;
    hide BeginNext;
    hide ServeChain;
    hide ContinueChain;
    match a
    case CallMount(session, uri) => EnqueueProbes(m, session, MountOp(uri));
    case CallCommit(session) => EnqueueProbes(m, session, CommitOp);
    case CallCommitIfOwned(target) =>
      forall session {
        EnqueueProbes(m, session, CommitOp);
      }
    case Forget(session) => ProbesElsewhere(m, Next(m, a));
    case Begin(c) => if c < |m.chains| { BeginProbes(m, c); }
    case Serve(c, fate) => if c < |m.chains| { ServeProbes(m, c, fate); }
    case Continue(c) => if c < |m.chains| { ContinueProbes(m, c); }
    case OutsideStart(id) => ProbesElsewhere(m, Next(m, a));
    case OutsideMount(id, uri) => ProbesElsewhere(m, Next(m, a));
    case OutsideCommit(id) => ProbesElsewhere(m, Next(m, a));
  }

  lemma {:induction false} ExecProbes(m: Machine, actions: seq<Action>)
    requires ProbesOk(m) && HonestRefusals(actions)
    ensures ProbesOk(Exec(m, actions))
    decreases |actions|
  {
    hide ProbesOk;
    hide Next;
    if actions != [] {
      NextProbes(m, actions[0]);
      ExecProbes(Next(m, actions[0]), actions[1..]);
    }
  }

  // Chain c opened its run in m: n holds it, in the window, and nobody held it before.
  ghost predicate Opened(m: Machine, n: Machine, c: nat)
    requires c < |m.chains| && c < |n.chains| && m.chains[c].activity.Opening?
  {
    var a, b, session := m.chains[c].activity, n.chains[c].activity, m.chains[c].session;
    var obj := |m.held|;
    && a.from <= a.epoch < a.from + 16
    && n.held == m.held + [Held(session, RunId(session, a.epoch), a.epoch, 0, true)]
    && n.states == m.states[session := obj]
    && b == Mounting(a.number, a.uri, obj, None)
    && forall i | 0 <= i < |m.held| :: m.held[i].runId != RunId(session, a.epoch)
  }

  // Chain c did not open its run: it goes on with the next epoch of the window, or it
  // gives up, on an error or because every id of the window exists.
  ghost predicate NotOpened(m: Machine, n: Machine, c: nat)
    requires c < |m.chains| && c < |n.chains| && m.chains[c].activity.Opening?
  {
    var a, b, session := m.chains[c].activity, n.chains[c].activity, m.chains[c].session;
    && n.held == m.held && n.states == m.states
    && (|| (b == Opening(a.number, a.uri, a.from, a.epoch + 1, None) && a.epoch + 1 < a.from + 16)
        || (b == Idle && a.started == Some(StartFailed))
        || (b == Idle && forall e | a.from <= e < a.from + 16 :: RunId(session, e) in m.server))
  }

  // MAIN RESULT. An open ends holding an id of its window of 16 epochs that nobody
  // held, or fails; if the server's refusals are honest it fails only on an error or
  // when all 16 ids exist.
  lemma OpenOutcome(actions: seq<Action>, c: nat)
    requires HonestRefusals(actions)
    requires var m := Exec(START, actions);
             c < |m.chains| && m.chains[c].activity.Opening? && m.chains[c].activity.started.Some?
    ensures var m, n := Exec(START, actions), Exec(START, actions + [Continue(c)]);
            && c < |n.chains|
            && if m.chains[c].activity.started == Some(Created) then Opened(m, n, c) else NotOpened(m, n, c)
  {
    hide Exec;
    StartOk();
    StartProbes();
    ExecKeepsOk(START, actions);
    ExecProbes(START, actions);
    ExecOneMore(START, actions, Continue(c));
    OpenStep(Exec(START, actions), c);
  }

  lemma StartProbes()
    ensures ProbesOk(START)
  {
  }

  lemma OpenStep(m: Machine, c: nat)
    requires MachineOk(m) && ProbesOk(m)
    requires c < |m.chains| && m.chains[c].activity.Opening? && m.chains[c].activity.started.Some?
    ensures if m.chains[c].activity.started == Some(Created) then Opened(m, ContinueChain(m, c), c)
            else NotOpened(m, ContinueChain(m, c), c)
  {
    assert RefusedTaken(m.server, m.chains[c]);
    ActivityAt(m, c);
    assert Started(m.chains[c]) ==> forall i | 0 <= i < |m.held| :: m.held[i].runId != PendingId(m.chains[c]);
    hide MachineOk;
    hide ProbesOk;
  }

  lemma {:induction false} ExecOneMore(m: Machine, actions: seq<Action>, a: Action)
    ensures Exec(m, actions + [a]) == Next(Exec(m, actions), a)
    decreases |actions|
  {
    hide Next;
    if actions == [] {
      assert actions + [a] == [a];
      assert Exec(Next(m, a), []) == Next(m, a);
    } else {
      assert (actions + [a])[0] == actions[0] && (actions + [a])[1..] == actions[1..] + [a];
      ExecOneMore(Next(m, actions[0]), actions[1..], a);
    }
  }
}
