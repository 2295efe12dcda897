/**
  Concrete runs: commitIfOwned(target) looks the target up at once but commits when its
  turn comes, and what the equality of session and runs depends on.
 */
module SessionCommit {
  import opened ByteStrings
  import opened Sessions
  import opened SessionOwnership
  import opened SessionFrames
  import opened SessionHistory

  /******* Behind a queued commit and mount it commits the next epoch's run *******/

  const ME: Text := []
  const DOC: Text := [100]
  const FIRST: Text := RunId(ME, 1)
  const SECOND: Text := RunId(ME, 2)

  // One session and its only chain; the session's current run is its last.
  function Solo(server: Server, held: seq<Held>, waiting: seq<Ticket>, a: Activity, calls: seq<Call>, done: seq<Done>)
    : Machine
  {
    Machine(server, if held == [] then map[] else map[ME := |held| - 1], held, map[ME := 0],
            [Chain(ME, waiting, a)], calls, if done == [] then map[] else map[ME := done])
  }

  function Fresh(server: Server, id: Text): Server { server[id := ServerRun(false, [])] }

  // The next operation of the session is a mount with no run open.
  lemma SoloOpens(
    server: Server, held: seq<Held>, number: nat, rest: seq<Ticket>, calls: seq<Call>, done: seq<Done>, epoch: nat)
    returns (n: Machine)
    requires epoch == (if held == [] then 1 else held[|held| - 1].epoch + 1) && RunId(ME, epoch) !in server
    requires held != [] ==> !held[|held| - 1].open
    ensures var m := Solo(server, held, [Ticket(number, MountOp(DOC))] + rest, Idle, calls, done);
            n == Exec(m, [Begin(0), Serve(0, Honest), Continue(0)])
    ensures n == Solo(Fresh(server, RunId(ME, epoch)), held + [Held(ME, RunId(ME, epoch), epoch, 0, true)], rest,
                      Mounting(number, DOC, |held|, None), calls, done)
  {
    var m := Solo(server, held, [Ticket(number, MountOp(DOC))] + rest, Idle, calls, done);
    var m1 := Solo(server, held, rest, Opening(number, DOC, epoch, epoch, None), calls, done);
    var m2 := Solo(Fresh(server, RunId(ME, epoch)), held, rest,
                   Opening(number, DOC, epoch, epoch, Some(Created)), calls, done);
    hide Solo;
    hide Next;
    hide RunId;
    SoloProbes(server, held, number, rest, calls, done, epoch);
    SoloHolds(Fresh(server, RunId(ME, epoch)), held, number, rest, calls, done, epoch);
    n := Next(m2, Continue(0));
    ExecThree(m, Begin(0), Serve(0, Honest), Continue(0));
  }

  lemma SoloProbes(
    server: Server, held: seq<Held>, number: nat, rest: seq<Ticket>, calls: seq<Call>, done: seq<Done>, epoch: nat)
    requires epoch == (if held == [] then 1 else held[|held| - 1].epoch + 1) && RunId(ME, epoch) !in server
    requires held != [] ==> !held[|held| - 1].open
    ensures var m := Solo(server, held, [Ticket(number, MountOp(DOC))] + rest, Idle, calls, done);
            var m1 := Solo(server, held, rest, Opening(number, DOC, epoch, epoch, None), calls, done);
            && Next(m, Begin(0)) == m1
            && Next(m1, Serve(0, Honest)) ==
               Solo(Fresh(server, RunId(ME, epoch)), held, rest,
                    Opening(number, DOC, epoch, epoch, Some(Created)), calls, done)
  {
    hide RunId;
  }

  lemma SoloHolds(
    server: Server, held: seq<Held>, number: nat, rest: seq<Ticket>, calls: seq<Call>, done: seq<Done>, epoch: nat)
    ensures var m := Solo(server, held, rest, Opening(number, DOC, epoch, epoch, Some(Created)), calls, done);
            Next(m, Continue(0)) ==
            Solo(server, held + [Held(ME, RunId(ME, epoch), epoch, 0, true)], rest,
                 Mounting(number, DOC, |held|, None), calls, done)
  {
    hide RunId;
  }

  // Its mount lands at position 0 and returns.
  lemma SoloMounts(
    server: Server, held: seq<Held>, number: nat, rest: seq<Ticket>, calls: seq<Call>, done: seq<Done>)
    returns (n: Machine)
    requires held != [] && held[|held| - 1].runId in server
    requires server[held[|held| - 1].runId] == ServerRun(false, [])
    ensures var obj := |held| - 1;
            n == Exec(Solo(server, held, rest, Mounting(number, DOC, obj, None), calls, done),
                      [Serve(0, Honest), Continue(0)])
    ensures var obj := |held| - 1;
            n == Solo(server[held[obj].runId := ServerRun(false, [DOC])], held[obj := held[obj].(entries := 1)],
                      rest, Idle, calls, done + [Done(number, Row(obj, 0, DOC))])
  {
    var obj := |held| - 1;
    var m := Solo(server, held, rest, Mounting(number, DOC, obj, None), calls, done);
    assert [] + [DOC] == [DOC];
    var m1 := Solo(server[held[obj].runId := ServerRun(false, [DOC])], held, rest,
                   Mounting(number, DOC, obj, Some(Landed(0))), calls, done);
    assert Next(m, Serve(0, Honest)) == m1;
    n := Next(m1, Continue(0));
    ExecTwo(m, Serve(0, Honest), Continue(0));
  }

  // A commit of the current run, up to the server's handling of it.
  lemma SoloCommits(server: Server, held: seq<Held>, number: nat, rest: seq<Ticket>, calls: seq<Call>, done: seq<Done>)
    returns (n: Machine)
    requires held != [] && held[|held| - 1].open && held[|held| - 1].entries > 0
    requires held[|held| - 1].runId in server && !server[held[|held| - 1].runId].committed
    ensures n == Exec(Solo(server, held, [Ticket(number, CommitOp)] + rest, Idle, calls, done),
                      [Begin(0), Serve(0, Honest), Continue(0)])
    ensures var obj := |held| - 1;
            n == Solo(server[held[obj].runId := server[held[obj].runId].(committed := true)],
                      held[obj := held[obj].(open := false)], rest, Idle, calls, done)
  {
    var obj := |held| - 1;
    var closed := held[obj := held[obj].(open := false)];
    var server' := server[held[obj].runId := server[held[obj].runId].(committed := true)];
    var m := Solo(server, held, [Ticket(number, CommitOp)] + rest, Idle, calls, done);
    var m2 := Solo(server', closed, rest, Committing(obj, true), calls, done);
    SoloCloses(server, held, number, rest, calls, done);
    SoloServed(server, closed, rest, calls, done);
    n := Next(m2, Continue(0));
    hide Next;
    ExecThree(m, Begin(0), Serve(0, Honest), Continue(0));
  }

  lemma SoloCloses(server: Server, held: seq<Held>, number: nat, rest: seq<Ticket>, calls: seq<Call>, done: seq<Done>)
    requires held != [] && held[|held| - 1].open && held[|held| - 1].entries > 0
    ensures var obj := |held| - 1;
            Next(Solo(server, held, [Ticket(number, CommitOp)] + rest, Idle, calls, done), Begin(0)) ==
            Solo(server, held[obj := held[obj].(open := false)], rest, Committing(obj, false), calls, done)
  {
  }

  lemma SoloServed(server: Server, held: seq<Held>, rest: seq<Ticket>, calls: seq<Call>, done: seq<Done>)
    requires held != [] && held[|held| - 1].runId in server && !server[held[|held| - 1].runId].committed
    ensures var obj := |held| - 1;
            var server' := server[held[obj].runId := server[held[obj].runId].(committed := true)];
            && Next(Solo(server, held, rest, Committing(obj, false), calls, done), Serve(0, Honest)) ==
               Solo(server', held, rest, Committing(obj, true), calls, done)
            && Next(Solo(server', held, rest, Committing(obj, true), calls, done), Continue(0)) ==
               Solo(server', held, rest, Idle, calls, done)
  {
  }

  const CALL: Call := Call(ME, MountOp(DOC))
  const COMMIT: Call := Call(ME, CommitOp)

  function MountedRun(committed: bool): ServerRun { ServerRun(committed, [DOC]) }

  // The session has mounted once, into its first run.
  const ONE_MOUNT: Machine :=
    Solo(map[FIRST := MountedRun(false)], [Held(ME, FIRST, 1, 1, true)], [], Idle, [CALL], [Done(0, Row(0, 0, DOC))])

  lemma MountOnce() returns (actions: seq<Action>)
    ensures Exec(START, actions) == ONE_MOUNT
  {
    var asked := Solo(map[], [], [Ticket(0, MountOp(DOC))], Idle, [CALL], []);
    assert Next(START, CallMount(ME, DOC)) == asked;
    assert [Ticket(0, MountOp(DOC))] + [] == [Ticket(0, MountOp(DOC))];
    var held := [Held(ME, FIRST, 1, 0, true)];
    assert [] + held == held;
    var m1 := SoloOpens(map[], [], 0, [], [CALL], [], 1);
    assert Fresh(map[], FIRST) == map[FIRST := ServerRun(false, [])];
    var m2 := SoloMounts(map[FIRST := ServerRun(false, [])], held, 0, [], [CALL], []);
    actions := [CallMount(ME, DOC)] + [Begin(0), Serve(0, Honest), Continue(0)] + [Serve(0, Honest), Continue(0)];
    assert m2 == ONE_MOUNT by {
      assert held[0 := held[0].(entries := 1)] == [Held(ME, FIRST, 1, 1, true)];
      assert [] + [Done(0, Row(0, 0, DOC))] == [Done(0, Row(0, 0, DOC))];
      assert map[FIRST := ServerRun(false, [])][FIRST := ServerRun(false, [DOC])] == map[FIRST := MountedRun(false)];
    }
    ExecOne(START, CallMount(ME, DOC));
    ExecAppend(START, [CallMount(ME, DOC)], [Begin(0), Serve(0, Honest), Continue(0)]);
    ExecAppend(START, [CallMount(ME, DOC)] + [Begin(0), Serve(0, Honest), Continue(0)],
               [Serve(0, Honest), Continue(0)]);
  }

  lemma ExecOne(m: Machine, a: Action)
    ensures Exec(m, [a]) == Next(m, a)
  {
    hide Next;
    assert [a][1..] == [];
    assert Exec(Next(m, a), []) == Next(m, a);
  }

  lemma {:induction false} ExecAppend(m: Machine, a: seq<Action>, b: seq<Action>)
    ensures Exec(m, a + b) == Exec(Exec(m, a), b)
    decreases |a|
  {
    hide Next;
    if a == [] {
      assert a + b == b;
    } else {
      assert (a + b)[0] == a[0] && (a + b)[1..] == a[1..] + b;
      ExecAppend(Next(m, a[0]), a[1..], b);
    }
  }

  lemma ExecTwo(m: Machine, a: Action, b: Action)
    ensures Exec(m, [a, b]) == Next(Next(m, a), b)
  {
    hide Next;
    assert [a, b][1..] == [b] && [b][1..] == [];
    assert Exec(Next(m, a), [b]) == Exec(Next(Next(m, a), b), []);
  }

  lemma ExecThree(m: Machine, a: Action, b: Action, c: Action)
    ensures Exec(m, [a, b, c]) == Next(Next(Next(m, a), b), c)
  {
    hide Next;
    assert [a, b, c][1..] == [b, c];
    ExecTwo(Next(m, a), b, c);
  }

  const THREE: seq<Ticket> := [Ticket(1, CommitOp), Ticket(2, MountOp(DOC)), Ticket(3, CommitOp)]
  const FOUR: seq<Call> := [CALL, COMMIT, CALL, COMMIT]

  // commitIfOwned(FIRST) has been asked for, behind a commit and a mount.
  const ASKED: Machine := ONE_MOUNT.(chains := [Chain(ME, THREE, Idle)], calls := FOUR)

  // It is next in turn; the run is the session's second by now.
  ghost predicate ItsTurn(m: Machine) {
    && m.chains == [Chain(ME, [Ticket(3, CommitOp)], Idle)]
    && FIRST in m.server && m.server[FIRST].committed
    && SECOND in m.server && !m.server[SECOND].committed
  }

  lemma QueueThree() returns (before: seq<Action>)
    ensures var m := Exec(START, before);
            Owns(m, ME, FIRST) && |m.calls| == 3 && Next(m, CallCommitIfOwned(FIRST)) == ASKED
  {
    var once := MountOnce();
    var m1 := ONE_MOUNT.(chains := [Chain(ME, THREE[..1], Idle)], calls := FOUR[..2]);
    var m2 := ONE_MOUNT.(chains := [Chain(ME, THREE[..2], Idle)], calls := FOUR[..3]);
    assert [] + [Ticket(1, CommitOp)] == THREE[..1] && [CALL] + [COMMIT] == FOUR[..2];
    assert Next(ONE_MOUNT, CallCommit(ME)) == m1;
    assert THREE[..1] + [Ticket(2, MountOp(DOC))] == THREE[..2] && FOUR[..2] + [CALL] == FOUR[..3];
    assert Next(m1, CallMount(ME, DOC)) == m2;
    assert THREE[..2] + [Ticket(3, CommitOp)] == THREE && FOUR[..3] + [COMMIT] == FOUR;
    assert forall s | Owns(m2, s, FIRST) :: s == ME;
    assert Owns(m2, ME, FIRST);
    assert Enqueue(m2, ME, CommitOp) == ASKED;
    before := once + [CallCommit(ME), CallMount(ME, DOC)];
    ExecTwo(ONE_MOUNT, CallCommit(ME), CallMount(ME, DOC));
    ExecAppend(START, once, [CallCommit(ME), CallMount(ME, DOC)]);
  }

  const CLOSED: Held := Held(ME, FIRST, 1, 1, false)
  const LATER: Held := Held(ME, SECOND, 2, 1, true)
  const TWO_DONE: seq<Done> := [Done(0, Row(0, 0, DOC))] + [Done(2, Row(1, 0, DOC))]

  // The commit before it has closed the first run, the mount has opened the second.
  const TURN: Machine :=
    Solo(map[FIRST := MountedRun(true), SECOND := MountedRun(false)], [CLOSED, LATER],
         [Ticket(3, CommitOp)], Idle, FOUR, TWO_DONE)

  const THREE_STEPS: seq<Action> := [Begin(0), Serve(0, Honest), Continue(0)]

  // The first commit has run.
  const AFTER_COMMIT: Machine :=
    Solo(map[FIRST := MountedRun(true)], [CLOSED], THREE[1..], Idle, FOUR, [Done(0, Row(0, 0, DOC))])

  lemma FirstCommit()
    ensures Exec(ASKED, THREE_STEPS) == AFTER_COMMIT
  {
    var first, done := Held(ME, FIRST, 1, 1, true), [Done(0, Row(0, 0, DOC))];
    var m1 := SoloCommits(map[FIRST := MountedRun(false)], [first], 1, THREE[1..], FOUR, done);
    assert [Ticket(1, CommitOp)] + THREE[1..] == THREE;
    assert [first][0 := CLOSED] == [CLOSED];
    assert map[FIRST := MountedRun(false)][FIRST := MountedRun(true)] == map[FIRST := MountedRun(true)];
  }

  const AFTER_OPEN: Machine :=
    Solo(Fresh(map[FIRST := MountedRun(true)], SECOND), [CLOSED, Held(ME, SECOND, 2, 0, true)], THREE[2..],
         Mounting(2, DOC, 1, None), FOUR, [Done(0, Row(0, 0, DOC))])

  lemma SecondOpen()
    ensures Exec(AFTER_COMMIT, THREE_STEPS) == AFTER_OPEN
  {
    FirstIsNotSecond();
    assert [Ticket(2, MountOp(DOC))] + THREE[2..] == THREE[1..];
    var m2 := SoloOpens(map[FIRST := MountedRun(true)], [CLOSED], 2, THREE[2..], FOUR, [Done(0, Row(0, 0, DOC))], 2);
    var second := Held(ME, SECOND, 2, 0, true);
    assert [CLOSED] + [second] == [CLOSED, second];
  }

  const TWO_STEPS: seq<Action> := [Serve(0, Honest), Continue(0)]

  lemma SecondMount()
    ensures Exec(AFTER_OPEN, TWO_STEPS) == TURN
  {
    FirstIsNotSecond();
    var server, second := Fresh(map[FIRST := MountedRun(true)], SECOND), Held(ME, SECOND, 2, 0, true);
    var m3 := SoloMounts(server, [CLOSED, second], 2, THREE[2..], FOUR, [Done(0, Row(0, 0, DOC))]);
    assert [CLOSED, second][1 := LATER] == [CLOSED, LATER];
    assert THREE[2..] == [Ticket(3, CommitOp)];
    assert server[SECOND := MountedRun(false)] == map[FIRST := MountedRun(true), SECOND := MountedRun(false)];
  }

  lemma UntilItsTurn() returns (between: seq<Action>)
    ensures Exec(ASKED, between) == TURN
  {
    FirstCommit();
    SecondOpen();
    SecondMount();
    hide Exec;
    between := THREE_STEPS + THREE_STEPS + TWO_STEPS;
    ExecAppend(ASKED, THREE_STEPS + THREE_STEPS, TWO_STEPS);
    ExecAppend(ASKED, THREE_STEPS, THREE_STEPS);
  }

  lemma ThenItCommits()
    ensures var after := Exec(TURN, THREE_STEPS); SECOND in after.server && after.server[SECOND].committed
  {
    assert [Ticket(3, CommitOp)] + [] == [Ticket(3, CommitOp)];
    var after := SoloCommits(TURN.server, TURN.held, 3, [], FOUR, TWO_DONE);
  }

  // commitIfOwned(target) can commit a run that is not target: with a commit and a
  // mount queued before it, the target is committed by the first of them and it
  // commits the run the mount went into.
  lemma CommitIfOwnedCommitsAnother() returns (before: seq<Action>, between: seq<Action>)
    ensures Owns(Exec(START, before), ME, FIRST) && |Exec(START, before).calls| == 3
    ensures var turn := Exec(Next(Exec(START, before), CallCommitIfOwned(FIRST)), between);
            var after := Exec(turn, THREE_STEPS);
            ItsTurn(turn) && SECOND in after.server && after.server[SECOND].committed
  {
    before := QueueThree();
    between := UntilItsTurn();
    FirstIsNotSecond();
    ThenItCommits();
    hide Exec;
    hide Next;
    assert ItsTurn(TURN);
  }

  lemma FirstIsNotSecond()
    ensures FIRST != SECOND
  {
    assert |SECOND| == |FIRST| + 1 + |Decimal(2)|;
  }

  /******* What the equality of mounts and results depends on *******/

  ghost predicate Agree(m: Machine) {
    History(m.held, m.server, ME) == RowsOf(DoneOf(m, ME)) + InFlight(m, ME)
  }

  // Two mounts on the server, one result at the client.
  lemma TwoAndOne(m: Machine)
    requires m.held == [Held(ME, FIRST, 1, 1, true)] && m.done == ONE_MOUNT.done && InFlight(m, ME) == []
    requires FIRST in m.server && m.server[FIRST].mounts == [DOC, DOC]
    ensures !Agree(m)
  {
    assert m.held[..0] == [];
    assert History(m.held, m.server, ME) == [] + Rows(0, [DOC, DOC]);
    assert |History(m.held, m.server, ME)| == 2;
  }

  // Someone else mounts into the session's run.
  lemma OutsideMountBreaks() returns (actions: seq<Action>)
    ensures !Agree(Exec(START, actions))
  {
    var once := MountOnce();
    var n := Next(ONE_MOUNT, OutsideMount(FIRST, DOC));
    actions := once + [OutsideMount(FIRST, DOC)];
    ExecOne(ONE_MOUNT, OutsideMount(FIRST, DOC));
    ExecAppend(START, once, [OutsideMount(FIRST, DOC)]);
    assert [DOC] + [DOC] == [DOC, DOC];
    TwoAndOne(n);
  }

  lemma SecondMountBegins(asked: Machine, begun: Machine)
    requires asked == ONE_MOUNT.(chains := [Chain(ME, [Ticket(1, MountOp(DOC))], Idle)], calls := [CALL, CALL])
    requires begun == ONE_MOUNT.(chains := [Chain(ME, [], Mounting(1, DOC, 0, None))], calls := [CALL, CALL])
    ensures Next(ONE_MOUNT, CallMount(ME, DOC)) == asked && Next(asked, Begin(0)) == begun
  {
    var queued := Enqueue(ONE_MOUNT, ME, MountOp(DOC));
    assert [] + [Ticket(1, MountOp(DOC))] == [Ticket(1, MountOp(DOC))];
    assert [CALL] + [CALL] == [CALL, CALL];
    assert queued.chains == [Chain(ME, [Ticket(1, MountOp(DOC))], Idle)];
    assert asked.chains[0].waiting[1..] == [];
    assert BeginNext(asked, 0).chains == begun.chains;
  }

  // The reply to a mount is lost.
  lemma LostReplyBreaks() returns (actions: seq<Action>)
    ensures !Agree(Exec(START, actions))
  {
    var once := MountOnce();
    var asked := ONE_MOUNT.(chains := [Chain(ME, [Ticket(1, MountOp(DOC))], Idle)], calls := [CALL, CALL]);
    var begun := ONE_MOUNT.(chains := [Chain(ME, [], Mounting(1, DOC, 0, None))], calls := [CALL, CALL]);
    SecondMountBegins(asked, begun);
    var n := Next(begun, Serve(0, LoseReply));
    var more := [CallMount(ME, DOC), Begin(0), Serve(0, LoseReply)];
    ExecThree(ONE_MOUNT, CallMount(ME, DOC), Begin(0), Serve(0, LoseReply));
    ExecAppend(START, once, more);
    actions := once + more;
    assert [DOC] + [DOC] == [DOC, DOC];
    TwoAndOne(n);
  }

  /******* Forgetting the session itself *******/

  const SECOND_HELD: Held := Held(ME, SECOND, 2, 0, true)
  const FIRST_HELD: Held := Held(ME, FIRST, 1, 1, true)
  const D0: Done := Done(0, Row(0, 0, DOC))
  const D1: Done := Done(1, Row(0, 1, DOC))
  const D2: Done := Done(2, Row(1, 0, DOC))

  // The chain from before the forget, still mounting, and the one begun after it.
  function Duo(server: Server, held: seq<Held>, before: Activity, waiting: seq<Ticket>, a: Activity, done: seq<Done>)
    : Machine
  {
    Machine(server, if |held| < 2 then map[] else map[ME := 1], held, map[ME := 1],
            [Chain(ME, [], before), Chain(ME, waiting, a)], [CALL, CALL, CALL], map[ME := done])
  }

  const STUCK: Activity := Mounting(1, DOC, 0, None)
  const LEFT: Machine :=
    Duo(map[FIRST := MountedRun(false)], [FIRST_HELD], STUCK, [Ticket(2, MountOp(DOC))], Idle, [D0])

  // A mount is waiting for its reply, the session is forgotten and mounts again.
  lemma ForgetAndMount() returns (actions: seq<Action>)
    ensures Exec(ONE_MOUNT, actions) == LEFT
  {
    var asked := ONE_MOUNT.(chains := [Chain(ME, [Ticket(1, MountOp(DOC))], Idle)], calls := [CALL, CALL]);
    var begun := ONE_MOUNT.(chains := [Chain(ME, [], STUCK)], calls := [CALL, CALL]);
    SecondMountBegins(asked, begun);
    var gone := begun.(states := map[], queues := map[]);
    assert Next(begun, Forget(ME)) == gone;
    assert [CALL, CALL] + [CALL] == [CALL, CALL, CALL];
    assert [Chain(ME, [], STUCK)] + [Chain(ME, [Ticket(2, MountOp(DOC))], Idle)] == LEFT.chains;
    assert Next(gone, CallMount(ME, DOC)) == LEFT;
    actions := [CallMount(ME, DOC), Begin(0)] + [Forget(ME), CallMount(ME, DOC)];
    ExecTwo(ONE_MOUNT, CallMount(ME, DOC), Begin(0));
    ExecTwo(begun, Forget(ME), CallMount(ME, DOC));
    ExecAppend(ONE_MOUNT, [CallMount(ME, DOC), Begin(0)], [Forget(ME), CallMount(ME, DOC)]);
  }

  // The new chain finds the first id taken and opens the second.
  lemma NewChainProbes(server: Server, m1: Machine, m2: Machine, m3: Machine)
    requires server == map[FIRST := MountedRun(false)]
    requires m1 == Duo(server, [FIRST_HELD], STUCK, [], Opening(2, DOC, 1, 1, None), [D0])
    requires m2 == Duo(server, [FIRST_HELD], STUCK, [], Opening(2, DOC, 1, 1, Some(Refused)), [D0])
    requires m3 == Duo(server, [FIRST_HELD], STUCK, [], Opening(2, DOC, 1, 2, None), [D0])
    ensures Exec(LEFT, [Begin(1), Serve(1, Honest), Continue(1)]) == m3
  {
    assert [Ticket(2, MountOp(DOC))][1..] == [];
    assert Next(LEFT, Begin(1)) == m1;
    assert Next(m1, Serve(1, Honest)) == m2;
    assert Next(m2, Continue(1)) == m3;
    ExecThree(LEFT, Begin(1), Serve(1, Honest), Continue(1));
  }

  lemma NewChainOpens(server: Server, m3: Machine, m4: Machine, m5: Machine)
    requires server == map[FIRST := MountedRun(false)]
    requires m3 == Duo(server, [FIRST_HELD], STUCK, [], Opening(2, DOC, 1, 2, None), [D0])
    requires m4 == Duo(Fresh(server, SECOND), [FIRST_HELD], STUCK, [], Opening(2, DOC, 1, 2, Some(Created)), [D0])
    requires m5 == Duo(Fresh(server, SECOND), [FIRST_HELD, SECOND_HELD], STUCK, [], Mounting(2, DOC, 1, None), [D0])
    ensures Exec(m3, [Serve(1, Honest), Continue(1)]) == m5
  {
    FirstIsNotSecond();
    assert Next(m3, Serve(1, Honest)) == m4;
    assert [FIRST_HELD] + [SECOND_HELD] == [FIRST_HELD, SECOND_HELD];
    assert Next(m4, Continue(1)) == m5;
    ExecTwo(m3, Serve(1, Honest), Continue(1));
  }

  lemma NewChainMounts(server: Server, m5: Machine, m6: Machine, m7: Machine)
    requires server == Fresh(map[FIRST := MountedRun(false)], SECOND)
    requires m5 == Duo(server, [FIRST_HELD, SECOND_HELD], STUCK, [], Mounting(2, DOC, 1, None), [D0])
    requires m6 == Duo(server[SECOND := MountedRun(false)], [FIRST_HELD, SECOND_HELD], STUCK, [],
                       Mounting(2, DOC, 1, Some(Landed(0))), [D0])
    requires m7 == Duo(server[SECOND := MountedRun(false)], [FIRST_HELD, SECOND_HELD.(entries := 1)], STUCK, [],
                       Idle, [D0, D2])
    ensures Exec(m5, [Serve(1, Honest), Continue(1)]) == m7
  {
    assert [] + [DOC] == [DOC];
    assert Next(m5, Serve(1, Honest)) == m6;
    assert [D0] + [D2] == [D0, D2];
    assert Next(m6, Continue(1)) == m7;
    ExecTwo(m5, Serve(1, Honest), Continue(1));
  }

  // Only then does the old chain's mount land.
  lemma OldChainMounts(server: Server, m7: Machine, m8: Machine, m9: Machine)
    requires FIRST in server && server[FIRST] == MountedRun(false)
    requires m7 == Duo(server, [FIRST_HELD, SECOND_HELD.(entries := 1)], STUCK, [], Idle, [D0, D2])
    requires m8 == Duo(server[FIRST := ServerRun(false, [DOC, DOC])], [FIRST_HELD, SECOND_HELD.(entries := 1)],
                       Mounting(1, DOC, 0, Some(Landed(1))), [], Idle, [D0, D2])
    requires m9 == Duo(server[FIRST := ServerRun(false, [DOC, DOC])],
                       [FIRST_HELD.(entries := 2), SECOND_HELD.(entries := 1)], Idle, [], Idle, [D0, D2, D1])
    ensures Exec(m7, [Serve(0, Honest), Continue(0)]) == m9
  {
    assert [DOC] + [DOC] == [DOC, DOC];
    assert Next(m7, Serve(0, Honest)) == m8;
    assert [D0, D2] + [D1] == [D0, D2, D1];
    assert Next(m8, Continue(0)) == m9;
    ExecTwo(m7, Serve(0, Honest), Continue(0));
  }

  lemma OutOfOrder(m: Machine)
    requires m.held == [FIRST_HELD.(entries := 2), SECOND_HELD.(entries := 1)] && DoneOf(m, ME) == [D0, D2, D1]
    requires InFlight(m, ME) == [] && FIRST in m.server && m.server[FIRST].mounts == [DOC, DOC]
    ensures !Agree(m)
  {
    var h := m.held;
    assert h[..2] == h && h[..2][..1] == [h[0]] && h[..1][..0] == [];
    assert History([h[0]], m.server, ME) == [] + Rows(0, [DOC, DOC]);
    assert |History([h[0]], m.server, ME)| == 2;
    assert History(h, m.server, ME)[1] == Rows(0, [DOC, DOC])[1] == Row(0, 1, DOC);
    assert (RowsOf([D0, D2, D1]) + [])[1] == D2.row == Row(1, 0, DOC);
  }

  // Forgetting the session between a mount's request and its reply lets its next mount
  // overtake: nothing is in flight any more, and the order of results is not the order
  // of the runs.
  lemma ForgetBreaks() returns (actions: seq<Action>)
    ensures !Agree(Exec(START, actions)) && InFlight(Exec(START, actions), ME) == []
  {
    var once := MountOnce();
    var forgot := ForgetAndMount();
    FirstIsNotSecond();
    var server := map[FIRST := MountedRun(false)];
    var started := Fresh(server, SECOND);
    var both := started[SECOND := MountedRun(false)];
    var m3 := Duo(server, [FIRST_HELD], STUCK, [], Opening(2, DOC, 1, 2, None), [D0]);
    var m5 := Duo(started, [FIRST_HELD, SECOND_HELD], STUCK, [], Mounting(2, DOC, 1, None), [D0]);
    var m7 := Duo(both, [FIRST_HELD, SECOND_HELD.(entries := 1)], STUCK, [], Idle, [D0, D2]);
    var m9 := Duo(both[FIRST := ServerRun(false, [DOC, DOC])],
                  [FIRST_HELD.(entries := 2), SECOND_HELD.(entries := 1)], Idle, [], Idle, [D0, D2, D1]);
    NewChainProbes(server,
      Duo(server, [FIRST_HELD], STUCK, [], Opening(2, DOC, 1, 1, None), [D0]),
      Duo(server, [FIRST_HELD], STUCK, [], Opening(2, DOC, 1, 1, Some(Refused)), [D0]), m3);
    NewChainOpens(server, m3,
      Duo(started, [FIRST_HELD], STUCK, [], Opening(2, DOC, 1, 2, Some(Created)), [D0]), m5);
    NewChainMounts(started, m5,
      Duo(both, [FIRST_HELD, SECOND_HELD], STUCK, [], Mounting(2, DOC, 1, Some(Landed(0))), [D0]), m7);
    OldChainMounts(both, m7,
      Duo(both[FIRST := ServerRun(false, [DOC, DOC])], [FIRST_HELD, SECOND_HELD.(entries := 1)],
          Mounting(1, DOC, 0, Some(Landed(1))), [], Idle, [D0, D2]), m9);
    OutOfOrder(m9);
    assert InFlight(m9, ME) == [];
    hide Exec;
    hide Duo;
    var two, before := [Serve(1, Honest), Continue(1)], [Serve(0, Honest), Continue(0)];
    var probe := [Begin(1), Serve(1, Honest), Continue(1)];
    actions := once + forgot + probe + two + two + before;
    ExecAppend(START, once, forgot);
    ExecAppend(START, once + forgot, probe);
    ExecAppend(START, once + forgot + probe, two);
    ExecAppend(START, once + forgot + probe + two, two);
    ExecAppend(START, once + forgot + probe + two + two, before);
  }
}
