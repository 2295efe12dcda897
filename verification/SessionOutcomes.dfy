/**
  What the harness plugin's operations do, from what a caller sees: the ids it makes up,
  the requests it sends, what a call returns and what it leaves on the server.
 */
module SessionOutcomes {
  import opened ByteStrings
  import opened Sessions
  import opened SessionOwnership
  import opened SessionFrames
  import opened SequentialRuns

  /******* Run ids, written out *******/

  ghost predicate Reads(s: Text, text: string) {
    |s| == |text| && forall i | 0 <= i < |s| :: s[i] == text[i] as int
  }

  // What a unit of a session id becomes in a run id.
  predicate Sanitized(u: Unit, v: Unit) {
    if 'A' as int <= u <= 'Z' as int || 'a' as int <= u <= 'z' as int || '0' as int <= u <= '9' as int
       || u == '.' as int || u == '_' as int || u == '-' as int
    then v == u else v == '-' as int
  }

  lemma LiteralsRead()
    ensures Reads(DSH, "dsh-") && Reads(SESSION, "session") && DASH == '-' as int
  {
    var d, s := "dsh-", "session";
    assert d[0] == 'd' && d[1] == 's' && d[2] == 'h' && d[3] == '-';
    assert s[0] == 's' && s[1] == 'e' && s[2] == 's' && s[3] == 's' && s[4] == 'i' && s[5] == 'o' && s[6] == 'n';
  }

  // "dsh-" and the first 96 units of the session id, each kept or replaced by a dash; for
  // the empty id "dsh-session".
  lemma RunIdBaseSpelled(session: Text)
    ensures var base := RunIdBase(session);
            && |base| >= 4 && Reads(base[..4], "dsh-")
            && if session == [] then Reads(base[4..], "session")
               else
                 && |base| == 4 + (if |session| <= 96 then |session| else 96)
                 && forall i | 4 <= i < |base| :: Sanitized(session[i - 4], base[i])
  {
    LiteralsRead();
    assert RunIdBase(session)[..4] == DSH;
    if session == [] {
      assert RunIdBase(session)[4..] == SESSION;
    }
  }

  // The number a text of digits stands for.
  function ValueOf(d: Text): int
    decreases |d|
  {
    if d == [] then 0 else 10 * ValueOf(d[..|d| - 1]) + (d[|d| - 1] as int - '0' as int)
  }

  // The decimal numeral of an epoch: digits that stand for it, without leading zeros.
  lemma {:induction false} DecimalSpelled(n: nat)
    ensures var d := Decimal(n);
            && ValueOf(d) == n && (forall i | 0 <= i < |d| :: '0' as int <= d[i] <= '9' as int)
            && (n > 0 ==> d[0] != '0' as int)
    decreases n
  {
    var d := Decimal(n);
    if n < 10 {
      assert d[..0] == [];
    } else {
      DecimalSpelled(n / 10);
      assert d[..|d| - 1] == Decimal(n / 10);
    }
  }

  lemma RunIdSpelled(session: Text, epoch: nat)
    requires epoch >= 1
    ensures var base, id := RunIdBase(session), RunId(session, epoch);
            && base <= id && (epoch == 1 ==> id == base)
            && (epoch > 1 ==> |id| > |base| && id[|base|] == '-' as int && id[|base| + 1..] == Decimal(epoch))
  {
    hide RunIdBase;
    hide Decimal;
  }

  /******* The server *******/

  // Whatever anyone does, a run that is committed keeps its mounts.
  lemma NextFreezes(m: Machine, a: Action, id: Text)
    requires id in m.server && m.server[id].committed
    ensures id in Next(m, a).server && Next(m, a).server[id] == m.server[id]
  {
    hide RunId;
    match a
    case CallMount(_, _) =>
    case CallCommit(_) =>
    case CallCommitIfOwned(_) =>
    case Forget(_) =>
    case Begin(c) => if c < |m.chains| { BeginLeavesServer(m, c); }
    case Serve(c, fate) => if c < |m.chains| { ServeFreezes(m, c, fate, id); }
    case Continue(c) => if c < |m.chains| { ContinueLeavesServer(m, c); }
    case OutsideStart(_) =>
    case OutsideMount(_, _) =>
    case OutsideCommit(_) =>
  }

  lemma BeginLeavesServer(m: Machine, c: nat)
    requires c < |m.chains|
    ensures BeginNext(m, c).server == m.server
  {
  }

  lemma ContinueLeavesServer(m: Machine, c: nat)
    requires c < |m.chains|
    ensures ContinueChain(m, c).server == m.server
  {
    hide RunId;
    hide DoneOf;
  }

  ghost predicate Keeps(server: Server, after: Server, id: Text) {
    id in server && server[id].committed ==> id in after && after[id] == server[id]
  }

  lemma RequestsFreeze(server: Server, target: Text, uri: Text, fate: Fate, id: Text)
    ensures Keeps(server, ServeStart(server, target, fate).0, id)
    ensures Keeps(server, ServeMount(server, target, uri, fate).0, id)
    ensures Keeps(server, ServeCommit(server, target, fate), id)
  {
  }

  lemma ServeFreezes(m: Machine, c: nat, fate: Fate, id: Text)
    requires c < |m.chains| && id in m.server && m.server[id].committed
    ensures id in ServeChain(m, c, fate).server && ServeChain(m, c, fate).server[id] == m.server[id]
  {
    hide RunId;
    hide ServeStart;
    hide ServeMount;
    hide ServeCommit;
    match m.chains[c].activity
    case Idle =>
    case Opening(_, _, _, epoch, _) => RequestsFreeze(m.server, RunId(m.chains[c].session, epoch), [], fate, id);
    case Mounting(_, uri, obj, _) => if obj < |m.held| { RequestsFreeze(m.server, m.held[obj].runId, uri, fate, id); }
    case Committing(obj, _) => if obj < |m.held| { RequestsFreeze(m.server, m.held[obj].runId, [], fate, id); }
  }

  lemma {:induction false} CommittedIsFrozen(m: Machine, actions: seq<Action>, id: Text)
    requires id in m.server && m.server[id].committed
    ensures var n := Exec(m, actions); id in n.server && n.server[id] == m.server[id]
    decreases |actions|
  {
    hide Next;
    if actions != [] {
      NextFreezes(m, actions[0], id);
      CommittedIsFrozen(Next(m, actions[0]), actions[1..], id);
    }
  }

  /******* Opening *******/

  // The server does not start this id: it says so, or the id is there already.
  ghost predicate TurnsDown(server: Server, id: Text, fate: Fate) {
    fate == Refuse || (fate == Honest && id in server)
  }

  // The epochs before e were turned down one by one, and e was started.
  ghost predicate StartsAt(
    server: Server, session: Text, from: nat, fates: nat -> Fate, e: nat, after: Server)
  {
    && from <= e < from + 16 && fates(e) == Honest && RunId(session, e) !in server
    && (forall k | from <= k < e :: TurnsDown(server, RunId(session, k), fates(k)))
    && after == server[RunId(session, e) := ServerRun(false, [])]
  }

  // Every epoch of the window was turned down, or one that is not got no answer.
  ghost predicate NoneStarts(server: Server, session: Text, from: nat, fates: nat -> Fate, after: Server) {
    || (after == server && forall k | from <= k < from + 16 :: TurnsDown(server, RunId(session, k), fates(k)))
    || exists e :: FailsAt(server, session, from, fates, e, after)
  }

  ghost predicate FailsAt(
    server: Server, session: Text, from: nat, fates: nat -> Fate, e: nat, after: Server)
  {
    && from <= e < from + 16 && (fates(e) == FailBefore || fates(e) == LoseReply)
    && (forall k | from <= k < e :: TurnsDown(server, RunId(session, k), fates(k)))
    && after == if fates(e) == LoseReply && RunId(session, e) !in server
                then server[RunId(session, e) := ServerRun(false, [])] else server
  }

  lemma {:induction false} ProbeFrom(server: Server, session: Text, from: nat, epoch: nat, fates: nat -> Fate)
    requires from <= epoch <= from + MAX_EPOCH_PROBE
    requires forall k | from <= k < epoch :: TurnsDown(server, RunId(session, k), fates(k))
    ensures var (after, found) := Probe(server, session, from, epoch, fates);
            match found
            case Some(e) => StartsAt(server, session, from, fates, e, after)
            case None => NoneStarts(server, session, from, fates, after)
    decreases from + MAX_EPOCH_PROBE - epoch
  {
    hide RunId;
    if epoch < from + MAX_EPOCH_PROBE {
      var (after, reply) := ServeStart(server, RunId(session, epoch), fates(epoch));
      if reply == Refused {
        ProbeFrom(server, session, from, epoch + 1, fates);
      } else if reply == StartFailed {
        assert FailsAt(server, session, from, fates, epoch, after);
      }
    }
  }

  // MAIN RESULT. Probing starts the first id of its 16 epochs that is not turned down, open
  // and without mounts; it finds none exactly if all are turned down or a request fails first.
  lemma ProbeMeans(server: Server, session: Text, from: nat, fates: nat -> Fate)
    ensures var (after, found) := Probe(server, session, from, from, fates);
            match found
            case Some(e) => StartsAt(server, session, from, fates, e, after)
            case None => NoneStarts(server, session, from, fates, after)
  {
    ProbeFrom(server, session, from, from, fates);
  }

  /******* Mounting *******/

  // A mount of uri into h, requested from server: recorded at the end of an open run, if
  // the request arrives; the client learns of it if the reply does.
  ghost predicate Requested(server: Server, h: Held, uri: Text, fate: Fate, w: View, session: Text,
    states: map<Text, Held>, r: Option<SessionMount>)
  {
    var accepted := h.runId in server && !server[h.runId].committed && (fate == Honest || fate == LoseReply);
    && w.server == (if accepted
                    then server[h.runId := ServerRun(false, server[h.runId].mounts + [uri])] else server)
    && if accepted && fate == Honest then
         && r == Some(SessionMount(h.runId, |server[h.runId].mounts|))
         && w.states == states[session := h.(entries := |server[h.runId].mounts| + 1)]
       else r == None && w.states == states
  }

  // MAIN RESULT. A mount goes into the session's open run, or into the one that probing
  // from the next epoch, the first for a new session, starts; if none starts nothing is
  // mounted and the session's state stays.
  lemma MountOutcome(v: View, session: Text, uri: Text, fates: nat -> Fate, fate: Fate)
    ensures var (w, r) := AfterMount(v, session, uri, fates, fate);
            var from := if session in v.states then v.states[session].epoch + 1 else 1;
            if session in v.states && v.states[session].open then
              Requested(v.server, v.states[session], uri, fate, w, session, v.states, r)
            else
              || (exists e, after :: StartsAt(v.server, session, from, fates, e, after) &&
                    var h := Held(session, RunId(session, e), e, 0, true);
                    Requested(after, h, uri, fate, w, session, v.states[session := h], r))
              || (NoneStarts(v.server, session, from, fates, w.server) && w.states == v.states && r == None)
  {
    hide RunId;
    hide Probe;
    var from := if session in v.states then v.states[session].epoch + 1 else 1;
    if !(session in v.states && v.states[session].open) {
      ProbeMeans(v.server, session, from, fates);
      var (after, found) := Probe(v.server, session, from, from, fates);
      hide StartsAt;
      hide NoneStarts;
      if found.Some? {
        var h := Held(session, RunId(session, found.value), found.value, 0, true);
        assert v.states[session := h][session := h.(entries := 0)] == v.states[session := h];
      }
    }
  }

  /******* Committing *******/

  // MAIN RESULT. A commit of a session closes its open run first; it asks the server to
  // commit that run exactly if entries were recorded in it, and the run is committed
  // exactly if the request arrives and the run is still open there.
  lemma CommitOutcome(v: View, session: Text, fate: Fate)
    ensures var (w, r) := AfterCommit(v, session, fate);
            if session !in v.states || !v.states[session].open then w == v && r == None
            else
              var h := v.states[session];
              && w.states == v.states[session := h.(open := false)]
              && r == (if h.entries > 0 then Some(h.runId) else None)
              && w.server == if h.entries > 0 && h.runId in v.server && (fate == Honest || fate == LoseReply)
                             then v.server[h.runId := v.server[h.runId].(committed := true)] else v.server
  {
    if session in v.states && v.states[session].open {
      var h := v.states[session];
      if h.runId in v.server && v.server[h.runId].committed {
        assert v.server[h.runId := v.server[h.runId].(committed := true)] == v.server;
      }
    }
  }
}
