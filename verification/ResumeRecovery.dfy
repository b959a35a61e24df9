/**
 For a client with a saved resume state: exactly which frames it can still get. It needs a session
 that is still there, a token that still works and an answer that fits the channel; then it can get
 every frame that has not been broadcast, and every frame after its cursor that the buffer retains.
 */
module ResumeRecovery {
  import opened Basics
  import opened Sessions
  import opened ResumeServer
  import opened ResumeDelivery
  import opened ResumeClient
  import opened ResumeHistory
  import opened ResumeLoss
  import opened ResumeFlow

  /** The answer to a resume with the saved cursor, as the buffer stands now, and its acknowledgement fit the channel. */
  predicate AnswerFits(w: World) {
    |w.server.session.OutputsSince(w.client.last.Request())| < RESPONSE_CAPACITY
  }

  // ---------------------------------------------------------------------------
  // Without the token, or with too long an answer, no session comes back
  // ---------------------------------------------------------------------------

  /** The client's token is spent, so no resume of this client gets past its attach. */
  ghost predicate Stale(w: World) {
    && w.client.token in w.server.used && !w.client.stage.Active?
    && (w.client.stage.Resuming? ==>
          && w.client.conn in w.server.conns && w.server.conns[w.client.conn].presented == w.client.token
          && (w.server.conns[w.client.conn].phase.Subscribed? || w.server.conns[w.client.conn].phase.Failed?))
  }

  lemma SpentTokenFails(s: Server, a: Action, c: nat)
    requires Can(s, a) && c in s.conns && TokenInv(s) && PhaseInv(s.conns[c]) && s.conns[c].presented in s.used
    requires !s.conns[c].opener && (s.conns[c].phase.Subscribed? || s.conns[c].phase.Failed?)
    ensures c in Do(s, a).conns && Do(s, a).conns[c].presented == s.conns[c].presented
    ensures Do(s, a).conns[c].phase.Subscribed? || Do(s, a).conns[c].phase.Failed?
  {
    if a.ResumeAttach? {
      SpentTokenRefused(s, a, c);
    } else if a.At? && a.c == c {
      LocalIdentity(s, s.conns[c], a.step);
      WaitingStays(s, s.conns[c], a.step);
    } else {
      OtherSteps(s, a, c);
    }
  }

  /** What the steps of everybody else do to a connection that resumes: at most the attach, or the end of its reading task. */
  lemma OtherSteps(s: Server, a: Action, c: nat)
    requires Can(s, a) && c in s.conns && !s.conns[c].opener && !(a.At? && a.c == c)
    ensures c in Do(s, a).conns
    ensures var conn, conn' := s.conns[c], Do(s, a).conns[c];
            && conn'.since == conn.since && conn'.opener == conn.opener && conn'.presented == conn.presented
            && (conn.phase.Subscribed? && conn'.phase != conn.phase ==> conn'.phase.Failed? || (a.ResumeAttach? && conn'.phase.Attached?))
            && (!conn.phase.Subscribed? ==> conn' == conn.(reading := conn'.reading))
  {
    ConnFrame(s, a, c);
    if a.Record? || a.Broadcast? {
      assert Do(s, a).conns == s.conns;
    }
  }

  lemma SpentTokenRefused(s: Server, a: Action, c: nat)
    requires a.ResumeAttach? && Can(s, a) && c in s.conns && TokenInv(s) && s.conns[c].presented in s.used
    requires s.conns[c].phase.Subscribed? || s.conns[c].phase.Failed?
    ensures c in Do(s, a).conns && Do(s, a).conns[c].presented == s.conns[c].presented
    ensures Do(s, a).conns[c].phase.Subscribed? || Do(s, a).conns[c].phase.Failed?
  {
  }

  lemma WaitingStays(s: Server, conn: Conn, step: Local)
    requires CanLocal(|s.sent|, conn, step) && (conn.phase.Subscribed? || conn.phase.Failed?)
    ensures LocalStep(s, conn, step).phase == conn.phase
  {
    match step
    case Pull =>
    case Push =>
  }

  lemma UsedGrows(s: Server, a: Action)
    requires Can(s, a)
    ensures s.used.Keys <= Do(s, a).used.Keys
  {
  }

  lemma StaleStep(w: World, step: Step)
    requires Inv(w.server) && SideInv(w) && Stale(w) && Enabled(w, step)
    ensures Stale(Next(w, step)) && Next(w, step).client.handed == w.client.handed
  {
    match step
    case Environment(a) => StaleEnvironment(w, a);
    case Begin(n) =>
    case GiveUp =>
  }

  lemma StaleEnvironment(w: World, a: Action)
    requires Inv(w.server) && Presented(w) && Stale(w) && Can(w.server, a)
    ensures Stale(w.(server := Do(w.server, a)))
  {
    UsedGrows(w.server, a);
    if w.client.stage.Resuming? {
      assert ConnInv(w.server, w.server.conns[w.client.conn]);
      SpentTokenFails(w.server, a, w.client.conn);
    }
  }

  lemma {:induction false} StaleForever(w: World, steps: seq<Step>)
    requires Inv(w.server) && ClientInv(w) && SideInv(w) && Stale(w) && Run(w, steps).Some?
    ensures Stale(Run(w, steps).value) && Run(w, steps).value.client.handed == w.client.handed
    decreases |steps|
  {
    if steps != [] {
      var n := |steps| - 1;
      StaleForever(w, steps[..n]);
      RunKeeps(w, steps[..n]);
      RunSide(w, steps[..n]);
      StaleStep(Run(w, steps[..n]).value, steps[n]);
    }
  }

  /** The answer does not fit, and a resume under way has not got it yet or is stuck with it. */
  ghost predicate TooLong(w: World) {
    && !w.client.stage.Active? && !AnswerFits(w)
    && (w.client.stage.Resuming? ==>
          && w.client.conn in w.server.conns && w.server.conns[w.client.conn].since == w.client.last.Request()
          && StuckOrWaiting(w.server.conns[w.client.conn]))
  }

  predicate StuckOrWaiting(conn: Conn) {
    !conn.opener && (conn.phase.Subscribed? || conn.phase.Attached? || Doomed(conn))
  }

  lemma {:induction false} NewerTail(frames: seq<Frame>, since: Cursor)
    requires frames != []
    ensures |Newer(frames[1..], since)| >= |Newer(frames, since)| - 1
    decreases |frames|
  {
    var n := |frames| - 1;
    if n == 0 {
      assert frames[..0] == [];
    } else {
      NewerTail(frames[..n], since);
      assert frames[..n][1..] == frames[1..][..n - 1];
    }
  }

  /** Recording a frame after the cursor never shortens the answer. */
  lemma AnswerGrows(w: World, a: Action)
    requires Can(w.server, a) && Bounded(w.server.session, w.client.last) && !AnswerFits(w)
    ensures !AnswerFits(w.(server := Do(w.server, a)))
  {
    var s, since := w.server.session, w.client.last.Request();
    if a.Record? {
      var f := s.NextFrame(a.stream, a.data, a.binary, a.timestampMs);
      NewerPush(s.buffer, f, since);
      if |s.buffer| + 1 > s.capacity {
        NewerTail(s.buffer + [f], since);
      }
    } else if !a.Broadcast? {
      LogFrame(w.server, a);
    }
  }

  lemma ReadIsDoomed(s: Server, conn: Conn)
    requires LogInv(s) && ConnInv(s, conn) && conn.phase.Attached?
    requires |s.session.OutputsSince(conn.since)| >= RESPONSE_CAPACITY
    ensures StuckOrWaiting(AfterRead(s, conn))
  {
    AnswerLength(s, conn);
  }

  /** The replay is as long as the answer. */
  lemma AnswerLength(s: Server, conn: Conn)
    requires Represents(s.session, s.log)
    ensures s.live ==> |AfterRead(s, conn).replay| == |s.session.OutputsSince(conn.since)|
  {
    OutputsSinceIsLogFilter(s.session, s.log, conn.since);
  }

  lemma StuckStep(s: Server, a: Action, c: nat)
    requires LogInv(s) && Can(s, a) && c in s.conns && ConnInv(s, s.conns[c]) && StuckOrWaiting(s.conns[c])
    requires |s.session.OutputsSince(s.conns[c].since)| >= RESPONSE_CAPACITY
    ensures c in Do(s, a).conns && Do(s, a).conns[c].since == s.conns[c].since && StuckOrWaiting(Do(s, a).conns[c])
  {
    if a.At? && a.c == c {
      StartStays(s, s.conns[c], a.step);
      StuckLocal(s, s.conns[c], a.step);
    } else {
      OtherSteps(s, a, c);
    }
  }

  lemma StuckLocal(s: Server, conn: Conn, step: Local)
    requires LogInv(s) && CanLocal(|s.sent|, conn, step) && ConnInv(s, conn) && StuckOrWaiting(conn)
    requires |s.session.OutputsSince(conn.since)| >= RESPONSE_CAPACITY
    ensures StuckOrWaiting(LocalStep(s, conn, step))
  {
    if step.ReadBuffer? {
      ReadIsDoomed(s, conn);
    } else {
      LocalIdentity(s, conn, step);
      if Doomed(conn) {
        DoomedLocal(s, conn, step);
      }
    }
  }

  lemma TooLongStep(w: World, step: Step)
    requires Inv(w.server) && Bounded(w.server.session, w.client.last) && TooLong(w) && Enabled(w, step)
    ensures TooLong(Next(w, step)) && Next(w, step).client.handed == w.client.handed
  {
    match step
    case Environment(a) => TooLongEnvironment(w, a);
    case Begin(n) => TooLongBegin(w, n);
    case GiveUp =>
  }

  lemma TooLongBegin(w: World, n: nat)
    requires TooLong(w) && Enabled(w, Begin(n))
    ensures TooLong(Next(w, Begin(n)))
  {
  }

  lemma TooLongEnvironment(w: World, a: Action)
    requires Inv(w.server) && Bounded(w.server.session, w.client.last) && TooLong(w) && Can(w.server, a)
    ensures TooLong(w.(server := Do(w.server, a)))
  {
    AnswerGrows(w, a);
    if w.client.stage.Resuming? {
      assert ConnInv(w.server, w.server.conns[w.client.conn]);
      StuckStep(w.server, a, w.client.conn);
    }
  }

  lemma {:induction false} TooLongForever(w: World, steps: seq<Step>)
    requires Inv(w.server) && ClientInv(w) && TooLong(w) && Run(w, steps).Some?
    ensures TooLong(Run(w, steps).value) && Run(w, steps).value.client.handed == w.client.handed
    decreases |steps|
  {
    if steps != [] {
      var n := |steps| - 1;
      TooLongForever(w, steps[..n]);
      RunKeeps(w, steps[..n]);
      TooLongStep(Run(w, steps[..n]).value, steps[n]);
    }
  }

  /** A session that was removed does not come back. */
  lemma {:induction false} RemovedForever(w: World, steps: seq<Step>)
    requires w.client.stage.Idle? && !w.server.live && Run(w, steps).Some?
    ensures var v := Run(w, steps).value; v.client == w.client && !v.server.live
    decreases |steps|
  {
    if steps != [] {
      var n := |steps| - 1;
      RemovedForever(w, steps[..n]);
      RemovedStep(Run(w, steps[..n]).value, steps[n]);
    }
  }

  lemma RemovedStep(w: World, step: Step)
    requires w.client.stage.Idle? && !w.server.live && Enabled(w, step)
    ensures Next(w, step).client == w.client && !Next(w, step).server.live
  {
  }

  // ---------------------------------------------------------------------------
  // Otherwise a run that delivers the frame
  // ---------------------------------------------------------------------------

  /** A resume from here would deliver frame i: it is still to be broadcast, or retained and after the cursor. */
  ghost predicate Obtainable(s: Server, since: Cursor, i: nat) {
    && s.live && i < |s.log|
    && (i >= |s.at| || (!Forgotten(s, i) && since.Before(s.log[i])))
  }

  predicate Current(w: World) {
    w.client.stage.Idle? && w.client.token == w.server.session.resumeToken && AnswerFits(w)
  }

  ghost predicate Waiting(w: World, i: nat) {
    Obtainable(w.server, w.client.last.Request(), i) && i !in w.client.handed
  }

  lemma ObtainableStays(s: Server, t: Server, since: Cursor, i: nat)
    requires Obtainable(s, since, i) && t.live && t.log == s.log && t.at == s.at && |t.session.buffer| == |s.session.buffer|
    ensures Obtainable(t, since, i)
  {
  }

  /** Whoever holds the attachment can be made to let go of it. */
  lemma SlotFreed(start: World, steps: seq<Step>, w: World, i: nat) returns (steps': seq<Step>, w': World)
    requires Run(start, steps) == Some(w) && Inv(w.server) && Waiting(w, i) && Current(w)
    ensures Run(start, steps') == Some(w') && Inv(w'.server) && Waiting(w', i) && Current(w')
    ensures w'.server.session.attachment.None?
  {
    steps', w' := steps, w;
    if w'.server.session.attachment.Some? {
      var h := w.server.holder.value;
      assert Owns(w.server.conns[h]);
      if w.server.conns[h].phase.Attached? {
        HolderReads(w, i, h);
        InvStep(w'.server, At(h, ReadBuffer));
        steps', w' := Extend(start, steps', w', Environment(At(h, ReadBuffer)));
      }
      HolderLeaves(w', i, h);
      InvStep(w'.server, Hangup(h, 0));
      steps', w' := Extend(start, steps', w', Environment(Hangup(h, 0)));
    }
  }

  lemma HolderReads(w: World, i: nat, h: nat)
    requires Waiting(w, i) && Current(w) && h in w.server.conns && w.server.conns[h].phase.Attached?
    ensures Can(w.server, At(h, ReadBuffer))
    ensures var w' := w.(server := Do(w.server, At(h, ReadBuffer)));
            Waiting(w', i) && Current(w') && w'.server.session == w.server.session && h in w'.server.conns && w'.server.conns[h].reading
  {
  }

  lemma HolderLeaves(w: World, i: nat, h: nat)
    requires Waiting(w, i) && Current(w) && h in w.server.conns && w.server.conns[h].reading && w.server.session.attachment.Some?
    ensures Can(w.server, Hangup(h, 0))
    ensures var w' := w.(server := Do(w.server, Hangup(h, 0)));
            Waiting(w', i) && Current(w') && w'.server.session.attachment.None?
  {
    LogFrame(w.server, Hangup(h, 0));
    ObtainableStays(w.server, Do(w.server, Hangup(h, 0)), w.client.last.Request(), i);
  }

  /** The client's connection carries only the answer so far. */
  ghost predicate Asking(w: World, i: nat) {
    && w.client.stage.Resuming? && i !in w.client.handed && w.client.conn in w.server.conns
    && var conn := w.server.conns[w.client.conn];
    && !conn.opener && !conn.gone && forall k :: 0 <= k < |conn.out| ==> !conn.out[k].Live?
  }

  /** The answer holds frame i, or the frame is still to be broadcast. */
  ghost predicate Promised(w: World, i: nat) {
    && w.client.conn in w.server.conns && i < |w.server.log|
    && (i in w.server.conns[w.client.conn].replay || i >= |w.server.at|)
  }

  ghost predicate Granted(w: World, i: nat) {
    && Asking(w, i)
    && var conn := w.server.conns[w.client.conn];
    && conn.phase.Attached? && Obtainable(w.server, conn.since, i)
    && |w.server.session.OutputsSince(conn.since)| < RESPONSE_CAPACITY
  }

  ghost predicate Answering(w: World, i: nat) {
    && Asking(w, i) && Promised(w, i)
    && var conn := w.server.conns[w.client.conn];
    && conn.phase.Replaying? && conn.taken == 0 && SlotsNeeded(conn) <= RESPONSE_CAPACITY
  }

  ghost predicate Answered(w: World, i: nat) {
    && Asking(w, i) && Promised(w, i)
    && var conn := w.server.conns[w.client.conn];
    && conn.phase.Serving? && conn.taken <= conn.ackAt && |conn.out| == conn.ackAt + 1
  }

  ghost predicate Resumed(w: World, i: nat) {
    && w.client.stage.Active? && Promised(w, i) && i !in w.client.handed
    && var conn := w.server.conns[w.client.conn];
    !conn.opener && conn.phase.Serving? && !conn.gone && conn.ackAt < conn.taken
  }

  /** A token that was never used. */
  lemma FreshToken(s: Server) returns (t: Token)
    ensures t !in s.used && t != s.session.resumeToken
  {
    var uuids := set u | u in s.used :: u.uuid;
    var n := Above(uuids + {s.session.resumeToken.uuid});
    t := Token(n);
    assert forall u :: u in s.used ==> u.uuid in uuids && u.uuid < n;
  }

  lemma BeginAsks(w: World, i: nat, n: nat)
    requires Waiting(w, i) && Current(w) && n !in w.server.conns
    ensures Enabled(w, Begin(n))
    ensures var w' := Next(w, Begin(n));
            && w'.client.stage.Resuming? && w'.client.conn == n && n in w'.server.conns && w'.server.session == w.server.session
            && w'.server.used == w.server.used && w'.client.handed == w.client.handed
            && Obtainable(w'.server, w.client.last.Request(), i)
            && w'.server.conns[n] == NewConn(false, w.client.token, w.client.last.Request(), |w.server.sent|)
  {
  }

  lemma AttachGrants(w: World, i: nat, since: Cursor, start: nat, t: Token)
    requires w.client.stage.Resuming? && i !in w.client.handed && w.client.conn in w.server.conns && Obtainable(w.server, since, i)
    requires w.server.conns[w.client.conn] == NewConn(false, w.server.session.resumeToken, since, start)
    requires w.server.session.attachment.None? && |w.server.session.OutputsSince(since)| < RESPONSE_CAPACITY
    requires t !in w.server.used && t != w.server.session.resumeToken
    ensures Enabled(w, Environment(ResumeAttach(w.client.conn, None, 0, t, 0)))
    ensures Granted(Next(w, Environment(ResumeAttach(w.client.conn, None, 0, t, 0))), i)
  {
    LogFrame(w.server, ResumeAttach(w.client.conn, None, 0, t, 0));
  }

  /** The client asks and is let in. */
  lemma Asks(start: World, steps: seq<Step>, w: World, i: nat) returns (steps': seq<Step>, w': World)
    requires Run(start, steps) == Some(w) && Inv(w.server) && Waiting(w, i) && Current(w)
    requires w.server.session.attachment.None?
    ensures Run(start, steps') == Some(w') && Inv(w'.server) && Granted(w', i)
  {
    var n := Above(w.server.conns.Keys);
    var t := FreshToken(w.server);
    BeginAsks(w, i, n);
    InvStep(w.server, Subscribe(n, w.client.token, w.client.last.Request()));
    steps', w' := Extend(start, steps, w, Begin(n));
    AttachGrants(w', i, w.client.last.Request(), |w.server.sent|, t);
    InvStep(w'.server, ResumeAttach(n, None, 0, t, 0));
    steps', w' := Extend(start, steps', w', Environment(ResumeAttach(n, None, 0, t, 0)));
  }

  lemma ReadAnswers(w: World, i: nat)
    requires Granted(w, i) && Represents(w.server.session, w.server.log)
    requires ReplayInv(w.server.conns[w.client.conn]) && PhaseInv(w.server.conns[w.client.conn])
    ensures Enabled(w, Environment(At(w.client.conn, ReadBuffer)))
    ensures Answering(Next(w, Environment(At(w.client.conn, ReadBuffer))), i)
  {
    AnswerLength(w.server, w.server.conns[w.client.conn]);
    AnswerHolds(w.server, w.server.conns[w.client.conn], i);
  }

  lemma AnswerHolds(s: Server, conn: Conn, i: nat)
    requires Obtainable(s, conn.since, i)
    ensures i in AfterRead(s, conn).replay || i >= |s.at|
  {
    NewerAtHas(s.log, |s.log| - Min(|s.session.buffer|, |s.log|), |s.log|, conn.since, i);
  }

  lemma Reads(start: World, steps: seq<Step>, w: World, i: nat) returns (steps': seq<Step>, w': World)
    requires Run(start, steps) == Some(w) && Inv(w.server) && Granted(w, i)
    ensures Run(start, steps') == Some(w') && Inv(w'.server) && Answering(w', i)
  {
    assert ConnInv(w.server, w.server.conns[w.client.conn]);
    ReadAnswers(w, i);
    InvStep(w.server, At(w.client.conn, ReadBuffer));
    steps', w' := Extend(start, steps, w, Environment(At(w.client.conn, ReadBuffer)));
  }

  lemma ReplayAnswers(w: World, i: nat)
    requires Answering(w, i) && w.server.conns[w.client.conn].replayed < |w.server.conns[w.client.conn].replay|
    ensures Enabled(w, Environment(At(w.client.conn, SendReplay)))
    ensures var w' := Next(w, Environment(At(w.client.conn, SendReplay)));
            && Answering(w', i) && w'.client.conn == w.client.conn
            && w'.server.conns[w.client.conn] == AfterReplay(w.server.conns[w.client.conn])
  {
  }

  lemma AckAnswers(w: World, i: nat)
    requires Answering(w, i) && w.server.conns[w.client.conn].replayed == |w.server.conns[w.client.conn].replay|
    ensures Enabled(w, Environment(At(w.client.conn, SendAck)))
    ensures Answered(Next(w, Environment(At(w.client.conn, SendAck))), i)
  {
  }

  lemma {:induction false} Replays(start: World, steps: seq<Step>, w: World, i: nat) returns (steps': seq<Step>, w': World)
    requires Run(start, steps) == Some(w) && Inv(w.server) && Answering(w, i)
    ensures Run(start, steps') == Some(w') && Inv(w'.server) && Answered(w', i)
    decreases |w.server.conns[w.client.conn].replay| - w.server.conns[w.client.conn].replayed
  {
    var c := w.client.conn;
    assert ConnInv(w.server, w.server.conns[c]);
    if w.server.conns[c].replayed < |w.server.conns[c].replay| {
      ReplayAnswers(w, i);
      InvStep(w.server, At(c, SendReplay));
      steps', w' := Extend(start, steps, w, Environment(At(c, SendReplay)));
      steps', w' := Replays(start, steps', w', i);
    } else {
      AckAnswers(w, i);
      InvStep(w.server, At(c, SendAck));
      steps', w' := Extend(start, steps, w, Environment(At(c, SendAck)));
    }
  }

  lemma TakesReplay(w: World, i: nat)
    requires Answered(w, i) && w.server.conns[w.client.conn].taken < w.server.conns[w.client.conn].ackAt
    requires LogInv(w.server) && ConnInv(w.server, w.server.conns[w.client.conn])
    ensures Enabled(w, Receive) && Answered(Next(w, Receive), i) && Next(w, Receive).client.conn == w.client.conn
    ensures Next(w, Receive).server == Do(w.server, At(w.client.conn, Take))
  {
    var conn := w.server.conns[w.client.conn];
    var m := conn.out[conn.taken];
    assert m.Replayed? && m.index < |conn.replay|;
    FrameInLog(w.server, conn, m);
  }

  lemma TakesAck(w: World, i: nat)
    requires Answered(w, i) && w.server.conns[w.client.conn].taken == w.server.conns[w.client.conn].ackAt
    requires PhaseInv(w.server.conns[w.client.conn])
    ensures Enabled(w, Receive) && Resumed(Next(w, Receive), i)
    ensures Next(w, Receive).server == Do(w.server, At(w.client.conn, Take))
  {
  }

  lemma {:induction false} TakesAnswer(start: World, steps: seq<Step>, w: World, i: nat) returns (steps': seq<Step>, w': World)
    requires Run(start, steps) == Some(w) && Inv(w.server) && Answered(w, i)
    ensures Run(start, steps') == Some(w') && Inv(w'.server) && Resumed(w', i)
    decreases |w.server.conns[w.client.conn].out| - w.server.conns[w.client.conn].taken
  {
    var c := w.client.conn;
    assert ConnInv(w.server, w.server.conns[c]);
    InvStep(w.server, At(c, Take));
    if w.server.conns[c].taken < w.server.conns[c].ackAt {
      TakesReplay(w, i);
      steps', w' := Extend(start, steps, w, Receive);
      steps', w' := TakesAnswer(start, steps', w', i);
    } else {
      TakesAck(w, i);
      steps', w' := Extend(start, steps, w, Receive);
    }
  }

  /** Once resumed, the frame is pending or on its way. */
  lemma ResumedExpects(w: World, i: nat)
    requires Inv(w.server) && ClientInv(w) && Resumed(w, i)
    ensures Expected(w, i)
  {
    var conn := w.server.conns[w.client.conn];
    assert ConnInv(w.server, conn);
    if i in conn.replay {
      TakenReplay(w.server, conn, i, w.client.handed + Pending(w.client));
    }
  }

  lemma Recovers(w: World, i: nat) returns (steps: seq<Step>)
    requires Inv(w.server) && ClientInv(w) && Waiting(w, i) && Current(w)
    ensures Run(w, steps).Some? && i in Run(w, steps).value.client.handed
  {
    var v;
    steps, v := SlotFreed(w, [], w, i);
    steps, v := Asks(w, steps, v, i);
    steps, v := Reads(w, steps, v, i);
    steps, v := Replays(w, steps, v, i);
    steps, v := TakesAnswer(w, steps, v, i);
    RunKeeps(w, steps);
    ResumedExpects(v, i);
    steps, v := Arrives(w, steps, v, i);
  }

  // ---------------------------------------------------------------------------
  // The exact condition
  // ---------------------------------------------------------------------------

  /**
   For a client with a saved resume state, a frame it has not got can still arrive if and only if the
   session is still there, the client's token is the current one, the answer to its resume fits the
   response channel, and the frame has not been broadcast or is retained and lies after the cursor.
   */
  lemma CanStillArriveIff(w: World, i: nat)
    requires ResumeClient.Reachable(w) && w.client.stage.Idle? && i < |w.server.log| && i !in w.client.handed
    ensures !NeverArrives(w, i) <==>
            && w.server.live && w.client.token == w.server.session.resumeToken && AnswerFits(w)
            && (i >= |w.server.at| || (!Forgotten(w.server, i) && !w.client.last.Reached(w.server.log[i])))
  {
    ReachableSide(w);
    SequenceBounded(w.server.session, w.server.log, i);
    if i < |w.server.at| && (Forgotten(w.server, i) || w.client.last.Reached(w.server.log[i])) {
      LostForever(w, i);
    } else if !w.server.live {
      forall steps | Run(w, steps).Some? ensures i !in Run(w, steps).value.client.handed {
        RemovedForever(w, steps);
      }
    } else if w.client.token != w.server.session.resumeToken {
      forall steps | Run(w, steps).Some? ensures i !in Run(w, steps).value.client.handed {
        StaleForever(w, steps);
      }
    } else if !AnswerFits(w) {
      forall steps | Run(w, steps).Some? ensures i !in Run(w, steps).value.client.handed {
        TooLongForever(w, steps);
      }
    } else {
      var steps := Recovers(w, i);
    }
  }
}
