/**
 Runs that show what the resume protocol does not promise, all with the replay buffer of the program:
 a frame delivered twice, a resume that can never be acknowledged, cursors that move backwards, and
 frames lost by leaving a session.
 */
module ResumeWitnesses {
  import opened Basics
  import opened Sessions
  import opened ResumeServer
  import opened ResumeDelivery
  import opened ResumeClient
  import opened ResumeLoss
  import opened ResumeFlow
  import opened ResumeRecovery
  import opened ResumeHidden
  import opened ResumeStaying
  import opened ResumeLeaving

  // ---------------------------------------------------------------------------
  // The server alone
  // ---------------------------------------------------------------------------

  /** Appends one action to a run. */
  lemma Act(start: Server, actions: seq<Action>, s: Server, a: Action) returns (actions': seq<Action>, s': Server)
    requires Exec(start, actions) == Some(s) && Can(s, a)
    ensures s' == Do(s, a) && Exec(start, actions') == Some(s')
  {
    actions', s' := actions + [a], Do(s, a);
    assert actions'[..|actions|] == actions;
  }

  /** A detached session with its first token, whose producer has just broadcast everything it recorded. */
  ghost predicate Detached(s: Server, n: nat) {
    && s.live && !s.loopDone && s.inflight.None? && |s.log| == n && s.session.buffer == s.log && s.session.stdoutNext == n + 1
    && s.session.attachment.None? && s.session.resumeToken == Token(0) && s.used == map[] && s.conns.Keys == {0}
  }

  lemma Opened(capacity: nat) returns (actions: seq<Action>, s: Server)
    ensures Exec(Init(capacity, Token(0), 0), actions) == Some(s)
    ensures Detached(s, 0) && s.session.capacity == capacity && s.sent == [] && s.at == []
  {
    var start := Init(capacity, Token(0), 0);
    actions, s := Act(start, [], start, OpenAttach(0, None, 0, 0));
    actions, s := Act(start, actions, s, Hangup(0, 0));
  }

  lemma RecordsOne(s: Server, n: nat)
    requires Detached(s, n) && n < s.session.capacity
    ensures Can(s, Record(Stdout, [], false, None, 0))
    ensures var t := Do(s, Record(Stdout, [], false, None, 0));
            && Can(t, Broadcast) && Detached(Do(t, Broadcast), n + 1) && Do(t, Broadcast).session.capacity == s.session.capacity
  {
  }

  lemma {:induction false} Recorded(capacity: nat, n: nat) returns (actions: seq<Action>, s: Server)
    requires n <= capacity
    ensures Exec(Init(capacity, Token(0), 0), actions) == Some(s)
    ensures Detached(s, n) && s.session.capacity == capacity
    decreases n
  {
    if n == 0 {
      actions, s := Opened(capacity);
    } else {
      actions, s := Recorded(capacity, n - 1);
      RecordsOne(s, n - 1);
      actions, s := Act(Init(capacity, Token(0), 0), actions, s, Record(Stdout, [], false, None, 0));
      actions, s := Act(Init(capacity, Token(0), 0), actions, s, Broadcast);
    }
  }

  lemma SubscribesAndAttaches(s: Server, n: nat)
    requires Detached(s, n)
    ensures Can(s, Subscribe(1, Token(0), Cursor(None, None)))
    ensures var t := Do(s, Subscribe(1, Token(0), Cursor(None, None)));
            && Can(t, ResumeAttach(1, None, 1, Token(1), 0))
            && var u := Do(t, ResumeAttach(1, None, 1, Token(1), 0));
            && u.live && u.log == s.log && u.session.buffer == s.session.buffer && 1 in u.conns
            && u.conns[1] == NewConn(false, Token(0), Cursor(None, None), |s.sent|).(
                 phase := Attached, attachmentId := 1, nextToken := Token(1), authorised := true)
  {
  }

  lemma ReadsAll(s: Server)
    requires LogInv(s) && s.live && s.session.buffer == s.log && 1 in s.conns
    requires s.conns[1].phase.Attached? && s.conns[1].since == Cursor(None, None)
    ensures Can(s, At(1, ReadBuffer))
    ensures var t := Do(s, At(1, ReadBuffer));
            && 1 in t.conns && t.conns[1].phase.Replaying? && |t.conns[1].replay| == |s.log|
            && t.conns[1].out == s.conns[1].out && t.conns[1].replayed == s.conns[1].replayed && t.conns[1].taken == s.conns[1].taken
  {
    OutputsSinceIsLogFilter(s.session, s.log, Cursor(None, None));
    NewerKeepsAll(s.session.buffer, Cursor(None, None));
  }

  /**
   A resume with n frames to replay, none of them sent, for every n up to the buffer's capacity.
   From 128 on it is doomed: it is never acknowledged, whatever happens.
   */
  lemma LongReplayIsReachable(capacity: nat, n: nat) returns (s: Server)
    requires n <= capacity
    ensures ResumeDelivery.Reachable(s) && 1 in s.conns && s.conns[1].phase.Replaying? && |s.conns[1].replay| == n
    ensures n >= 128 ==>
              Doomed(s.conns[1])
              && forall actions :: Exec(s, actions).Some? ==>
                   1 in Exec(s, actions).value.conns && !Exec(s, actions).value.conns[1].phase.Serving?
  {
    var start := Init(capacity, Token(0), 0);
    var actions;
    actions, s := Recorded(capacity, n);
    SubscribesAndAttaches(s, n);
    actions, s := Act(start, actions, s, Subscribe(1, Token(0), Cursor(None, None)));
    actions, s := Act(start, actions, s, ResumeAttach(1, None, 1, Token(1), 0));
    InitInv(capacity, Token(0), 0);
    RunInv(start, actions);
    ReadsAll(s);
    actions, s := Act(start, actions, s, At(1, ReadBuffer));
    if n >= RESPONSE_CAPACITY {
      NeverServes(s);
    }
  }

  lemma NeverServes(s: Server)
    requires 1 in s.conns && Doomed(s.conns[1])
    ensures forall actions :: Exec(s, actions).Some? ==>
              1 in Exec(s, actions).value.conns && !Exec(s, actions).value.conns[1].phase.Serving?
  {
    forall actions | Exec(s, actions).Some?
      ensures 1 in Exec(s, actions).value.conns && !Exec(s, actions).value.conns[1].phase.Serving?
    {
      DoomedForever(s, actions, 1);
    }
  }

  const FIRST: Frame := Frame(Stdout, 1, [], false, None)
  const SECOND: Frame := Frame(Stdout, 2, [], false, None)
  const THIRD: Frame := Frame(Stdout, 3, [], false, None)

  /** A frame is recorded and broadcast between a connection's subscription and its reading of the buffer. */
  lemma BroadcastBetween() returns (actions: seq<Action>, s: Server)
    ensures Exec(Init(1024, Token(0), 0), actions) == Some(s)
    ensures s.live && s.log == s.session.buffer == [FIRST] && s.sent == [Output(0)] && s.at == [0] && s.inflight.None?
    ensures 1 in s.conns && s.session.attachment.None? && s.session.resumeToken == Token(0) && s.used == map[]
    ensures s.conns[1] == NewConn(false, Token(0), Cursor(None, None), 0)
  {
    var start := Init(1024, Token(0), 0);
    actions, s := Opened(1024);
    actions, s := Act(start, actions, s, Subscribe(1, Token(0), Cursor(None, None)));
    actions, s := Act(start, actions, s, Record(Stdout, [], false, None, 0));
    actions, s := Act(start, actions, s, Broadcast);
  }

  lemma FrameOnBothWays() returns (actions: seq<Action>, s: Server)
    ensures Exec(Init(1024, Token(0), 0), actions) == Some(s)
    ensures s.log == [FIRST] && s.sent == [Output(0)] && s.at == [0] && s.inflight.None? && 1 in s.conns
    ensures var conn := s.conns[1];
            && conn.phase.Replaying? && !conn.gone && conn.forwarding && conn.taken == 0 && conn.since == Cursor(None, None)
            && conn.start == 0 && conn.next == 0 && conn.hand.None? && conn.skipped == {} && conn.out == []
            && conn.evicted == 0 && conn.known == 1 && conn.replay == [0] && conn.replayed == 0
  {
    var start := Init(1024, Token(0), 0);
    actions, s := BroadcastBetween();
    actions, s := Act(start, actions, s, ResumeAttach(1, None, 1, Token(1), 0));
    assert NewerAt(s.log, 0, 0, Cursor(None, None)) == [];
    assert NewerAt(s.log, 0, 1, Cursor(None, None)) == [0];
    actions, s := Act(start, actions, s, At(1, ReadBuffer));
  }

  /** A frame does arrive twice: replayed, and live as well. */
  lemma FrameArrivesTwice() returns (s: Server)
    ensures ResumeDelivery.Reachable(s) && 1 in s.conns && |s.log| == 1
    ensures s.conns[1].phase.Serving? && !s.conns[1].gone && Quiet(s, s.conns[1])
    ensures Occurrences(s, s.conns[1], s.conns[1].out, 0) == 2
  {
    var start := Init(1024, Token(0), 0);
    var actions;
    actions, s := FrameOnBothWays();
    actions, s := Act(start, actions, s, At(1, Pull));
    actions, s := Act(start, actions, s, At(1, Push));
    assert s.conns[1].out == [Live(0)];
    actions, s := Act(start, actions, s, At(1, SendReplay));
    actions, s := Act(start, actions, s, At(1, SendAck));
    DeliveryCount(s, 1, 0);
  }

  // ---------------------------------------------------------------------------
  // Server and client
  // ---------------------------------------------------------------------------

  /** The session is opened and the client leaves at once. */
  lemma ClientLeaves(start: World, capacity: nat) returns (steps: seq<Step>, w: World)
    requires start == Start(capacity, Token(0), 0)
    ensures Run(start, steps) == Some(w)
    ensures w.client == start.client.(stage := Idle)
    ensures Detached(w.server, 0) && w.server.session.capacity == capacity && w.server.sent == [] && w.server.at == []
  {
    steps, w := Extend(start, [], start, Environment(OpenAttach(0, None, 0, 0)));
    steps, w := Extend(start, steps, w, Disconnect);
    steps, w := Extend(start, steps, w, Environment(Hangup(0, 0)));
  }

  // A frame lost behind the cursor, whether it was broadcast before the resume or not.

  lemma LeftWithOneFrame(start: World, broadcast: bool) returns (steps: seq<Step>, w: World)
    requires start == Start(1024, Token(0), 0)
    ensures Run(start, steps) == Some(w)
    ensures w.client == start.client.(stage := Idle)
    ensures var s := w.server;
            && s.live && s.log == s.session.buffer == [FIRST] && s.conns.Keys == {0}
            && s.at == (if broadcast then [0] else []) && |s.sent| == |s.at|
            && s.session.attachment.None? && s.session.resumeToken == Token(0) && s.used == map[]
  {
    steps, w := ClientLeaves(start, 1024);
    steps, w := Extend(start, steps, w, Environment(Record(Stdout, [], false, None, 0)));
    if broadcast {
      steps, w := Extend(start, steps, w, Environment(Broadcast));
    }
  }

  lemma BeginsAgain(start: World, broadcast: bool) returns (steps: seq<Step>, w: World)
    requires start == Start(1024, Token(0), 0)
    ensures Run(start, steps) == Some(w)
    ensures w.client == start.client.(stage := Resuming, conn := 1, mine := {0, 1})
    ensures var s := w.server;
            && s.live && s.log == s.session.buffer == [FIRST] && s.conns.Keys == {0, 1}
            && s.at == (if broadcast then [0] else [])
            && s.session.attachment.None? && s.session.resumeToken == Token(0) && s.used == map[]
            && s.conns[1] == NewConn(false, Token(0), Cursor(None, None), |s.at|)
  {
    steps, w := LeftWithOneFrame(start, broadcast);
    assert w.client.last.Request() == Cursor(None, None);
    steps, w := Extend(start, steps, w, Begin(1));
  }

  /** Connection 1 has spent the first token and holds the attachment. */
  ghost predicate Taken1(s: Server, broadcast: bool) {
    && s.live && s.log == s.session.buffer == [FIRST] && s.at == (if broadcast then [0] else []) && s.conns.Keys == {0, 1}
    && s.session.attachment.Some? && s.session.resumeToken == Token(1) && s.used.Keys == {Token(0)}
  }

  lemma AsksForOneFrame(start: World, broadcast: bool) returns (steps: seq<Step>, w: World)
    requires start == Start(1024, Token(0), 0)
    ensures Run(start, steps) == Some(w)
    ensures w.client == start.client.(stage := Resuming, conn := 1, mine := {0, 1})
    ensures Taken1(w.server, broadcast)
    ensures w.server.conns[1] == NewConn(false, Token(0), Cursor(None, None), |w.server.at|).(
              phase := Attached, attachmentId := 1, nextToken := Token(1), authorised := true)
  {
    steps, w := BeginsAgain(start, broadcast);
    steps, w := Extend(start, steps, w, Environment(ResumeAttach(1, None, 1, Token(1), 0)));
  }

  lemma OneFrameRead(start: World, broadcast: bool) returns (steps: seq<Step>, w: World)
    requires start == Start(1024, Token(0), 0)
    ensures Run(start, steps) == Some(w)
    ensures w.client == start.client.(stage := Resuming, conn := 1, mine := {0, 1})
    ensures Taken1(w.server, broadcast)
    ensures var conn := w.server.conns[1];
            && conn.phase.Replaying? && !conn.gone && conn.taken == 0 && conn.evicted == 0 && conn.reading
            && conn.replay == [0] && conn.replayed == 0 && conn.out == [] && conn.nextToken == Token(1) && conn.skipped == {}
  {
    steps, w := AsksForOneFrame(start, broadcast);
    assert NewerAt(w.server.log, 0, 0, Cursor(None, None)) == [];
    assert NewerAt(w.server.log, 0, 1, Cursor(None, None)) == [0];
    steps, w := Extend(start, steps, w, Environment(At(1, ReadBuffer)));
  }

  lemma OneFrameAnswered(start: World, broadcast: bool) returns (steps: seq<Step>, w: World)
    requires start == Start(1024, Token(0), 0)
    ensures Run(start, steps) == Some(w)
    ensures w.client == start.client.(stage := Resuming, conn := 1, mine := {0, 1})
    ensures Taken1(w.server, broadcast)
    ensures var conn := w.server.conns[1];
            && conn.phase.Serving? && !conn.gone && conn.taken == 0 && conn.evicted == 0 && conn.reading
            && conn.replay == [0] && conn.out == [Replayed(0), Ack(Token(1))] && conn.skipped == {}
  {
    steps, w := OneFrameRead(start, broadcast);
    steps, w := Extend(start, steps, w, Environment(At(1, SendReplay)));
    steps, w := Extend(start, steps, w, Environment(At(1, SendAck)));
  }

  /** The acknowledged session: its cursor is past the frame, which is still pending. */
  lemma OneFramePending(start: World, broadcast: bool) returns (steps: seq<Step>, w: World)
    requires start == Start(1024, Token(0), 0)
    ensures Run(start, steps) == Some(w)
    ensures w.client == start.client.(stage := Active, conn := 1, mine := {0, 1}, last := Cursors(1, 0), seen := Cursors(1, 0),
                                      token := Token(1), collected := [0], pending := [0])
    ensures Taken1(w.server, broadcast) && w.server.conns[1].skipped == {} && w.server.conns[1].reading
  {
    steps, w := OneFrameAnswered(start, broadcast);
    steps, w := Extend(start, steps, w, Receive);
    assert ForgottenAfter(w.server.log, 0, w.server.conns[1].since) == {};
    steps, w := Extend(start, steps, w, Receive);
  }

  /** The resume state is saved and the session dropped. */
  lemma LeftHastily(start: World, broadcast: bool) returns (steps: seq<Step>, w: World)
    requires start == Start(1024, Token(0), 0)
    ensures Run(start, steps) == Some(w) && Taken1(w.server, broadcast) && w.server.conns[1].reading
    ensures w.client.stage.Idle? && w.client.last == Cursors(1, 0) && w.client.token == Token(1)
    ensures w.client.handed == {} && w.client.evicted == {} && w.client.lagged == {}
  {
    steps, w := OneFramePending(start, broadcast);
    assert LaggedFrames(w.server, w.server.conns[1]) == {};
    steps, w := Extend(start, steps, w, Disconnect);
  }

  /**
   Saving the resume state too early does lose a frame: a run in which nothing was forgotten
   or overwritten, yet the saved cursor covers a frame that the application never received and,
   whatever happens next, never will.
   */
  lemma HastyDisconnectLosesFrame() returns (w: World)
    ensures ResumeClient.Reachable(w) && w.client.stage.Idle? && |w.server.log| == 1
    ensures w.client.last.Reached(w.server.log[0]) && 0 !in w.client.handed
    ensures w.client.evicted == {} && w.client.lagged == {}
    ensures NeverArrives(w, 0)
  {
    var steps;
    steps, w := LeftHastily(Start(1024, Token(0), 0), true);
    LostForever(w, 0);
  }

  /** The next resume gets as far as its attach, which spends the token, and the client gives it up. */
  lemma AsksAgain(start: World) returns (steps: seq<Step>, w: World)
    requires start == Start(1024, Token(0), 0)
    ensures Run(start, steps) == Some(w)
    ensures w.client.stage.Resuming? && w.client.conn == 2 && w.client.last == w.client.seen == Cursors(1, 0) && w.client.token == Token(1)
    ensures w.client.handed == {} && w.client.collected == []
    ensures w.server.log == w.server.session.buffer == [FIRST] && w.server.at == [] && w.server.live && 2 in w.server.conns
    ensures w.server.session.attachment.None? && w.server.session.resumeToken == Token(1) && w.server.used.Keys == {Token(0)}
    ensures w.server.conns[2] == NewConn(false, Token(1), Cursor(Some(1), None), |w.server.sent|)
  {
    steps, w := LeftHastily(start, false);
    steps, w := Extend(start, steps, w, Environment(Hangup(1, 0)));
    assert w.client.last.Request() == Cursor(Some(1), None);
    steps, w := Extend(start, steps, w, Begin(2));
  }

  lemma GrantedAgain(start: World) returns (steps: seq<Step>, w: World)
    requires start == Start(1024, Token(0), 0)
    ensures Run(start, steps) == Some(w)
    ensures w.client.stage.Resuming? && w.client.conn == 2 && w.client.last == w.client.seen == Cursors(1, 0) && w.client.token == Token(1)
    ensures w.client.handed == {} && w.client.collected == [] && w.server.session.resumeToken == Token(2)
    ensures w.server.log == w.server.session.buffer == [FIRST] && w.server.at == [] && w.server.live && 2 in w.server.conns
    ensures w.server.conns[2] == NewConn(false, Token(1), Cursor(Some(1), None), |w.server.sent|).(
              phase := Attached, attachmentId := 2, nextToken := Token(2), authorised := true)
  {
    steps, w := AsksAgain(start);
    steps, w := Extend(start, steps, w, Environment(ResumeAttach(2, None, 2, Token(2), 0)));
  }

  lemma GivesUpAfterAttach(start: World) returns (steps: seq<Step>, w: World)
    requires start == Start(1024, Token(0), 0)
    ensures Run(start, steps) == Some(w)
    ensures w.client.stage.Idle? && w.client.last == Cursors(1, 0) && w.client.token == Token(1) && w.client.handed == {}
    ensures w.server.log == [FIRST] && w.server.at == [] && w.server.session.resumeToken == Token(2)
  {
    steps, w := GrantedAgain(start);
    steps, w := Extend(start, steps, w, GiveUp);
  }

  /** A frame below the cursor can be lost although it has not even been broadcast: here the client's token is spent. */
  lemma UnbroadcastFrameCanBeLost() returns (w: World)
    ensures ResumeClient.Reachable(w) && w.client.stage.Idle? && |w.server.log| == 1 && w.server.at == []
    ensures w.client.last.Reached(w.server.log[0]) && 0 !in w.client.handed
    ensures NeverArrives(w, 0)
  {
    var steps;
    steps, w := GivesUpAfterAttach(Start(1024, Token(0), 0));
    HiddenCanStillArriveIff(w, 0);
  }

  // A frame on its way, lost by leaving although nothing is pending.

  /** The next resume finds nothing to replay. */
  lemma NothingReplayed(start: World) returns (steps: seq<Step>, w: World)
    requires start == Start(1024, Token(0), 0)
    ensures Run(start, steps) == Some(w)
    ensures w.client.stage.Resuming? && w.client.conn == 2 && w.client.seen == Cursors(1, 0)
    ensures w.client.handed == {} && w.client.collected == []
    ensures w.server.log == [FIRST] && w.server.at == [] && 2 in w.server.conns
    ensures var conn := w.server.conns[2];
            && conn.phase.Replaying? && !conn.gone && conn.forwarding && conn.next == |w.server.sent| && conn.taken == 0
            && conn.replay == [] && conn.replayed == 0 && conn.out == []
  {
    steps, w := GrantedAgain(start);
    assert NewerAt(w.server.log, 0, 0, Cursor(Some(1), None)) == [];
    assert NewerAt(w.server.log, 0, 1, Cursor(Some(1), None)) == [];
    steps, w := Extend(start, steps, w, Environment(At(2, ReadBuffer)));
  }

  lemma ResumedWithNothing(start: World) returns (steps: seq<Step>, w: World)
    requires start == Start(1024, Token(0), 0)
    ensures Run(start, steps) == Some(w)
    ensures w.client.stage.Active? && w.client.conn == 2 && w.client.last == Cursors(1, 0)
    ensures w.client.handed == {} && w.client.pending == []
    ensures w.server.log == [FIRST] && w.server.at == [] && 2 in w.server.conns
    ensures var conn := w.server.conns[2]; conn.phase.Serving? && !conn.gone && conn.forwarding && conn.next == |w.server.sent|
  {
    steps, w := NothingReplayed(start);
    steps, w := Extend(start, steps, w, Environment(At(2, SendAck)));
    assert w.server.conns[2].out[0].Ack?;
    steps, w := Extend(start, steps, w, Receive);
  }

  lemma FrameInFlight(w: World)
    requires ResumeClient.Reachable(w) && |w.server.log| == 1 && w.server.at == []
    ensures w.server.inflight == Some(Output(0))
  {
    ReachableClientInv(w);
  }

  /** Then the frame is broadcast to the running session. */
  lemma FrameComing(start: World) returns (steps: seq<Step>, w: World)
    requires start == Start(1024, Token(0), 0)
    ensures Run(start, steps) == Some(w)
    ensures w.client.stage.Active? && w.client.last == Cursors(1, 0) && w.client.handed == {} && w.client.pending == []
    ensures w.server.log == [FIRST] && |w.server.at| == 1 && Due(w, 0)
  {
    steps, w := ResumedWithNothing(start);
    FrameInFlight(w);
    steps, w := Extend(start, steps, w, Environment(Broadcast));
  }

  /** A session with nothing pending, whose cursor is past a frame that is coming: staying delivers it, leaving loses it. */
  lemma FrameLostByLeaving() returns (w: World)
    ensures ResumeClient.Reachable(w) && w.client.stage.Active? && w.client.pending == [] && |w.server.log| == 1
    ensures w.client.last.Reached(w.server.log[0]) && 0 !in w.client.handed && LostByLeaving(w, 0)
  {
    var steps;
    steps, w := FrameComing(Start(1024, Token(0), 0));
    LostByLeavingIff(w, 0);
  }

  // Cursors that move backwards.

  /** The client asks, then two frames are recorded and broadcast. */
  lemma TwoFramesBroadcast(start: World) returns (steps: seq<Step>, w: World)
    requires start == Start(1024, Token(0), 0)
    ensures Run(start, steps) == Some(w)
    ensures w.client == start.client.(stage := Resuming, conn := 1, mine := {0, 1})
    ensures var s := w.server;
            && s.live && s.log == s.session.buffer == [FIRST, SECOND] && s.sent == [Output(0), Output(1)] && 1 in s.conns
            && s.session.attachment.None? && s.session.resumeToken == Token(0) && s.used == map[]
            && s.conns[1] == NewConn(false, Token(0), Cursor(None, None), 0)
  {
    steps, w := FirstFrameBroadcast(start);
    steps, w := Extend(start, steps, w, Environment(Record(Stdout, [], false, None, 0)));
    steps, w := Extend(start, steps, w, Environment(Broadcast));
  }

  lemma FirstFrameBroadcast(start: World) returns (steps: seq<Step>, w: World)
    requires start == Start(1024, Token(0), 0)
    ensures Run(start, steps) == Some(w)
    ensures w.client == start.client.(stage := Resuming, conn := 1, mine := {0, 1})
    ensures var s := w.server;
            && s.live && s.log == s.session.buffer == [FIRST] && s.sent == [Output(0)] && 1 in s.conns
            && s.session.capacity == 1024 && s.session.stdoutNext == 2 && s.inflight.None? && !s.loopDone
            && s.session.attachment.None? && s.session.resumeToken == Token(0) && s.used == map[]
            && s.conns[1] == NewConn(false, Token(0), Cursor(None, None), 0)
  {
    steps, w := ClientLeaves(start, 1024);
    assert w.client.last.Request() == Cursor(None, None);
    steps, w := Extend(start, steps, w, Begin(1));
    steps, w := Extend(start, steps, w, Environment(Record(Stdout, [], false, None, 0)));
    steps, w := Extend(start, steps, w, Environment(Broadcast));
  }

  lemma TwoFramesRead(start: World) returns (steps: seq<Step>, w: World)
    requires start == Start(1024, Token(0), 0)
    ensures Run(start, steps) == Some(w)
    ensures w.client == start.client.(stage := Resuming, conn := 1, mine := {0, 1})
    ensures w.server.log == [FIRST, SECOND] && w.server.sent == [Output(0), Output(1)] && 1 in w.server.conns
    ensures var conn := w.server.conns[1];
            && conn.phase.Replaying? && !conn.gone && conn.forwarding && conn.taken == 0 && conn.next == 0 && conn.hand.None?
            && conn.replay == [0, 1] && conn.replayed == 0 && conn.out == []
  {
    steps, w := TwoFramesBroadcast(start);
    steps, w := Extend(start, steps, w, Environment(ResumeAttach(1, None, 1, Token(1), 0)));
    TwoPositions(w.server.log);
    steps, w := Extend(start, steps, w, Environment(At(1, ReadBuffer)));
  }

  lemma TwoPositions(log: seq<Frame>)
    requires |log| == 2
    ensures NewerAt(log, 0, 2, Cursor(None, None)) == [0, 1]
  {
    assert NewerAt(log, 0, 0, Cursor(None, None)) == [];
    assert NewerAt(log, 0, 1, Cursor(None, None)) == [0];
  }

  /** Both are replayed before the live copy of the first goes out. */
  lemma TwoFramesReplayed(start: World) returns (steps: seq<Step>, w: World)
    requires start == Start(1024, Token(0), 0)
    ensures Run(start, steps) == Some(w)
    ensures w.client == start.client.(stage := Resuming, conn := 1, mine := {0, 1})
    ensures w.server.log == [FIRST, SECOND] && w.server.sent == [Output(0), Output(1)] && 1 in w.server.conns
    ensures var conn := w.server.conns[1];
            && conn.phase.Replaying? && !conn.gone && conn.forwarding && conn.taken == 0 && conn.next == 0 && conn.hand.None?
            && conn.replay == [0, 1] && conn.replayed == 2 && conn.out == [Replayed(0), Replayed(1)]
  {
    steps, w := TwoFramesRead(start);
    steps, w := Extend(start, steps, w, Environment(At(1, SendReplay)));
    assert w.server.conns[1].out == [Replayed(0)];
    steps, w := Extend(start, steps, w, Environment(At(1, SendReplay)));
  }

  lemma LiveCopyBehind(start: World) returns (steps: seq<Step>, w: World)
    requires start == Start(1024, Token(0), 0)
    ensures Run(start, steps) == Some(w)
    ensures w.client == start.client.(stage := Resuming, conn := 1, mine := {0, 1})
    ensures w.server.log == [FIRST, SECOND] && w.server.sent == [Output(0), Output(1)] && 1 in w.server.conns
    ensures var conn := w.server.conns[1];
            && conn.phase.Serving? && !conn.gone && conn.taken == 0 && conn.replay == [0, 1]
            && |conn.out| == 4 && conn.out[0] == Replayed(0) && conn.out[1] == Replayed(1) && conn.out[2] == Live(0)
  {
    steps, w := TwoFramesReplayed(start);
    steps, w := Extend(start, steps, w, Environment(At(1, Pull)));
    assert w.server.conns[1].hand == Some(0) && w.server.conns[1].out == [Replayed(0), Replayed(1)];
    steps, w := Extend(start, steps, w, Environment(At(1, Push)));
    assert w.server.conns[1].out == [Replayed(0), Replayed(1), Live(0)];
    steps, w := Extend(start, steps, w, Environment(At(1, SendAck)));
  }

  lemma FirstFrameReceived(start: World) returns (steps: seq<Step>, w: World)
    requires start == Start(1024, Token(0), 0)
    ensures Run(start, steps) == Some(w)
    ensures w.client.stage.Resuming? && w.client.conn == 1 && w.client.seen == Cursors(1, 0)
    ensures w.server.log == [FIRST, SECOND] && w.server.sent == [Output(0), Output(1)] && 1 in w.server.conns
    ensures var conn := w.server.conns[1];
            && conn.phase.Serving? && !conn.gone && conn.taken == 1 && conn.replay == [0, 1]
            && |conn.out| == 4 && conn.out[1] == Replayed(1) && conn.out[2] == Live(0)
  {
    steps, w := LiveCopyBehind(start);
    assert NextFrameIndex(w) == Some(0);
    steps, w := Extend(start, steps, w, Receive);
  }

  lemma SecondFrameReceived(start: World) returns (steps: seq<Step>, w: World)
    requires start == Start(1024, Token(0), 0)
    ensures Run(start, steps) == Some(w)
    ensures w.client.stage.Resuming? && w.client.conn == 1 && w.client.seen == Cursors(2, 0)
    ensures w.server.log == [FIRST, SECOND] && w.server.sent == [Output(0), Output(1)] && 1 in w.server.conns
    ensures var conn := w.server.conns[1];
            conn.phase.Serving? && !conn.gone && conn.taken == 2 && |conn.out| == 4 && conn.out[2] == Live(0)
  {
    steps, w := FirstFrameReceived(start);
    assert NextFrameIndex(w) == Some(1);
    steps, w := Extend(start, steps, w, Receive);
  }

  /** A cursor does move backwards: the replay takes it to 2, and the live copy of the first frame back to 1. */
  lemma CursorMovesBack() returns (w: World)
    ensures ResumeClient.Reachable(w) && w.client.stage.Resuming? && Enabled(w, Receive)
    ensures w.client.seen.stdout == 2 && Next(w, Receive).client.seen.stdout == 1
  {
    var steps;
    steps, w := SecondFrameReceived(Start(1024, Token(0), 0));
    assert NextFrameIndex(w) == Some(0);
  }

  // The same with the live copy behind the acknowledgement, so that it is the running session's cursor that goes down.

  /** The session's own state is that of two replayed frames. */
  ghost predicate CopyComing(w: World, taken: nat) {
    && w.client.conn == 1 && w.server.log == [FIRST, SECOND] && w.server.sent == [Output(0), Output(1)] && 1 in w.server.conns
    && var conn := w.server.conns[1];
    && conn.phase.Serving? && !conn.gone && conn.taken == taken && conn.replay == [0, 1]
    && |conn.out| == 4 && conn.out[0] == Replayed(0) && conn.out[1] == Replayed(1) && conn.out[2].Ack? && conn.out[3] == Live(0)
  }

  lemma CopyBehindAck(start: World) returns (steps: seq<Step>, w: World)
    requires start == Start(1024, Token(0), 0)
    ensures Run(start, steps) == Some(w) && CopyComing(w, 0)
    ensures w.client.stage.Resuming? && w.client.seen == Cursors(0, 0) && w.client.collected == []
  {
    steps, w := TwoFramesReplayed(start);
    steps, w := Extend(start, steps, w, Environment(At(1, SendAck)));
    assert |w.server.conns[1].out| == 3;
    steps, w := Extend(start, steps, w, Environment(At(1, Pull)));
    steps, w := Extend(start, steps, w, Environment(At(1, Push)));
  }

  lemma OneCollected(start: World) returns (steps: seq<Step>, w: World)
    requires start == Start(1024, Token(0), 0)
    ensures Run(start, steps) == Some(w) && CopyComing(w, 1)
    ensures w.client.stage.Resuming? && w.client.seen == Cursors(1, 0) && w.client.collected == [0]
  {
    steps, w := CopyBehindAck(start);
    assert NextFrameIndex(w) == Some(0);
    steps, w := Extend(start, steps, w, Receive);
  }

  lemma TwoCollected(start: World) returns (steps: seq<Step>, w: World)
    requires start == Start(1024, Token(0), 0)
    ensures Run(start, steps) == Some(w) && CopyComing(w, 2)
    ensures w.client.stage.Resuming? && w.client.seen == Cursors(2, 0) && w.client.collected == [0, 1]
  {
    steps, w := OneCollected(start);
    assert NextFrameIndex(w) == Some(1);
    steps, w := Extend(start, steps, w, Receive);
  }

  lemma TwoPending(start: World) returns (steps: seq<Step>, w: World)
    requires start == Start(1024, Token(0), 0)
    ensures Run(start, steps) == Some(w) && CopyComing(w, 3)
    ensures w.client.stage.Active? && w.client.last == Cursors(2, 0) && w.client.pending == [0, 1]
  {
    steps, w := TwoCollected(start);
    steps, w := Extend(start, steps, w, Receive);
  }

  lemma TwoHandedOut(start: World) returns (steps: seq<Step>, w: World)
    requires start == Start(1024, Token(0), 0)
    ensures Run(start, steps) == Some(w) && CopyComing(w, 3)
    ensures w.client.stage.Active? && w.client.last == Cursors(2, 0) && w.client.pending == []
  {
    steps, w := TwoPending(start);
    steps, w := Extend(start, steps, w, Receive);
    assert w.client.pending == [1];
    steps, w := Extend(start, steps, w, Receive);
  }

  /** In a running session that has handed out everything, the live copy of the first frame takes the cursor from 2 back to 1. */
  lemma SessionCursorMovesBack() returns (w: World)
    ensures ResumeClient.Reachable(w) && w.client.stage.Active? && w.client.pending == [] && Enabled(w, Receive)
    ensures w.client.last.stdout == 2 && Next(w, Receive).client.stage.Active? && Next(w, Receive).client.last.stdout == 1
  {
    var steps;
    steps, w := TwoHandedOut(Start(1024, Token(0), 0));
    assert NextFrameIndex(w) == Some(0);
  }

  lemma OneFrameBefore(start: World) returns (steps: seq<Step>, w: World)
    requires start == Start(1024, Token(0), 0)
    ensures Run(start, steps) == Some(w) && w.client == start.client.(stage := Idle)
    ensures Detached(w.server, 1) && w.server.log == [FIRST] && w.server.sent == [Output(0)]
    ensures w.server.session.capacity == 1024
  {
    steps, w := ClientLeaves(start, 1024);
    steps, w := Extend(start, steps, w, Environment(Record(Stdout, [], false, None, 0)));
    steps, w := Extend(start, steps, w, Environment(Broadcast));
  }

  /** Two frames are broadcast before the client asks, so that none is in the replay and live as well. */
  lemma TwoFramesBefore(start: World) returns (steps: seq<Step>, w: World)
    requires start == Start(1024, Token(0), 0)
    ensures Run(start, steps) == Some(w) && w.client == start.client.(stage := Idle)
    ensures Detached(w.server, 2) && w.server.log == [FIRST, SECOND] && w.server.sent == [Output(0), Output(1)]
    ensures w.server.session.capacity == 1024
  {
    steps, w := OneFrameBefore(start);
    steps, w := Extend(start, steps, w, Environment(Record(Stdout, [], false, None, 0)));
    steps, w := Extend(start, steps, w, Environment(Broadcast));
  }

  /** The producer is between events, and three is its next number. */
  ghost predicate Producing(s: Server) {
    s.live && !s.loopDone && s.inflight.None? && s.session.capacity == 1024 && s.session.stdoutNext == 3
  }

  lemma AsksForTwoFrames(start: World) returns (steps: seq<Step>, w: World)
    requires start == Start(1024, Token(0), 0)
    ensures Run(start, steps) == Some(w)
    ensures w.client == start.client.(stage := Resuming, conn := 1, mine := {0, 1})
    ensures Producing(w.server) && w.server.log == w.server.session.buffer == [FIRST, SECOND] && w.server.sent == [Output(0), Output(1)]
    ensures w.server.session.attachment.None? && w.server.session.resumeToken == Token(0) && w.server.used == map[] && 1 in w.server.conns
    ensures w.server.conns[1] == NewConn(false, Token(0), Cursor(None, None), 2)
  {
    steps, w := TwoFramesBefore(start);
    assert w.client.last.Request() == Cursor(None, None);
    steps, w := Extend(start, steps, w, Begin(1));
  }

  lemma AttachesForTwoFrames(start: World) returns (steps: seq<Step>, w: World)
    requires start == Start(1024, Token(0), 0)
    ensures Run(start, steps) == Some(w)
    ensures w.client == start.client.(stage := Resuming, conn := 1, mine := {0, 1})
    ensures Producing(w.server) && w.server.log == w.server.session.buffer == [FIRST, SECOND] && w.server.sent == [Output(0), Output(1)]
    ensures 1 in w.server.conns
    ensures w.server.conns[1] == NewConn(false, Token(0), Cursor(None, None), 2).(
              phase := Attached, attachmentId := 1, nextToken := Token(1), authorised := true)
  {
    steps, w := AsksForTwoFrames(start);
    steps, w := Extend(start, steps, w, Environment(ResumeAttach(1, None, 1, Token(1), 0)));
  }

  lemma OneOfTwoReplayed(start: World) returns (steps: seq<Step>, w: World)
    requires start == Start(1024, Token(0), 0)
    ensures Run(start, steps) == Some(w)
    ensures w.client == start.client.(stage := Resuming, conn := 1, mine := {0, 1})
    ensures Producing(w.server) && w.server.log == [FIRST, SECOND] && w.server.sent == [Output(0), Output(1)] && 1 in w.server.conns
    ensures var conn := w.server.conns[1];
            && conn.phase.Replaying? && !conn.gone && conn.forwarding && conn.taken == 0 && conn.next == conn.start == 2 && conn.hand.None?
            && conn.replay == [0, 1] && conn.replayed == 1 && conn.out == [Replayed(0)]
  {
    steps, w := AttachesForTwoFrames(start);
    TwoPositions(w.server.log);
    steps, w := Extend(start, steps, w, Environment(At(1, ReadBuffer)));
    assert w.server.conns[1].replay == [0, 1] && w.server.conns[1].out == [];
    steps, w := Extend(start, steps, w, Environment(At(1, SendReplay)));
  }

  lemma ThirdFrameBroadcast(start: World) returns (steps: seq<Step>, w: World)
    requires start == Start(1024, Token(0), 0)
    ensures Run(start, steps) == Some(w)
    ensures w.client == start.client.(stage := Resuming, conn := 1, mine := {0, 1})
    ensures w.server.log == [FIRST, SECOND, THIRD] && w.server.sent == [Output(0), Output(1), Output(2)] && 1 in w.server.conns
    ensures var conn := w.server.conns[1];
            && conn.phase.Replaying? && !conn.gone && conn.forwarding && conn.taken == 0 && conn.next == 2 && conn.hand.None?
            && conn.replay == [0, 1] && conn.replayed == 1 && conn.out == [Replayed(0)]
  {
    steps, w := OneOfTwoReplayed(start);
    steps, w := Extend(start, steps, w, Environment(Record(Stdout, [], false, None, 0)));
    steps, w := Extend(start, steps, w, Environment(Broadcast));
  }

  lemma ThirdFramePushed(start: World) returns (steps: seq<Step>, w: World)
    requires start == Start(1024, Token(0), 0)
    ensures Run(start, steps) == Some(w)
    ensures w.client == start.client.(stage := Resuming, conn := 1, mine := {0, 1})
    ensures w.server.log == [FIRST, SECOND, THIRD] && w.server.sent == [Output(0), Output(1), Output(2)] && 1 in w.server.conns
    ensures var conn := w.server.conns[1];
            && conn.phase.Replaying? && !conn.gone && conn.taken == 0
            && conn.replay == [0, 1] && conn.replayed == 1 && conn.out == [Replayed(0), Live(2)]
  {
    steps, w := ThirdFrameBroadcast(start);
    steps, w := Extend(start, steps, w, Environment(At(1, Pull)));
    steps, w := Extend(start, steps, w, Environment(At(1, Push)));
  }

  lemma ThirdFrameOvertakes(start: World) returns (steps: seq<Step>, w: World)
    requires start == Start(1024, Token(0), 0)
    ensures Run(start, steps) == Some(w)
    ensures w.client == start.client.(stage := Resuming, conn := 1, mine := {0, 1})
    ensures w.server.log == [FIRST, SECOND, THIRD] && w.server.sent == [Output(0), Output(1), Output(2)] && 1 in w.server.conns
    ensures var conn := w.server.conns[1];
            && conn.phase.Serving? && !conn.gone && conn.taken == 0 && conn.replay == [0, 1] && |conn.out| == 4
            && conn.out[0] == Replayed(0) && conn.out[1] == Live(2) && conn.out[2] == Replayed(1)
  {
    steps, w := ThirdFramePushed(start);
    steps, w := Extend(start, steps, w, Environment(At(1, SendReplay)));
    assert w.server.conns[1].out == [Replayed(0), Live(2), Replayed(1)];
    steps, w := Extend(start, steps, w, Environment(At(1, SendAck)));
  }

  lemma ThirdFrameReceived(start: World) returns (steps: seq<Step>, w: World)
    requires start == Start(1024, Token(0), 0)
    ensures Run(start, steps) == Some(w)
    ensures w.client.stage.Resuming? && w.client.conn == 1 && w.client.seen == Cursors(3, 0)
    ensures w.server.log == [FIRST, SECOND, THIRD] && 1 in w.server.conns
    ensures var conn := w.server.conns[1];
            && conn.phase.Serving? && !conn.gone && conn.taken == 2 && conn.replay == [0, 1] && |conn.out| == 4 && conn.out[2] == Replayed(1)
  {
    steps, w := ThirdFrameOvertakes(start);
    assert NextFrameIndex(w) == Some(0);
    steps, w := Extend(start, steps, w, Receive);
    assert NextFrameIndex(w) == Some(2);
    steps, w := Extend(start, steps, w, Receive);
  }

  /** And a replayed message can take it back as well: a third frame, recorded during the replay, overtakes the second. */
  lemma CursorMovesBackInReplay() returns (w: World)
    ensures ResumeClient.Reachable(w) && w.client.stage.Resuming? && Enabled(w, Receive)
    ensures w.client.seen.stdout == 3 && Next(w, Receive).client.seen.stdout == 2
  {
    var steps;
    steps, w := ThirdFrameReceived(Start(1024, Token(0), 0));
    assert NextFrameIndex(w) == Some(1);
  }
}
