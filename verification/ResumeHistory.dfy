/**
 What the histories of server and client add to their invariants: every token a client may hold was
 once current, the event loop ends only with the session, connections remember truly what the buffer
 had forgotten, and at most one frame straddles a resume's subscription.
 */
module ResumeHistory {
  import opened Basics
  import opened Sessions
  import opened ResumeServer
  import opened ResumeDelivery
  import opened ResumeClient

  // ---------------------------------------------------------------------------
  // Tokens and the event loop
  // ---------------------------------------------------------------------------

  /** The current token, or one that was current before. */
  ghost predicate Known(s: Server, t: Token) {
    t == s.session.resumeToken || t in s.used
  }

  predicate Holds(conn: Conn) {
    !conn.opener && (conn.phase.Attached? || conn.phase.Replaying? || conn.phase.Serving?)
  }

  ghost predicate TokensKnown(s: Server) {
    forall c :: c in s.conns && Holds(s.conns[c]) ==> Known(s, s.conns[c].nextToken)
  }

  ghost predicate LoopInv(s: Server) {
    (s.inflight.Some? ==> !s.loopDone) && (!s.loopDone ==> s.live)
  }

  /** A resume under way presented the client's token. */
  ghost predicate Presented(w: World) {
    w.client.stage.Resuming? ==>
      && w.client.conn in w.server.conns && !w.server.conns[w.client.conn].opener
      && w.server.conns[w.client.conn].presented == w.client.token
  }

  /** What a connection found evicted is no longer in the buffer; the opener asked for everything. */
  ghost predicate EvictInv(s: Server) {
    && |s.session.buffer| <= |s.log|
    && forall c :: c in s.conns ==> Remembers(s, s.conns[c])
  }

  predicate Remembers(s: Server, conn: Conn) {
    conn.evicted + |s.session.buffer| <= |s.log| && (conn.opener ==> conn.since == Cursor(None, None))
  }

  /** Frame j is at or below the cursor that conn asked with, yet its broadcast comes after the subscription. */
  ghost predicate Straddles(s: Server, conn: Conn, j: nat) {
    j < |s.log| && !conn.since.Before(s.log[j]) && (j >= |s.at| || s.at[j] >= conn.start)
  }

  /** Only the frame in flight at the subscription straddles it: it is broadcast first, and its number is the cursor itself. */
  ghost predicate StraddleInv(s: Server, conn: Conn) {
    forall j :: 0 <= j && Straddles(s, conn, j) ==>
      && (if j >= |s.at| then |s.sent| == conn.start else s.at[j] == conn.start)
      && s.log[j].sequence == Base(conn, s.log[j].stream)
      && (conn.phase.Replaying? || conn.phase.Serving? ==> j < conn.known)
  }

  ghost predicate MineStraddles(w: World) {
    !w.client.stage.Idle? ==> w.client.conn in w.server.conns && StraddleInv(w.server, w.server.conns[w.client.conn])
  }

  ghost predicate SideInv(w: World) {
    && TokensKnown(w.server) && LoopInv(w.server) && Known(w.server, w.client.token) && Presented(w)
    && EvictInv(w.server) && MineStraddles(w)
  }

  lemma StartStays(s: Server, conn: Conn, step: Local)
    requires CanLocal(|s.sent|, conn, step)
    ensures LocalStep(s, conn, step).start == conn.start && LocalStep(s, conn, step).since == conn.since
  {
    match step
    case ReadBuffer =>
    case Pull =>
    case Push =>
    case _ =>
  }

  lemma EvictedStays(s: Server, conn: Conn, step: Local)
    requires CanLocal(|s.sent|, conn, step) && |s.session.buffer| <= |s.log| && Remembers(s, conn)
    ensures Remembers(s, LocalStep(s, conn, step))
  {
    match step
    case ReadBuffer =>
    case Pull =>
    case Push =>
    case _ =>
  }

  lemma EvictInvConn(s: Server, a: Action, c: nat)
    requires LogInv(s) && Can(s, a) && EvictInv(s) && !a.Record? && !a.Broadcast? && c in Do(s, a).conns
    ensures Remembers(s, Do(s, a).conns[c])
  {
    if a.At? && a.c == c {
      EvictedStays(s, s.conns[c], a.step);
    } else {
      ConnFrame(s, a, c);
    }
  }

  lemma EvictInvStep(s: Server, a: Action)
    requires LogInv(s) && Can(s, a) && EvictInv(s)
    ensures EvictInv(Do(s, a))
  {
    if !a.Record? && !a.Broadcast? {
      LogFrame(s, a);
      forall c | c in Do(s, a).conns ensures Remembers(s, Do(s, a).conns[c]) {
        EvictInvConn(s, a, c);
      }
    }
  }

  /** The cursor a connection asked with lies below the numbering. */
  ghost predicate BaseBounded(s: Server, conn: Conn) {
    Base(conn, Stdout) < s.session.stdoutNext && Base(conn, Stderr) < s.session.stderrNext
  }

  lemma StraddleRecord(s: Server, a: Action, conn: Conn)
    requires LogInv(s) && a.Record? && Can(s, a) && BaseBounded(s, conn) && StraddleInv(s, conn)
    ensures StraddleInv(Do(s, a), conn)
  {
    var t := Do(s, a);
    forall j | 0 <= j && Straddles(t, conn, j) ensures j < |s.log| && Straddles(s, conn, j) && t.log[j] == s.log[j] {
    }
  }

  lemma StraddleBroadcast(s: Server, conn: Conn)
    requires LogInv(s) && Can(s, Broadcast) && StraddleInv(s, conn)
    ensures StraddleInv(Do(s, Broadcast), conn)
  {
    var t := Do(s, Broadcast);
    forall j | 0 <= j && Straddles(t, conn, j) ensures Straddles(s, conn, j) {
    }
  }

  lemma StraddleLocal(s: Server, conn: Conn, step: Local)
    requires CanLocal(|s.sent|, conn, step) && StraddleInv(s, conn)
    ensures StraddleInv(s, LocalStep(s, conn, step))
  {
    StartStays(s, conn, step);
    var c := LocalStep(s, conn, step);
    forall j | 0 <= j && Straddles(s, c, j) ensures Straddles(s, conn, j) {
    }
    KnownStaysRead(s, conn, step);
  }

  lemma KnownStaysRead(s: Server, conn: Conn, step: Local)
    requires CanLocal(|s.sent|, conn, step)
    ensures var c := LocalStep(s, conn, step);
            c.phase.Replaying? || c.phase.Serving? ==>
              (step.ReadBuffer? && c.known == |s.log|) || ((conn.phase.Replaying? || conn.phase.Serving?) && c.known == conn.known)
  {
    match step
    case ReadBuffer =>
    case Pull =>
    case Push =>
    case _ =>
  }

  lemma StraddleOthers(s: Server, conn: Conn, conn': Conn)
    requires StraddleInv(s, conn) && conn'.start == conn.start && conn'.since == conn.since && conn'.known == conn.known
    requires conn'.phase.Replaying? || conn'.phase.Serving? ==> conn.phase.Replaying? || conn.phase.Serving? || conn'.since == Cursor(None, None)
    ensures StraddleInv(s, conn')
  {
    forall j | 0 <= j && Straddles(s, conn', j) ensures Straddles(s, conn, j) {
    }
  }

  lemma StraddleQuiet(s: Server, t: Server, conn: Conn)
    requires t.log == s.log && t.sent == s.sent && t.at == s.at && StraddleInv(s, conn)
    ensures StraddleInv(t, conn)
  {
    forall j | 0 <= j && Straddles(t, conn, j) ensures Straddles(s, conn, j) {
    }
  }

  lemma OthersKeepStart(s: Server, a: Action, c: nat)
    requires Can(s, a) && c in s.conns && !(a.At? && a.c == c) && !a.Record? && !a.Broadcast?
    ensures c in Do(s, a).conns
    ensures var conn, conn' := s.conns[c], Do(s, a).conns[c];
            && conn'.start == conn.start && conn'.since == conn.since && conn'.known == conn.known
            && (conn'.phase.Replaying? || conn'.phase.Serving? ==> conn.phase.Replaying? || conn.phase.Serving? || conn.opener)
  {
    ConnFrame(s, a, c);
  }

  lemma StraddleStep(s: Server, a: Action, c: nat)
    requires LogInv(s) && EvictInv(s) && Can(s, a) && c in s.conns && BaseBounded(s, s.conns[c]) && StraddleInv(s, s.conns[c])
    ensures c in Do(s, a).conns && StraddleInv(Do(s, a), Do(s, a).conns[c])
  {
    if a.Record? {
      StraddleRecord(s, a, s.conns[c]);
    } else if a.Broadcast? {
      StraddleBroadcast(s, s.conns[c]);
    } else {
      LogFrame(s, a);
      if a.At? && a.c == c {
        StraddleLocal(s, s.conns[c], a.step);
      } else {
        OthersKeepStart(s, a, c);
        assert Remembers(s, s.conns[c]);
        StraddleOthers(s, s.conns[c], Do(s, a).conns[c]);
      }
      StraddleQuiet(s, Do(s, a), Do(s, a).conns[c]);
    }
  }

  /** A new connection: the newest frame is the only one that can be both reached and unbroadcast. */
  lemma StraddleBegin(w: World, n: nat)
    requires LogInv(w.server) && Bounded(w.server.session, w.client.last) && Enabled(w, Begin(n))
    ensures var w' := Next(w, Begin(n)); n in w'.server.conns && StraddleInv(w'.server, w'.server.conns[n])
  {
    var s, conn := w.server, NewConn(false, w.client.token, w.client.last.Request(), |w.server.sent|);
    forall j | 0 <= j && Straddles(s, conn, j)
      ensures j >= |s.at| && s.log[j].sequence == Base(conn, s.log[j].stream)
    {
      NewestNumber(s, j);
      SequenceBounded(s.session, s.log, j);
    }
    StraddleQuiet(s, Next(w, Begin(n)).server, conn);
  }

  lemma NewestNumber(s: Server, j: nat)
    requires LogInv(s) && |s.at| <= j < |s.log|
    ensures j == |s.log| - 1
    ensures s.log[j].sequence + 1 == if s.log[j].stream.Stdout? then s.session.stdoutNext else s.session.stderrNext
  {
    NewestIsCounted(s.session, s.log);
  }

  lemma NewestIsCounted(s: Session, log: seq<Frame>)
    requires Represents(s, log) && log != []
    ensures log[|log| - 1].sequence + 1 == if log[|log| - 1].stream.Stdout? then s.stdoutNext else s.stderrNext
  {
    assert Count(log, log[|log| - 1].stream) == Count(log[..|log| - 1], log[|log| - 1].stream) + 1;
  }

  lemma ClientBase(w: World)
    requires ClientInv(w) && !w.client.stage.Idle?
    ensures w.client.conn in w.server.conns && BaseBounded(w.server, w.server.conns[w.client.conn])
  {
  }

  lemma KnownStays(s: Server, a: Action, t: Token)
    requires Can(s, a) && Known(s, t)
    ensures Known(Do(s, a), t)
  {
  }

  lemma LoopInvStep(s: Server, a: Action)
    requires Can(s, a) && LoopInv(s)
    ensures LoopInv(Do(s, a))
  {
  }

  lemma HoldsAfter(s: Server, a: Action, c: nat)
    requires Can(s, a) && c in Do(s, a).conns && Holds(Do(s, a).conns[c])
    ensures c in s.conns
    ensures (Holds(s.conns[c]) && Do(s, a).conns[c].nextToken == s.conns[c].nextToken)
            || Do(s, a).conns[c].nextToken == Do(s, a).session.resumeToken
  {
    if a.ResumeAttach? {
      HoldsAfterAttach(s, a, c);
    } else {
      ConnFrame(s, a, c);
      if a.At? && a.c == c {
        LocalIdentity(s, s.conns[c], a.step);
        HoldsAfterLocal(s, s.conns[c], a.step);
      }
    }
  }

  lemma HoldsAfterAttach(s: Server, a: Action, c: nat)
    requires a.ResumeAttach? && Can(s, a) && c in Do(s, a).conns && Holds(Do(s, a).conns[c])
    ensures c in s.conns
    ensures (Holds(s.conns[c]) && Do(s, a).conns[c].nextToken == s.conns[c].nextToken)
            || Do(s, a).conns[c].nextToken == Do(s, a).session.resumeToken
  {
  }

  lemma HoldsAfterLocal(s: Server, conn: Conn, step: Local)
    requires CanLocal(|s.sent|, conn, step) && Holds(LocalStep(s, conn, step))
    ensures Holds(conn)
  {
    match step
    case ReadBuffer =>
    case Pull =>
    case Push =>
    case SendReplay =>
    case SendAck =>
    case _ =>
  }

  lemma TokensKnownStep(s: Server, a: Action)
    requires Can(s, a) && TokensKnown(s)
    ensures TokensKnown(Do(s, a))
  {
    forall c | c in Do(s, a).conns && Holds(Do(s, a).conns[c]) ensures Known(Do(s, a), Do(s, a).conns[c].nextToken) {
      HoldsAfter(s, a, c);
      if Do(s, a).conns[c].nextToken != Do(s, a).session.resumeToken {
        KnownStays(s, a, s.conns[c].nextToken);
      }
    }
  }

  lemma PresentedStays(s: Server, a: Action, c: nat)
    requires Can(s, a) && c in s.conns
    ensures c in Do(s, a).conns
    ensures Do(s, a).conns[c].presented == s.conns[c].presented && Do(s, a).conns[c].opener == s.conns[c].opener
  {
    ConnFrame(s, a, c);
    if a.At? && a.c == c {
      LocalIdentity(s, s.conns[c], a.step);
    }
  }

  lemma ReceiveSide(w: World)
    requires Enabled(w, Receive) && SideInv(w) && !(w.client.stage.Active? && w.client.pending != [])
    requires ConnInv(w.server, w.server.conns[w.client.conn])
    ensures Known(w.server, Next(w, Receive).client.token)
    ensures Next(w, Receive).client.stage.Resuming? ==> w.client.stage.Resuming? && Next(w, Receive).client.token == w.client.token
    ensures Next(w, Receive).client.conn == w.client.conn
  {
    var conn := w.server.conns[w.client.conn];
    if conn.out[conn.taken].Ack? {
      assert Holds(conn);
    }
  }

  lemma SideStep(w: World, step: Step)
    requires Inv(w.server) && ClientInv(w) && SideInv(w) && Enabled(w, step)
    ensures SideInv(Next(w, step))
  {
    match step
    case Environment(a) => ServerSide(w, a);
    case Begin(n) =>
      ServerSide(w, Subscribe(n, w.client.token, w.client.last.Request()));
      StraddleBegin(w, n);
    case Receive =>
      if !(w.client.stage.Active? && w.client.pending != []) {
        assert ConnInv(w.server, w.server.conns[w.client.conn]);
        ReceiveSide(w);
        ServerSide(w, At(w.client.conn, Take));
        KnownStays(w.server, At(w.client.conn, Take), Next(w, Receive).client.token);
        ReceiveKeepsSide(w, Do(w.server, At(w.client.conn, Take)), Next(w, Receive).client);
      }
    case GiveUp =>
    case Disconnect =>
  }

  lemma ReceiveKeepsSide(w: World, t: Server, c: Client)
    requires SideInv(w.(server := t)) && !w.client.stage.Idle? && c.conn == w.client.conn && Known(t, c.token)
    requires c.stage.Resuming? ==> w.client.stage.Resuming? && c.token == w.client.token
    ensures SideInv(World(t, c))
  {
  }

  lemma ServerSide(w: World, a: Action)
    requires Inv(w.server) && ClientInv(w) && Can(w.server, a) && SideInv(w)
    ensures SideInv(w.(server := Do(w.server, a)))
  {
    TokensKnownStep(w.server, a);
    LoopInvStep(w.server, a);
    EvictInvStep(w.server, a);
    KnownStays(w.server, a, w.client.token);
    ConnectionSide(w, a);
  }

  lemma ConnectionSide(w: World, a: Action)
    requires LogInv(w.server) && ClientInv(w) && EvictInv(w.server) && Can(w.server, a) && Presented(w) && MineStraddles(w)
    ensures Presented(w.(server := Do(w.server, a))) && MineStraddles(w.(server := Do(w.server, a)))
  {
    if !w.client.stage.Idle? {
      PresentedStays(w.server, a, w.client.conn);
      ClientBase(w);
      StraddleStep(w.server, a, w.client.conn);
    }
  }

  lemma {:induction false} RunSide(w: World, steps: seq<Step>)
    requires Inv(w.server) && ClientInv(w) && SideInv(w) && Run(w, steps).Some?
    ensures SideInv(Run(w, steps).value)
    decreases |steps|
  {
    if steps != [] {
      var n := |steps| - 1;
      RunSide(w, steps[..n]);
      RunKeeps(w, steps[..n]);
      SideStep(Run(w, steps[..n]).value, steps[n]);
    }
  }

  lemma ReachableSide(w: World)
    requires ResumeClient.Reachable(w)
    ensures Inv(w.server) && ClientInv(w) && SideInv(w)
  {
    ReachableClientInv(w);
    var capacity, token, now, steps :| Run(Start(capacity, token, now), steps) == Some(w);
    StartSide(capacity, token, now);
    RunSide(Start(capacity, token, now), steps);
  }

  lemma StartSide(capacity: nat, token: Token, now: Time)
    ensures var w := Start(capacity, token, now); Inv(w.server) && ClientInv(w) && SideInv(w)
  {
    InitInv(capacity, token, now);
    StartTokens(capacity, token, now);
  }

  lemma StartTokens(capacity: nat, token: Token, now: Time)
    ensures SideInv(Start(capacity, token, now))
  {
  }
}
