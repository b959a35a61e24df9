/**
 Frames that the client's cursor has reached. After leaving, such a frame comes back only if it is
 still to be broadcast, and then the answer always fits. In a session, a message takes the cursor
 back only in two ways.
 */
module ResumeHidden {
  import opened Basics
  import opened Sessions
  import opened ResumeServer
  import opened ResumeDelivery
  import opened ResumeClient
  import opened ResumeHistory
  import opened ResumeLoss
  import opened ResumeFlow
  import opened ResumeRecovery

  // ---------------------------------------------------------------------------
  // The answer always fits while a reached frame is unbroadcast
  // ---------------------------------------------------------------------------

  ghost predicate Within(a: seq<nat>, b: seq<nat>) {
    forall x :: x in a ==> x in b
  }

  /** An increasing sequence of members of another is no longer than it. */
  lemma {:induction false} NoLonger(a: seq<nat>, b: seq<nat>)
    requires Increasing(a) && Increasing(b) && Within(a, b)
    ensures |a| <= |b|
    decreases |a|
  {
    if a != [] {
      var n := |a| - 1;
      assert a[n] in b;
      var m :| 0 <= m < |b| && b[m] == a[n];
      forall x | x in a[..n] ensures x in b[..m] {
        var k :| 0 <= k < n && a[k] == x;
        assert a[k] in b;
        var l :| 0 <= l < |b| && b[l] == x;
        assert l < m;
      }
      NoLonger(a[..n], b[..m]);
    }
  }

  lemma CarriedNotBelowBase(s: Server, conn: Conn, k: nat)
    requires BroadcastInOrder(s.sent, s.at) && LiveInv(conn, |s.sent|) && SnapshotInv(conn, s.log, s.at) && StraddleInv(s, conn)
    requires k < |conn.out| && FrameOf(s, conn, conn.out[k]).Some? && FrameOf(s, conn, conn.out[k]).value < |s.log|
    ensures var f := s.log[FrameOf(s, conn, conn.out[k]).value]; f.sequence >= Base(conn, f.stream)
  {
    CarriedBy(s, conn, k);
    var j := FrameOf(s, conn, conn.out[k]).value;
    if !conn.since.Before(s.log[j]) {
      assert Straddles(s, conn, j);
    }
  }

  /** A cursor that a session holds is not below the one it resumed with. */
  lemma CursorNotBelowBase(s: Server, conn: Conn, stream: OutputStream, n: nat)
    requires LogInv(s) && ConnInv(s, conn) && StraddleInv(s, conn) && CursorFrom(s, conn, stream, n)
    ensures n >= Base(conn, stream)
  {
    if n != Base(conn, stream) {
      var k: nat :| Carries(s, conn, k, stream, n);
      CarriedNotBelowBase(s, conn, k);
    }
  }

  lemma SameNumberSameFrame(log: seq<Frame>, i: nat, j: nat)
    requires WellNumbered(log) && i < |log| && j < |log| && log[i].stream == log[j].stream && log[i].sequence == log[j].sequence
    ensures i == j
  {
    SequenceOrder(log, i, j);
    SequenceOrder(log, j, i);
  }

  /** A cursor that has reached an unbroadcast frame stands at it. */
  lemma StandsAtNewest(s: Server, last: Cursors, i: nat)
    requires LogInv(s) && Bounded(s.session, last) && |s.at| <= i < |s.log| && last.Reached(s.log[i])
    ensures last.Of(s.log[i].stream) == s.log[i].sequence >= 1
  {
    NewestNumber(s, i);
    SequenceBounded(s.session, s.log, i);
  }

  /** A cursor that has reached an unbroadcast frame learnt of it before or in the answer, so the answer came after it was recorded. */
  lemma ReachedBeforeRead(s: Server, conn: Conn, last: Cursors, i: nat)
    requires LogInv(s) && ConnInv(s, conn) && StraddleInv(s, conn) && CursorsFrom(s, conn, last) && Bounded(s.session, last)
    requires conn.phase.Serving? && |s.at| <= i < |s.log| && last.Reached(s.log[i])
    ensures i < conn.known
  {
    StandsAtNewest(s, last, i);
    var stream, n := s.log[i].stream, s.log[i].sequence;
    assert CursorFrom(s, conn, stream, n);
    if n == Base(conn, stream) {
      assert Straddles(s, conn, i);
    } else {
      var k: nat :| Carries(s, conn, k, stream, n);
      SameNumberSameFrame(s.log, i, FrameOf(s, conn, conn.out[k]).value);
      CarriedBy(s, conn, k);
    }
  }

  lemma LaterCursorAsksLess(conn: Conn, last: Cursors, f: Frame)
    requires last.stdout >= Base(conn, Stdout) && last.stderr >= Base(conn, Stderr) && f.sequence >= 1 && last.Request().Before(f)
    ensures conn.since.Before(f)
  {
  }

  lemma AskedIsReplayed(s: Server, conn: Conn, last: Cursors, x: nat)
    requires SnapshotInv(conn, s.log, s.at) && conn.phase.Serving? && conn.known == |s.log|
    requires last.stdout >= Base(conn, Stdout) && last.stderr >= Base(conn, Stderr)
    requires conn.evicted <= x < |s.log| && s.log[x].sequence >= 1 && last.Request().Before(s.log[x])
    ensures x in conn.replay
  {
    LaterCursorAsksLess(conn, last, s.log[x]);
  }

  /** Position x is retained, and its frame is after the cursor. */
  predicate Asked(log: seq<Frame>, evicted: int, since: Cursor, x: nat) {
    evicted <= x < |log| && log[x].sequence >= 1 && since.Before(log[x])
  }

  /** The positions of the answer. */
  lemma AnswerAt(s: Session, log: seq<Frame>, since: Cursor) returns (a: seq<nat>)
    requires Represents(s, log)
    ensures |a| == |s.OutputsSince(since)| && Increasing(a) && forall x :: x in a ==> Asked(log, |log| - |s.buffer|, since, x)
  {
    OutputsSinceIsLogFilter(s, log, since);
    a := NewerAt(log, |log| - |s.buffer|, |log|, since);
    NewerAtSorted(log, |log| - |s.buffer|, |log|, since);
    forall x | x in a ensures Asked(log, |log| - |s.buffer|, since, x) {
      NewerAtHas(log, |log| - |s.buffer|, |log|, since, x);
      SequenceBounded(s, log, x);
    }
  }

  lemma AskedWithinReplay(s: Server, conn: Conn, last: Cursors, a: seq<nat>)
    requires SnapshotInv(conn, s.log, s.at) && Remembers(s, conn) && conn.phase.Serving? && conn.known == |s.log| && Increasing(a)
    requires last.stdout >= Base(conn, Stdout) && last.stderr >= Base(conn, Stderr)
    requires forall x :: x in a ==> Asked(s.log, |s.log| - |s.session.buffer|, last.Request(), x)
    ensures |a| <= |conn.replay|
  {
    forall x | x in a ensures x in conn.replay {
      AskedIsReplayed(s, conn, last, x);
    }
    ReplayIncreases(s, conn);
    NoLonger(a, conn.replay);
  }

  lemma ReplayIncreases(s: Server, conn: Conn)
    requires SnapshotInv(conn, s.log, s.at)
    ensures Increasing(conn.replay)
  {
  }

  /** The cursor has reached the newest frame, which is still in flight. */
  predicate ReachedInFlight(s: Server, last: Cursors) {
    |s.at| < |s.log| && last.Reached(s.log[|s.log| - 1])
  }

  lemma ReadAfterNewest(s: Server, conn: Conn, last: Cursors)
    requires LogInv(s) && ConnInv(s, conn) && StraddleInv(s, conn) && conn.phase.Serving?
    requires CursorsFrom(s, conn, last) && Bounded(s.session, last) && ReachedInFlight(s, last)
    ensures conn.known == |s.log| && last.stdout >= Base(conn, Stdout) && last.stderr >= Base(conn, Stderr)
  {
    ReachedBeforeRead(s, conn, last, |s.log| - 1);
    CursorNotBelowBase(s, conn, Stdout, last.stdout);
    CursorNotBelowBase(s, conn, Stderr, last.stderr);
  }

  lemma ConnFits(s: Server, conn: Conn, last: Cursors)
    requires LogInv(s) && ConnInv(s, conn) && StraddleInv(s, conn) && Remembers(s, conn) && conn.phase.Serving?
    requires CursorsFrom(s, conn, last) && Bounded(s.session, last) && ReachedInFlight(s, last)
    ensures |s.session.OutputsSince(last.Request())| <= |conn.replay|
  {
    ReadAfterNewest(s, conn, last);
    var a := AnswerAt(s.session, s.log, last.Request());
    AskedWithinReplay(s, conn, last, a);
  }

  /** What is known of the connection of a running session. */
  ghost predicate Sessional(w: World) {
    && ActiveInv(w) && LogInv(w.server)
    && var conn := w.server.conns[w.client.conn];
    ConnInv(w.server, conn) && StraddleInv(w.server, conn) && Remembers(w.server, conn) && Bounded(w.server.session, w.client.last)
  }

  lemma ActiveIsSessional(w: World)
    requires Inv(w.server) && ClientInv(w) && SideInv(w) && w.client.stage.Active?
    ensures Sessional(w)
  {
    var conn := w.server.conns[w.client.conn];
    assert ConnInv(w.server, conn) && Remembers(w.server, conn);
  }

  lemma CursorCarrier(s: Server, conn: Conn, last: Cursors, i: nat) returns (k: nat)
    requires LogInv(s) && CursorsFrom(s, conn, last) && i < |s.log| && last.Reached(s.log[i]) && conn.since.Before(s.log[i])
    ensures k < conn.taken <= |conn.out| && FrameOf(s, conn, conn.out[k]).Some? && i <= FrameOf(s, conn, conn.out[k]).value
  {
    var stream := s.log[i].stream;
    SequenceBounded(s.session, s.log, i);
    k :| Carries(s, conn, k, stream, last.Of(stream));
    SequenceOrder(s.log, i, FrameOf(s, conn, conn.out[k]).value);
  }

  /** A session whose cursor has reached anything has been served. */
  lemma ReachedIsServing(w: World, i: nat)
    requires Sessional(w) && i < |w.server.log| && w.client.last.Reached(w.server.log[i])
    ensures ReplayOver(w.server.conns[w.client.conn])
  {
    var conn := w.server.conns[w.client.conn];
    if conn.opener {
      var k := CursorCarrier(w.server, conn, w.client.last, i);
    }
  }

  /** The replay is over once the acknowledgement is taken; an opener has none. */
  predicate ReplayOver(conn: Conn) {
    conn.phase.Serving? && (conn.opener || conn.ackAt < conn.taken)
  }

  lemma ActiveFits(w: World)
    requires Sessional(w) && ReachedInFlight(w.server, w.client.last) && ReplayOver(w.server.conns[w.client.conn])
    ensures AnswerFits(w)
  {
    ConnFits(w.server, w.server.conns[w.client.conn], w.client.last);
  }

  /** While no session is up: if the cursor has reached a frame in flight, the answer to the saved cursor fits. */
  predicate FitInv(w: World) {
    !w.client.stage.Active? && ReachedInFlight(w.server, w.client.last) ==> AnswerFits(w)
  }

  lemma FitEnvironment(w: World, a: Action)
    requires LogInv(w.server) && Bounded(w.server.session, w.client.last) && FitInv(w) && Can(w.server, a)
    ensures FitInv(w.(server := Do(w.server, a)))
  {
    if !a.Record? && !a.Broadcast? {
      LogFrame(w.server, a);
    }
  }

  /** Only the cursor matters. */
  lemma FitClient(w: World, c: Client)
    requires FitInv(w) && (!c.stage.Active? ==> !w.client.stage.Active? && c.last == w.client.last)
    ensures FitInv(w.(client := c))
  {
  }

  lemma ReceiveKeepsLast(w: World)
    requires !w.client.stage.Idle? && Can(w.server, At(w.client.conn, Take))
    ensures var c := if w.client.stage.Active? then SessionReceives(w) else ResumeReceives(w);
            !c.stage.Active? ==> !w.client.stage.Active? && c.last == w.client.last
  {
  }

  lemma FitStep(w: World, step: Step)
    requires Inv(w.server) && ClientInv(w) && SideInv(w) && FitInv(w) && Enabled(w, step)
    ensures FitInv(Next(w, step))
  {
    match step
    case Environment(a) => FitEnvironment(w, a);
    case Begin(n) =>
      var a := Subscribe(n, w.client.token, w.client.last.Request());
      FitEnvironment(w, a);
      FitClient(w.(server := Do(w.server, a)), Next(w, step).client);
    case Receive =>
      if !(w.client.stage.Active? && w.client.pending != []) {
        FitEnvironment(w, At(w.client.conn, Take));
        ReceiveKeepsLast(w);
        FitClient(w.(server := Do(w.server, At(w.client.conn, Take))), Next(w, Receive).client);
      }
    case GiveUp => FitClient(w, Next(w, step).client);
    case Disconnect =>
      if ReachedInFlight(w.server, w.client.last) {
        ActiveIsSessional(w);
        ReachedIsServing(w, |w.server.log| - 1);
        ActiveFits(w);
      }
      LeavingFits(w);
  }

  lemma LeavingFits(w: World)
    requires w.client.stage.Active? && (ReachedInFlight(w.server, w.client.last) ==> AnswerFits(w))
    ensures FitInv(Next(w, Disconnect))
  {
  }

  lemma {:induction false} RunFits(w: World, steps: seq<Step>)
    requires Inv(w.server) && ClientInv(w) && SideInv(w) && FitInv(w) && Run(w, steps).Some?
    ensures FitInv(Run(w, steps).value)
    decreases |steps|
  {
    if steps != [] {
      var n := |steps| - 1;
      RunFits(w, steps[..n]);
      RunKeeps(w, steps[..n]);
      RunSide(w, steps[..n]);
      FitStep(Run(w, steps[..n]).value, steps[n]);
    }
  }

  lemma ReachableFits(w: World)
    requires ResumeClient.Reachable(w)
    ensures FitInv(w)
  {
    var capacity, token, now, steps :| Run(Start(capacity, token, now), steps) == Some(w);
    StartSide(capacity, token, now);
    RunFits(Start(capacity, token, now), steps);
  }

  lemma InFlightFits(w: World, i: nat)
    requires LogInv(w.server) && LoopInv(w.server) && FitInv(w) && w.client.stage.Idle?
    requires |w.server.at| <= i < |w.server.log| && w.client.last.Reached(w.server.log[i])
    ensures w.server.live && AnswerFits(w)
  {
  }

  lemma ReachedFits(w: World, i: nat)
    requires ResumeClient.Reachable(w) && w.client.stage.Idle? && i < |w.server.log| && w.client.last.Reached(w.server.log[i])
    ensures i >= |w.server.at| ==> w.server.live && AnswerFits(w)
  {
    ReachableSide(w);
    ReachableFits(w);
    if i >= |w.server.at| {
      InFlightFits(w, i);
    }
  }

  /**
   For a client with a saved resume state, a frame that its cursor has reached and that it has not
   got can still arrive if and only if the frame has not been broadcast and the client's token is the
   current one. While it has not been broadcast, the session is there and the answer fits.
   */
  lemma HiddenCanStillArriveIff(w: World, i: nat)
    requires ResumeClient.Reachable(w) && w.client.stage.Idle? && i < |w.server.log| && i !in w.client.handed
    requires w.client.last.Reached(w.server.log[i])
    ensures !NeverArrives(w, i) <==> i >= |w.server.at| && w.client.token == w.server.session.resumeToken
    ensures i >= |w.server.at| ==> w.server.live && AnswerFits(w)
  {
    ReachedFits(w, i);
    CanStillArriveIff(w, i);
  }

  // ---------------------------------------------------------------------------
  // When the cursor goes down
  // ---------------------------------------------------------------------------

  /** The cursor that the next message assigns. */
  function Position(w: World): Cursors {
    if w.client.stage.Resuming? then w.client.seen else w.client.last
  }

  /** Message k is the live copy of a frame that was recorded before the buffer was read and broadcast after the subscription. */
  ghost predicate LiveCopy(s: Server, conn: Conn, k: nat) {
    k < |conn.out| && conn.out[k].Live? && FrameOf(s, conn, conn.out[k]).Some? && Doubled(s, conn, FrameOf(s, conn, conn.out[k]).value)
  }

  /** Message k is replayed behind a live one, before the acknowledgement. */
  ghost predicate Overtaken(conn: Conn, k: nat) {
    k < |conn.out| && k < conn.ackAt && conn.out[k].Replayed? && exists l :: 0 <= l < k && conn.out[l].Live?
  }

  lemma LoweringMessage(s: Server, conn: Conn, c: Cursors, j: nat)
    requires LogInv(s) && ConnInv(s, conn) && StraddleInv(s, conn) && CursorsFrom(s, conn, c) && conn.phase.Serving?
    requires CarriesFrame(s, conn, conn.taken, j) && j < |s.log| && s.log[j].sequence < c.Of(s.log[j].stream)
    ensures LiveCopy(s, conn, conn.taken) || Overtaken(conn, conn.taken)
  {
    var stream := s.log[j].stream;
    CarriedNotBelowBase(s, conn, conn.taken);
    var k: nat :| Carries(s, conn, k, stream, c.Of(stream));
    var i := FrameOf(s, conn, conn.out[k]).value;
    SequenceOrder(s.log, i, j);
    CrossedMessages(s, conn, k, conn.taken, i, j);
  }

  /**
   A message lowers the client's cursor only if it is the live copy of a frame that was recorded before
   the buffer was read and broadcast after the subscription, or, before the acknowledgement, a replayed
   frame that a live one overtook. In a running session only the first is left.
   */
  lemma CursorGoesDownOnlyIf(w: World, stream: OutputStream)
    requires ResumeClient.Reachable(w) && !w.client.stage.Idle? && Can(w.server, At(w.client.conn, Take))
    requires w.client.stage.Active? ==> w.client.pending == []
    requires Next(w, Receive).client.stage == w.client.stage && Position(Next(w, Receive)).Of(stream) < Position(w).Of(stream)
    ensures var conn := w.server.conns[w.client.conn];
            LiveCopy(w.server, conn, conn.taken) || (w.client.stage.Resuming? && Overtaken(conn, conn.taken))
  {
    ReachableSide(w);
    LoweredByFrame(w, stream);
    LoweredHow(w, NextFrameIndex(w).value);
  }

  lemma LoweredByFrame(w: World, stream: OutputStream)
    requires !w.client.stage.Idle? && Can(w.server, At(w.client.conn, Take)) && (w.client.stage.Active? ==> w.client.pending == [])
    requires Next(w, Receive).client.stage == w.client.stage && Position(Next(w, Receive)).Of(stream) < Position(w).Of(stream)
    ensures NextFrameIndex(w).Some?
    ensures var f := w.server.log[NextFrameIndex(w).value]; f.sequence < Position(w).Of(f.stream)
  {
  }

  lemma LoweredHow(w: World, j: nat)
    requires Inv(w.server) && ClientInv(w) && MineStraddles(w) && !w.client.stage.Idle? && Can(w.server, At(w.client.conn, Take))
    requires NextFrameIndex(w) == Some(j) && w.server.log[j].sequence < Position(w).Of(w.server.log[j].stream)
    ensures var conn := w.server.conns[w.client.conn];
            LiveCopy(w.server, conn, conn.taken) || (w.client.stage.Resuming? && Overtaken(conn, conn.taken))
  {
    var conn := w.server.conns[w.client.conn];
    assert ConnInv(w.server, conn);
    PositionFrom(w);
    LoweringMessage(w.server, conn, Position(w), j);
    if w.client.stage.Active? {
      ReplayBehindAck(w);
    }
  }

  lemma PositionFrom(w: World)
    requires ClientInv(w) && !w.client.stage.Idle?
    ensures w.client.conn in w.server.conns && CursorsFrom(w.server, w.server.conns[w.client.conn], Position(w))
  {
  }

  /** A session has taken the acknowledgement. */
  lemma ReplayBehindAck(w: World)
    requires ClientInv(w) && w.client.stage.Active? && PhaseInv(w.server.conns[w.client.conn])
    ensures var conn := w.server.conns[w.client.conn]; !Overtaken(conn, conn.taken)
  {
  }
}
