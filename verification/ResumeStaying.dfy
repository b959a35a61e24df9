/**
 What a running session still brings, for every frame: one that is pending or on its way arrives if
 the client stays; any other, apart from frames lost to lag, can only come back after leaving.
 */
module ResumeStaying {
  import opened Basics
  import opened Sessions
  import opened ResumeServer
  import opened ResumeDelivery
  import opened ResumeClient
  import opened ResumeHistory
  import opened ResumeLoss
  import opened ResumeFlow
  import opened ResumeRecovery
  import opened ResumeHidden

  // ---------------------------------------------------------------------------
  // What a session can still bring
  // ---------------------------------------------------------------------------

  /** Nothing is ever taken from the client's connection again. */
  predicate Broken(conn: Conn) {
    conn.gone || conn.phase.Failed?
  }

  /** Frame i was broadcast, and the connection has no copy of it that the client can still take. */
  ghost predicate Absent(s: Server, conn: Conn, i: nat) {
    i < |s.at| && !Queued(s, conn, i) && !Receivable(s, conn, i)
  }

  /** The opener has subscribed but not attached yet, and once attached it gets frame i. */
  predicate Opening(w: World, i: nat) {
    && w.client.stage.Active? && w.server.live && i < |w.server.log| && w.client.conn in w.server.conns
    && var conn := w.server.conns[w.client.conn];
    && conn.opener && conn.phase.Subscribed? && !conn.gone
    && (Receivable(w.server, conn, i) || i >= |w.server.at|)
  }

  ghost predicate Coming(w: World, i: nat) {
    Due(w, i) || Opening(w, i)
  }

  /** The frame comes back after leaving: the resume works, and the frame is still to be broadcast or in the answer. */
  predicate ComesBack(w: World, i: nat) {
    && w.server.live && w.client.token == w.server.session.resumeToken && AnswerFits(w)
    && i < |w.server.log|
    && (i >= |w.server.at| || (!Forgotten(w.server, i) && !w.client.last.Reached(w.server.log[i])))
  }

  /** The receiver has lost nothing to lag, and will lose nothing of what has been broadcast so far if it is read now. */
  predicate KeepsUp(s: Server, conn: Conn) {
    conn.skipped == {} && |s.sent| <= conn.next + EVENT_CAPACITY
  }

  /** How many frames of its stream there are from frame i on. */
  function FromOn(s: Server, i: nat): int
    requires i < |s.log|
  {
    (if s.log[i].stream.Stdout? then s.session.stdoutNext else s.session.stderrNext) - s.log[i].sequence
  }

  /** Every answer with frame i in it is too long, wherever the cursors are. */
  predicate Crowded(s: Server, i: nat) {
    i < |s.log| && i < |s.at| && FromOn(s, i) >= RESPONSE_CAPACITY
  }

  /**
   Frame i was lost to lag on this connection. A resume would replay it, but with the present cursors
   the answer does not fit. With others it might: there are fewer than 128 frames of its stream from it on.
   */
  ghost predicate LagHides(w: World, i: nat) {
    && w.client.conn in w.server.conns && !Broken(w.server.conns[w.client.conn]) && !KeepsUp(w.server, w.server.conns[w.client.conn])
    && w.server.live && w.client.token == w.server.session.resumeToken && !AnswerFits(w)
    && i < |w.server.at| && i < |w.server.log| && !Forgotten(w.server, i) && !w.client.last.Reached(w.server.log[i])
    && !Crowded(w.server, i) && i !in w.client.pending && !Coming(w, i)
  }

  // ---------------------------------------------------------------------------
  // A reached frame that the session no longer brings is lost
  // ---------------------------------------------------------------------------

  /** Everything the client can still receive live was broadcast after frame i. */
  ghost predicate Past(s: Server, conn: Conn, i: nat)
    requires i < |s.at|
  {
    && (forall k :: conn.taken <= k < |conn.out| && conn.out[k].Live? ==> conn.out[k].at > s.at[i])
    && (conn.hand.Some? ==> conn.hand.value > s.at[i])
    && (conn.next > s.at[i] || s.at[i] + EVENT_CAPACITY < |s.sent|)
  }

  lemma LaterPosition(s: Server, i: nat, p: nat)
    requires LogInv(s) && i < |s.at| && s.at[i] < p < |s.sent| && s.sent[p].Output?
    ensures i < |s.log| && Later(s.log, i, s.sent[p].frame)
  {
    var j := s.sent[p].frame;
    if s.log[j].stream == s.log[i].stream {
      SequenceOrder(s.log, j, i);
    }
  }

  lemma PastBypasses(s: Server, conn: Conn, i: nat)
    requires LogInv(s) && ConnInv(s, conn) && ReplayOver(conn) && i < |s.at| && i < |s.log| && Past(s, conn, i)
    ensures ConnBypasses(s, conn, i)
  {
    forall k | conn.taken <= k < |conn.out| && FrameOf(s, conn, conn.out[k]).Some?
      ensures Bypasses(s, i, FrameOf(s, conn, conn.out[k]).value)
    {
      LaterPosition(s, i, conn.out[k].at);
    }
    forall p | 0 <= p < |s.sent| && s.sent[p].Output? && (conn.hand == Some(p) || (conn.next <= p && p + EVENT_CAPACITY >= |s.sent|))
      ensures Bypasses(s, i, s.sent[p].frame)
    {
      LaterPosition(s, i, p);
    }
  }

  /** A frame the buffer has forgotten only has to be absent. */
  lemma AbsentBypasses(s: Server, conn: Conn, i: nat)
    requires LogInv(s) && ConnInv(s, conn) && (ReplayOver(conn) || conn.phase.Subscribed?) && i < |s.log| && Forgotten(s, i)
    requires Absent(s, conn, i)
    ensures ConnBypasses(s, conn, i)
  {
    assert forall p :: 0 <= p < |s.sent| && s.sent[p].Output? ==> s.at[s.sent[p].frame] == p;
  }

  lemma PastWhenBelowBase(s: Server, conn: Conn, i: nat)
    requires LogInv(s) && ConnInv(s, conn) && StraddleInv(s, conn) && i < |s.at| && i < |s.log|
    requires !conn.since.Before(s.log[i]) && Absent(s, conn, i)
    ensures Past(s, conn, i)
  {
    assert s.at[i] < conn.start || Straddles(s, conn, i);
    forall k | conn.taken <= k < |conn.out| && conn.out[k].Live? ensures conn.out[k].at > s.at[i] {
      LiveCopyQueued(s, conn, i, k);
    }
  }

  lemma LiveCopyQueued(s: Server, conn: Conn, i: nat, k: nat)
    requires BroadcastInOrder(s.sent, s.at) && i < |s.at| && conn.taken <= k < |conn.out|
    ensures conn.out[k] == Live(s.at[i]) ==> Queued(s, conn, i)
  {
    if conn.out[k] == Live(s.at[i]) {
      assert FrameOf(s, conn, conn.out[k]) == Some(i);
    }
  }

  /** A frame the cursor has passed without getting it was overtaken live, by a message that came after it. */
  lemma OvertakenBy(s: Server, conn: Conn, last: Cursors, got: set<nat>, i: nat) returns (k: nat)
    requires LogInv(s) && ConnInv(s, conn) && ReplayOver(conn) && CursorsFrom(s, conn, last) && TakenAreIn(s, conn, got)
    requires conn.evicted <= i < |s.log| && i < |s.at| && i !in got && last.Reached(s.log[i]) && conn.since.Before(s.log[i])
    ensures k < conn.taken <= |conn.out| && conn.out[k].Live? && conn.out[k].at > s.at[i]
  {
    k := CursorCarrier(s, conn, last, i);
    var j := FrameOf(s, conn, conn.out[k]).value;
    NotReplayed(s, conn, got, i);
    CarriedBy(s, conn, k);
    assert j in got && i < j;
  }

  lemma NotReplayed(s: Server, conn: Conn, got: set<nat>, i: nat)
    requires ConnInv(s, conn) && ReplayOver(conn) && TakenAreIn(s, conn, got) && conn.evicted <= i < |s.log|
    requires i !in got && conn.since.Before(s.log[i])
    ensures i >= conn.known
  {
    if i in conn.replay {
      TakenReplay(s, conn, i, got);
    }
  }

  lemma PastWhenOvertaken(s: Server, conn: Conn, i: nat, k: nat)
    requires LiveInv(conn, |s.sent|) && i < |s.at| && k < conn.taken <= |conn.out| && conn.out[k].Live? && conn.out[k].at > s.at[i]
    ensures Past(s, conn, i)
  {
  }

  lemma ReachedBypasses(s: Server, conn: Conn, last: Cursors, got: set<nat>, i: nat)
    requires LogInv(s) && ConnInv(s, conn) && StraddleInv(s, conn) && Remembers(s, conn) && ReplayOver(conn)
    requires CursorsFrom(s, conn, last) && TakenAreIn(s, conn, got) && i < |s.log| && i < |s.at| && i !in got && last.Reached(s.log[i])
    requires Absent(s, conn, i)
    ensures ConnBypasses(s, conn, i)
  {
    if Forgotten(s, i) {
      AbsentBypasses(s, conn, i);
    } else {
      if !conn.since.Before(s.log[i]) {
        PastWhenBelowBase(s, conn, i);
      } else {
        var k := OvertakenBy(s, conn, last, got, i);
        PastWhenOvertaken(s, conn, i, k);
      }
      PastBypasses(s, conn, i);
    }
  }

  /** In a running session, a frame that was broadcast, is reached or forgotten, and is neither pending nor on its way is gone. */
  lemma NotComingIsGone(w: World, i: nat)
    requires Sessional(w) && w.client.stage.Active? && i < |w.server.log| && i < |w.server.at| && i !in w.client.handed
    requires Hidden(w.server, w.client.last, i) && i !in w.client.pending && !Coming(w, i) && w.server.live
    requires !Broken(w.server.conns[w.client.conn])
    ensures Gone(w, i)
  {
    var conn := w.server.conns[w.client.conn];
    AbsentUnlessComing(w, i);
    if Forgotten(w.server, i) {
      AbsentBypasses(w.server, conn, i);
    } else {
      ReachedIsServing(w, i);
      ReachedBypasses(w.server, conn, w.client.last, w.client.handed + Pending(w.client), i);
    }
  }

  /** A connection in use serves, or is the opener's before its attach. */
  lemma UsedPhases(w: World)
    requires Sessional(w) && !Broken(w.server.conns[w.client.conn])
    ensures var conn := w.server.conns[w.client.conn];
            ReplayOver(conn) || (conn.opener && conn.phase.Subscribed?)
    ensures var conn := w.server.conns[w.client.conn]; conn.phase.Serving? ==> conn.forwarding
  {
  }

  lemma AbsentUnlessComing(w: World, i: nat)
    requires Sessional(w) && w.client.stage.Active? && i < |w.server.log| && !Coming(w, i)
    requires !Broken(w.server.conns[w.client.conn])
    ensures var conn := w.server.conns[w.client.conn];
            && (conn.phase.Serving? || w.server.live ==> Absent(w.server, conn, i))
            && (ReplayOver(conn) || (conn.opener && conn.phase.Subscribed?))
  {
    UsedPhases(w);
    var conn := w.server.conns[w.client.conn];
    if conn.phase.Subscribed? {
      assert conn.out == [];
    }
  }

  // ---------------------------------------------------------------------------
  // Without lag every frame a resume would bring is coming anyway
  // ---------------------------------------------------------------------------

  lemma LiveIsComing(s: Server, conn: Conn, got: set<nat>, i: nat)
    requires LogInv(s) && ConnInv(s, conn) && TakenAreIn(s, conn, got) && KeepsUp(s, conn)
    requires i < |s.at| && s.at[i] >= conn.start
    ensures i in got || Queued(s, conn, i) || Receivable(s, conn, i)
  {
    var p := s.at[i];
    if Live(p) in conn.out {
      var k :| 0 <= k < |conn.out| && conn.out[k] == Live(p);
      assert FrameOf(s, conn, conn.out[k]) == Some(i);
    }
  }

  lemma AfterCursorIsComing(s: Server, conn: Conn, last: Cursors, got: set<nat>, i: nat)
    requires LogInv(s) && ConnInv(s, conn) && StraddleInv(s, conn) && Remembers(s, conn) && ReplayOver(conn) && KeepsUp(s, conn)
    requires CursorsFrom(s, conn, last) && TakenAreIn(s, conn, got)
    requires i < |s.at| && i < |s.log| && !Forgotten(s, i) && !last.Reached(s.log[i])
    ensures i in got || Queued(s, conn, i) || Receivable(s, conn, i)
  {
    CursorNotBelowBase(s, conn, Stdout, last.stdout);
    CursorNotBelowBase(s, conn, Stderr, last.stderr);
    SequenceBounded(s.session, s.log, i);
    assert conn.since.Before(s.log[i]);
    if i < conn.known {
      TakenReplay(s, conn, i, got);
    } else {
      LiveIsComing(s, conn, got, i);
    }
  }

  lemma KeepingUpBrings(w: World, i: nat)
    requires Sessional(w) && w.client.stage.Active? && w.server.live && i < |w.server.log| && i !in w.client.handed
    requires var conn := w.server.conns[w.client.conn]; !Broken(conn) && KeepsUp(w.server, conn)
    requires i >= |w.server.at| || !Hidden(w.server, w.client.last, i)
    ensures i in w.client.pending || Coming(w, i)
  {
    UsedPhases(w);
    var conn := w.server.conns[w.client.conn];
    if i < |w.server.at| && ReplayOver(conn) {
      AfterCursorIsComing(w.server, conn, w.client.last, w.client.handed + Pending(w.client), i);
    }
  }

  // ---------------------------------------------------------------------------
  // A connection that does not bring the frame never will
  // ---------------------------------------------------------------------------

  /** The client takes nothing more, or no copy of frame i, or the session it would attach to is removed. */
  ghost predicate NotComing(s: Server, conn: Conn, i: nat) {
    || Broken(conn)
    || ((conn.phase.Serving? || conn.phase.Subscribed?) && Absent(s, conn, i))
    || (conn.phase.Subscribed? && !s.live)
  }

  lemma AbsentGrowth(s: Server, a: Action, conn: Conn, i: nat)
    requires LogInv(s) && LiveInv(conn, |s.sent|) && Can(s, a) && (a.Record? || a.Broadcast?) && Absent(s, conn, i)
    ensures Absent(Do(s, a), conn, i)
  {
    var t := Do(s, a);
    FrameStaysPut(s, a, i);
    forall k | conn.taken <= k < |conn.out| ensures FrameOf(t, conn, conn.out[k]) != Some(i) {
      assert FrameOf(t, conn, conn.out[k]) == FrameOf(s, conn, conn.out[k]);
    }
  }

  lemma AbsentPull(s: Server, conn: Conn, i: nat)
    requires conn.next < |s.sent| && Absent(s, conn, i)
    ensures Absent(s, AfterPull(conn, |s.sent|), i)
  {
    var c := AfterPull(conn, |s.sent|);
    assert c.out == conn.out && c.taken == conn.taken && c.replay == conn.replay;
    forall k | c.taken <= k < |c.out| ensures FrameOf(s, c, c.out[k]) != Some(i) {
      assert FrameOf(s, c, c.out[k]) == FrameOf(s, conn, conn.out[k]);
    }
    assert !Receivable(s, c, i);
  }

  lemma AbsentPush(s: Server, conn: Conn, i: nat)
    requires BroadcastInOrder(s.sent, s.at) && conn.hand.Some? && !conn.gone && Absent(s, conn, i)
    ensures Absent(s, AfterPush(conn), i)
  {
    var c := AfterPush(conn);
    forall k | c.taken <= k < |c.out| ensures FrameOf(s, c, c.out[k]) != Some(i) {
      if k < |conn.out| {
        assert FrameOf(s, c, c.out[k]) == FrameOf(s, conn, conn.out[k]);
      }
    }
  }

  lemma AbsentTake(s: Server, conn: Conn, i: nat)
    requires Absent(s, conn, i)
    ensures Absent(s, conn.(taken := conn.taken + 1), i)
  {
    var c := conn.(taken := conn.taken + 1);
    forall k | c.taken <= k < |c.out| ensures FrameOf(s, c, c.out[k]) != Some(i) {
      assert FrameOf(s, c, c.out[k]) == FrameOf(s, conn, conn.out[k]);
    }
  }

  lemma NotComingLocal(s: Server, conn: Conn, step: Local, i: nat)
    requires LogInv(s) && CanLocal(|s.sent|, conn, step) && PhaseInv(conn) && NotComing(s, conn, i)
    ensures NotComing(s, LocalStep(s, conn, step), i)
  {
    if Broken(conn) {
      BrokenLocal(s, conn, step);
    } else {
      match step
      case Pull => AbsentPull(s, conn, i);
      case Push => AbsentPush(s, conn, i);
      case Take => AbsentTake(s, conn, i);
      case _ =>
    }
  }

  lemma BrokenLocal(s: Server, conn: Conn, step: Local)
    requires CanLocal(|s.sent|, conn, step) && Broken(conn)
    ensures Broken(LocalStep(s, conn, step))
  {
    if conn.gone {
      GoneStays(s, conn, step);
    } else {
      WaitingStays(s, conn, step);
    }
  }

  lemma SameLoadAbsent(s: Server, conn: Conn, conn': Conn, i: nat)
    requires SameLoad(conn, conn') && Absent(s, conn, i)
    ensures Absent(s, conn', i)
  {
    forall k | conn'.taken <= k < |conn'.out| ensures FrameOf(s, conn', conn'.out[k]) != Some(i) {
      assert FrameOf(s, conn', conn'.out[k]) == FrameOf(s, conn, conn.out[k]);
    }
  }

  /** An attach needs the session, and a connection past its attach keeps its phase. */
  lemma OthersKeepPhase(s: Server, a: Action, c: nat)
    requires Can(s, a) && c in s.conns && !(a.At? && a.c == c) && (s.conns[c].opener || !s.conns[c].phase.Subscribed?)
    ensures c in Do(s, a).conns
    ensures var conn, conn' := s.conns[c], Do(s, a).conns[c];
            && (!conn.phase.Subscribed? ==> conn'.phase == conn.phase)
            && (conn.phase.Subscribed? ==> conn'.phase.Subscribed? || conn'.phase.Failed? || (s.live && conn'.phase.Serving?))
  {
    ConnFrame(s, a, c);
  }

  lemma NotComingOthers(s: Server, a: Action, c: nat, i: nat)
    requires Can(s, a) && !(a.At? && a.c == c) && !a.Record? && !a.Broadcast?
    requires c in s.conns && (s.conns[c].opener || !s.conns[c].phase.Subscribed?) && NotComing(s, s.conns[c], i)
    ensures c in Do(s, a).conns && NotComing(Do(s, a), Do(s, a).conns[c], i)
  {
    LogFrame(s, a);
    RemovedStays(s, a);
    OthersKeepPhase(s, a, c);
    OthersKeepLoad(s, a, c);
    if !Broken(s.conns[c]) && Absent(s, s.conns[c], i) {
      SameLoadAbsent(s, s.conns[c], Do(s, a).conns[c], i);
      SameBroadcastAbsent(s, Do(s, a), Do(s, a).conns[c], i);
    }
  }

  lemma SameBroadcastAbsent(s: Server, t: Server, conn: Conn, i: nat)
    requires t.sent == s.sent && t.at == s.at && Absent(s, conn, i)
    ensures Absent(t, conn, i)
  {
    forall k | conn.taken <= k < |conn.out| ensures FrameOf(t, conn, conn.out[k]) != Some(i) {
      assert FrameOf(t, conn, conn.out[k]) == FrameOf(s, conn, conn.out[k]);
    }
  }

  lemma RemovedStays(s: Server, a: Action)
    requires Can(s, a)
    ensures !s.live ==> !Do(s, a).live
  {
  }

  lemma NotComingStep(s: Server, a: Action, c: nat, i: nat)
    requires LogInv(s) && Can(s, a) && c in s.conns && ConnInv(s, s.conns[c])
    requires (s.conns[c].opener || !s.conns[c].phase.Subscribed?) && NotComing(s, s.conns[c], i)
    ensures c in Do(s, a).conns && NotComing(Do(s, a), Do(s, a).conns[c], i)
  {
    if a.Record? || a.Broadcast? {
      if Absent(s, s.conns[c], i) {
        AbsentGrowth(s, a, s.conns[c], i);
      }
    } else if a.At? && a.c == c {
      NotComingLocal(s, s.conns[c], a.step, i);
      NotComingAt(s, c, a.step, i);
    } else {
      NotComingOthers(s, a, c, i);
    }
  }

  lemma NotComingAt(s: Server, c: nat, step: Local, i: nat)
    requires Can(s, At(c, step)) && NotComing(s, LocalStep(s, s.conns[c], step), i)
    ensures NotComing(Do(s, At(c, step)), LocalStep(s, s.conns[c], step), i)
  {
    var t, conn := Do(s, At(c, step)), LocalStep(s, s.conns[c], step);
    if Absent(s, conn, i) {
      SameBroadcastAbsent(s, t, conn, i);
    }
  }

  // ---------------------------------------------------------------------------
  // A session that does not bring the frame, and whose client cannot get it back
  // ---------------------------------------------------------------------------

  /** What keeps frame i from coming back, and stays so while the cursor stands. */
  ghost predicate Blocked(w: World, i: nat) {
    || !w.server.live || w.client.token in w.server.used || !AnswerFits(w)
    || (i < |w.server.at| && i < |w.server.log| && Hidden(w.server, w.client.last, i))
  }

  /** What does so wherever the cursor moves. */
  predicate Locked(w: World, i: nat) {
    !w.server.live || w.client.token in w.server.used || Crowded(w.server, i)
  }

  ghost predicate Barred(w: World, i: nat) {
    && w.client.stage.Active? && i < |w.server.log| && i !in w.client.handed && i !in w.client.pending
    && w.client.conn in w.server.conns
    && var conn := w.server.conns[w.client.conn];
    (Broken(conn) && Blocked(w, i)) || (NotComing(w.server, conn, i) && Locked(w, i))
  }

  lemma BlockedStays(w: World, a: Action, i: nat)
    requires Can(w.server, a) && Bounded(w.server.session, w.client.last) && i < |w.server.log| && Blocked(w, i)
    ensures Blocked(w.(server := Do(w.server, a)), i)
  {
    RemovedStays(w.server, a);
    UsedGrows(w.server, a);
    FrameStaysPut(w.server, a, i);
    if !AnswerFits(w) {
      AnswerGrows(w, a);
    } else if Hidden(w.server, w.client.last, i) {
      HiddenStays(w.server, a, w.client.last, i);
    }
  }

  /** Every frame of frame i's stream from it on is after the cursor. */
  predicate StreamAfter(log: seq<Frame>, i: nat, since: Cursor) {
    i < |log| && forall j :: i <= j < |log| && log[j].stream == log[i].stream ==> since.Before(log[j])
  }

  /** The frames of a stream from position lo on and before hi. */
  function Between(log: seq<Frame>, lo: nat, hi: nat, stream: OutputStream): nat
    requires lo <= hi <= |log|
    decreases hi
  {
    if lo == hi then 0 else Between(log, lo, hi - 1, stream) + (if log[hi - 1].stream == stream then 1 else 0)
  }

  lemma {:induction false} BetweenIsCount(log: seq<Frame>, lo: nat, hi: nat, stream: OutputStream)
    requires lo <= hi <= |log|
    ensures Count(log[..hi], stream) == Count(log[..lo], stream) + Between(log, lo, hi, stream)
    decreases hi
  {
    if lo < hi {
      BetweenIsCount(log, lo, hi - 1, stream);
      assert log[..hi][..hi - 1] == log[..hi - 1];
    }
  }

  lemma {:induction false} ManyNewer(log: seq<Frame>, lo: nat, i: nat, hi: nat, since: Cursor)
    requires lo <= i <= hi <= |log| && StreamAfter(log, i, since)
    ensures |NewerAt(log, lo, hi, since)| >= Between(log, i, hi, log[i].stream)
    decreases hi
  {
    if hi > i {
      ManyNewer(log, lo, i, hi - 1, since);
    }
  }

  lemma StreamIsAfter(log: seq<Frame>, i: nat, since: Cursor)
    requires WellNumbered(log) && i < |log| && since.Before(log[i])
    ensures StreamAfter(log, i, since)
  {
    forall j | i <= j < |log| && log[j].stream == log[i].stream ensures since.Before(log[j]) {
      SequenceOrder(log, i, j);
    }
  }

  lemma FromOnCounts(s: Server, i: nat) returns (n: nat)
    requires Represents(s.session, s.log) && i < |s.log|
    ensures n == FromOn(s, i) == Between(s.log, i, |s.log|, s.log[i].stream)
  {
    n := Between(s.log, i, |s.log|, s.log[i].stream);
    BetweenIsCount(s.log, i, |s.log|, s.log[i].stream);
    assert s.log[..|s.log|] == s.log;
  }

  lemma AnswerPositions(s: Session, log: seq<Frame>, since: Cursor)
    requires Represents(s, log)
    ensures |s.buffer| <= |log| && |s.OutputsSince(since)| == |NewerAt(log, |log| - |s.buffer|, |log|, since)|
  {
    OutputsSinceIsLogFilter(s, log, since);
  }

  lemma NumbersFit(s: Server, since: Cursor, i: nat, n: nat)
    requires |s.session.buffer| <= |s.log| && |s.log| - |s.session.buffer| <= i < |s.log| && StreamAfter(s.log, i, since)
    requires |s.session.OutputsSince(since)| == |NewerAt(s.log, |s.log| - |s.session.buffer|, |s.log|, since)|
    requires n == Between(s.log, i, |s.log|, s.log[i].stream)
    ensures |s.session.OutputsSince(since)| >= n
  {
    ManyNewer(s.log, |s.log| - |s.session.buffer|, i, |s.log|, since);
  }

  /** An answer with frame i in it has all later frames of its stream in it too. */
  lemma AnswerIsLong(s: Server, since: Cursor, i: nat)
    requires Represents(s.session, s.log) && i < |s.log| && !Forgotten(s, i) && since.Before(s.log[i])
    ensures |s.session.OutputsSince(since)| >= FromOn(s, i)
  {
    AnswerPositions(s.session, s.log, since);
    StreamIsAfter(s.log, i, since);
    var n := FromOnCounts(s, i);
    NumbersFit(s, since, i, n);
  }

  lemma CrowdedBlocks(w: World, i: nat)
    requires Represents(w.server.session, w.server.log) && Crowded(w.server, i)
    ensures Blocked(w, i)
  {
    if !Hidden(w.server, w.client.last, i) {
      AnswerIsLong(w.server, w.client.last.Request(), i);
    }
  }

  lemma LockedStays(w: World, a: Action, i: nat)
    requires Can(w.server, a) && i < |w.server.log| && Locked(w, i)
    ensures Locked(w.(server := Do(w.server, a)), i)
  {
    RemovedStays(w.server, a);
    UsedGrows(w.server, a);
    FrameStaysPut(w.server, a, i);
    if !a.Record? && !a.Broadcast? {
      LogFrame(w.server, a);
    }
  }

  lemma BarredEnvironment(w: World, a: Action, i: nat)
    requires Inv(w.server) && ClientInv(w) && Barred(w, i) && Can(w.server, a)
    ensures Barred(w.(server := Do(w.server, a)), i)
  {
    var c := w.client.conn;
    assert ConnInv(w.server, w.server.conns[c]);
    FrameStaysPut(w.server, a, i);
    NotComingStep(w.server, a, c, i);
    if Broken(w.server.conns[c]) && Blocked(w, i) {
      BlockedStays(w, a, i);
      BrokenStays(w.server, a, c);
    } else {
      LockedStays(w, a, i);
    }
  }

  lemma BrokenStays(s: Server, a: Action, c: nat)
    requires Can(s, a) && c in s.conns && Broken(s.conns[c])
    ensures c in Do(s, a).conns && Broken(Do(s, a).conns[c])
  {
    if a.At? && a.c == c {
      BrokenLocal(s, s.conns[c], a.step);
    } else {
      ConnFrame(s, a, c);
    }
  }

  /** The next message of an unbroken connection is another frame, and no acknowledgement. */
  lemma NextIsOther(w: World, i: nat)
    requires ActiveInv(w) && w.client.stage.Active? && PhaseInv(w.server.conns[w.client.conn]) && Can(w.server, At(w.client.conn, Take))
    requires NotComing(w.server, w.server.conns[w.client.conn], i)
    ensures var c := SessionReceives(w);
            && c.stage.Active? && c.conn == w.client.conn && c.token == w.client.token && c.pending == w.client.pending
            && (i in c.handed ==> i in w.client.handed)
  {
    var conn := w.server.conns[w.client.conn];
    assert !Broken(conn);
    assert FrameOf(w.server, conn, conn.out[conn.taken]) != Some(i);
  }

  lemma TakeNext(w: World)
    requires w.client.stage.Active? && w.client.pending == [] && Enabled(w, Receive)
    ensures Can(w.server, At(w.client.conn, Take)) && !Broken(w.server.conns[w.client.conn])
    ensures Next(w, Receive) == w.(server := Do(w.server, At(w.client.conn, Take))).(client := SessionReceives(w))
    ensures var t := Do(w.server, At(w.client.conn, Take)); w.client.conn in t.conns && !Broken(t.conns[w.client.conn])
  {
  }

  lemma BarredTake(w: World, i: nat)
    requires Inv(w.server) && ClientInv(w) && Barred(w, i) && w.client.pending == [] && Enabled(w, Receive)
    ensures Barred(Next(w, Receive), i)
  {
    assert ConnInv(w.server, w.server.conns[w.client.conn]);
    TakeNext(w);
    NextIsOther(w, i);
    BarredEnvironment(w, At(w.client.conn, Take), i);
    BarredClient(w.(server := Do(w.server, At(w.client.conn, Take))), SessionReceives(w), i);
  }

  /** A cursor that moves does not unlock anything. */
  lemma BarredClient(w: World, c: Client, i: nat)
    requires Barred(w, i) && !Broken(w.server.conns[w.client.conn])
    requires c.stage.Active? && c.conn == w.client.conn && c.token == w.client.token && i !in c.handed && c.pending == w.client.pending
    ensures Barred(w.(client := c), i)
  {
  }

  lemma BarredReceive(w: World, i: nat)
    requires Inv(w.server) && ClientInv(w) && Barred(w, i) && Enabled(w, Receive)
    ensures Barred(Next(w, Receive), i)
  {
    if w.client.pending == [] {
      BarredTake(w, i);
    } else {
      BarredHandsOut(w, i);
    }
  }

  lemma BarredHandsOut(w: World, i: nat)
    requires Barred(w, i) && w.client.pending != []
    ensures Barred(Next(w, Receive), i)
  {
  }

  lemma BarredLeaves(w: World, i: nat)
    requires ResumeClient.Reachable(w) && Barred(w, i)
    ensures NeverArrives(Next(w, Disconnect), i)
  {
    ReachableSide(w);
    if Crowded(w.server, i) {
      CrowdedBlocks(w, i);
    }
    ReachableNext(w, Disconnect);
    BlockedNever(Next(w, Disconnect), i);
  }

  lemma BarredStep(w: World, step: Step, i: nat)
    requires ResumeClient.Reachable(w) && Barred(w, i) && Enabled(w, step)
    ensures Barred(Next(w, step), i) || NeverArrives(Next(w, step), i)
  {
    ReachableSide(w);
    match step
    case Environment(a) => BarredEnvironment(w, a, i);
    case Receive => BarredReceive(w, i);
    case Disconnect => BarredLeaves(w, i);
  }

  lemma BlockedNever(w: World, i: nat)
    requires ResumeClient.Reachable(w) && w.client.stage.Idle? && i < |w.server.log| && i !in w.client.handed && Blocked(w, i)
    ensures NeverArrives(w, i)
  {
    ReachableSide(w);
    CanStillArriveIff(w, i);
  }

  /** What never arrives does not arrive after a step. */
  lemma StillNever(w: World, step: Step, i: nat)
    requires Enabled(w, step) && NeverArrives(w, i)
    ensures NeverArrives(Next(w, step), i)
  {
    forall steps | Run(Next(w, step), steps).Some? ensures i !in Run(Next(w, step), steps).value.client.handed {
      RunPrepend(w, step, steps);
    }
  }

  lemma {:induction false} RunPrepend(w: World, step: Step, steps: seq<Step>)
    requires Enabled(w, step) && Run(Next(w, step), steps).Some?
    ensures Run(w, [step] + steps) == Run(Next(w, step), steps)
    decreases |steps|
  {
    if steps == [] {
      assert [step] + steps == [step] && [step][..0] == [];
      assert Run(w, [step][..0]) == Some(w);
    } else {
      var n := |steps| - 1;
      assert ([step] + steps)[..|[step] + steps| - 1] == [step] + steps[..n];
      RunPrepend(w, step, steps[..n]);
    }
  }

  lemma {:induction false} BarredForever(w: World, steps: seq<Step>, i: nat)
    requires ResumeClient.Reachable(w) && Barred(w, i) && Run(w, steps).Some?
    ensures var v := Run(w, steps).value; ResumeClient.Reachable(v) && (Barred(v, i) || NeverArrives(v, i))
    decreases |steps|
  {
    if steps != [] {
      var n := |steps| - 1;
      BarredForever(w, steps[..n], i);
      var v := Run(w, steps[..n]).value;
      ReachableNext(v, steps[n]);
      if Barred(v, i) {
        BarredStep(v, steps[n], i);
      } else {
        StillNever(v, steps[n], i);
      }
    }
  }

  lemma BarredNever(w: World, i: nat)
    requires ResumeClient.Reachable(w) && Barred(w, i)
    ensures NeverArrives(w, i)
  {
    forall steps | Run(w, steps).Some? ensures i !in Run(w, steps).value.client.handed {
      BarredForever(w, steps, i);
      assert Run(Run(w, steps).value, []).Some?;
    }
  }

  // ---------------------------------------------------------------------------
  // Staying
  // ---------------------------------------------------------------------------

  /** The opener that has not attached yet gets its frame: the slot is freed, it attaches, and the frame is due. */
  lemma OpeningArrives(w: World, i: nat) returns (steps: seq<Step>)
    requires Inv(w.server) && Opening(w, i) && i !in w.client.handed
    ensures Run(w, steps).Some? && i in Run(w, steps).value.client.handed
  {
    var v;
    assert Run(w, []) == Some(w);
    steps, v := SlotLeft(w, [], w, i);
    AttachExpects(v, i);
    InvStep(v.server, OpenAttach(v.client.conn, None, 0, 0));
    steps, v := Extend(w, steps, v, Environment(OpenAttach(v.client.conn, None, 0, 0)));
    steps, v := Arrives(w, steps, v, i);
  }

  lemma AttachExpects(w: World, i: nat)
    requires Opening(w, i) && i !in w.client.handed && w.server.session.attachment.None?
    ensures Enabled(w, Environment(OpenAttach(w.client.conn, None, 0, 0)))
    ensures Expected(Next(w, Environment(OpenAttach(w.client.conn, None, 0, 0))), i)
  {
    LogFrame(w.server, OpenAttach(w.client.conn, None, 0, 0));
  }

  lemma SlotLeft(start: World, steps: seq<Step>, w: World, i: nat) returns (steps': seq<Step>, w': World)
    requires Run(start, steps) == Some(w) && Inv(w.server) && Opening(w, i) && i !in w.client.handed
    ensures Run(start, steps') == Some(w') && Inv(w'.server) && Opening(w', i) && w'.client == w.client
    ensures w'.server.session.attachment.None?
  {
    steps', w' := steps, w;
    if w'.server.session.attachment.Some? {
      var h := w.server.holder.value;
      assert Owns(w.server.conns[h]);
      if w.server.conns[h].phase.Attached? {
        StrangerReads(w, i, h);
        InvStep(w'.server, At(h, ReadBuffer));
        steps', w' := Extend(start, steps', w', Environment(At(h, ReadBuffer)));
      }
      StrangerLeaves(w', i, h);
      InvStep(w'.server, Hangup(h, 0));
      steps', w' := Extend(start, steps', w', Environment(Hangup(h, 0)));
    }
  }

  lemma StrangerReads(w: World, i: nat, h: nat)
    requires Opening(w, i) && h in w.server.conns && w.server.conns[h].phase.Attached?
    ensures Can(w.server, At(h, ReadBuffer))
    ensures var w' := w.(server := Do(w.server, At(h, ReadBuffer)));
            Opening(w', i) && w'.server.session == w.server.session && h in w'.server.conns && w'.server.conns[h].reading
  {
  }

  lemma StrangerLeaves(w: World, i: nat, h: nat)
    requires Opening(w, i) && h in w.server.conns && w.server.conns[h].reading && w.server.session.attachment.Some?
    ensures Can(w.server, Hangup(h, 0))
    ensures var w' := w.(server := Do(w.server, Hangup(h, 0)));
            Opening(w', i) && w'.server.session.attachment.None?
  {
    LogFrame(w.server, Hangup(h, 0));
  }

  lemma KeptArrives(w: World, i: nat)
    requires Inv(w.server) && w.client.stage.Active? && i < |w.server.log| && i !in w.client.handed
    requires i in w.client.pending || Coming(w, i)
    ensures !NeverArrives(w, i)
  {
    assert Run(w, []) == Some(w);
    var steps, v;
    if i in w.client.pending {
      steps, v := PendingArrives(w, [], w, i);
    } else if Due(w, i) {
      steps, v := Arrives(w, [], w, i);
    } else {
      steps := OpeningArrives(w, i);
    }
  }

  lemma KeptNever(w: World, i: nat)
    requires ResumeClient.Reachable(w) && w.client.stage.Active? && i < |w.server.log| && i !in w.client.handed
    requires i !in w.client.pending && !Coming(w, i) && !ComesBack(w, i) && !LagHides(w, i)
    ensures NeverArrives(w, i)
  {
    ReachableSide(w);
    ActiveIsSessional(w);
    if Broken(w.server.conns[w.client.conn]) {
      BarredNever(w, i);
    } else if Locked(w, i) {
      AbsentUnlessComing(w, i);
      BarredNever(w, i);
    } else {
      HiddenUnlessLag(w, i);
      NotComingIsGone(w, i);
      forall steps | Run(w, steps).Some? ensures i !in Run(w, steps).value.client.handed {
        GoneForever(w, steps, i);
      }
    }
  }

  lemma HiddenUnlessLag(w: World, i: nat)
    requires Sessional(w) && w.client.stage.Active? && i < |w.server.log| && i !in w.client.handed
    requires i !in w.client.pending && !Coming(w, i) && !ComesBack(w, i) && !LagHides(w, i)
    requires w.server.live && w.client.token == w.server.session.resumeToken && !Crowded(w.server, i)
    requires !Broken(w.server.conns[w.client.conn])
    ensures i < |w.server.at| && Hidden(w.server, w.client.last, i)
  {
    AbsentUnlessComing(w, i);
    if !Hidden(w.server, w.client.last, i) && KeepsUp(w.server, w.server.conns[w.client.conn]) {
      KeepingUpBrings(w, i);
    }
  }
}
