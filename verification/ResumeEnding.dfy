/**
 How things end on the server: the event loop and with it the output, the session in the map, a
 connection that was refused, and one whose receiver is gone. And what holds of every connection
 until then: its channel never holds more than 128 messages, and its heartbeats reach the session.
 */
module ResumeEnding {
  import opened Basics
  import opened Sessions
  import opened ResumeServer
  import opened ResumeDelivery
  import opened ResumeHistory

  // ---------------------------------------------------------------------------
  // The event loop
  // ---------------------------------------------------------------------------

  /** The closing event is the last one broadcast, and the loop has ended with it. */
  ghost predicate ClosedLast(s: Server) {
    forall p :: 0 <= p < |s.sent| && s.sent[p].Closed? ==> p == |s.sent| - 1 && s.loopDone
  }

  ghost predicate EndInv(s: Server) {
    LoopInv(s) && ClosedLast(s)
  }

  lemma EndStep(s: Server, a: Action)
    requires Can(s, a) && EndInv(s)
    ensures EndInv(Do(s, a))
  {
    LoopInvStep(s, a);
    LoopStays(s, a);
    if !a.Record? && !a.Broadcast? {
      LogFrame(s, a);
    }
  }

  lemma LoopStays(s: Server, a: Action)
    requires Can(s, a) && LoopInv(s)
    ensures s.loopDone ==> Do(s, a).loopDone && !a.Record? && !a.Produce? && !a.Broadcast? && !a.EndLoop?
  {
  }

  lemma {:induction false} RunEnd(s: Server, actions: seq<Action>)
    requires EndInv(s) && Exec(s, actions).Some?
    ensures EndInv(Exec(s, actions).value)
    decreases |actions|
  {
    if actions != [] {
      var n := |actions| - 1;
      RunEnd(s, actions[..n]);
      EndStep(Exec(s, actions[..n]).value, actions[n]);
    }
  }

  lemma ReachableEnd(s: Server)
    requires ResumeDelivery.Reachable(s)
    ensures EndInv(s)
  {
    var capacity, token, now, actions :| Exec(Init(capacity, token, now), actions) == Some(s);
    RunEnd(Init(capacity, token, now), actions);
  }

  /** Nothing follows the closing event: nothing is broadcast after it, and nothing is under way. */
  lemma ClosedIsLast(s: Server, p: nat)
    requires ResumeDelivery.Reachable(s) && p < |s.sent| && s.sent[p].Closed?
    ensures p == |s.sent| - 1 && s.loopDone && s.inflight.None?
  {
    ReachableEnd(s);
  }

  lemma {:induction false} OutputIsFinal(s: Server, actions: seq<Action>)
    requires EndInv(s) && s.loopDone && Exec(s, actions).Some?
    ensures var t := Exec(s, actions).value;
            t.loopDone && t.log == s.log && t.sent == s.sent && t.at == s.at && t.session.buffer == s.session.buffer
    decreases |actions|
  {
    if actions != [] {
      var n := |actions| - 1;
      OutputIsFinal(s, actions[..n]);
      RunEnd(s, actions[..n]);
      var t := Exec(s, actions[..n]).value;
      LoopStays(t, actions[n]);
      LogFrame(t, actions[n]);
    }
  }

  /**
   The loop ends with the broadcast of the closing event, or when the producer is dropped. After that,
   whatever happens, the log, the broadcast and the buffer stay as they are, and the session, as long
   as it is in the map, can be removed.
   */
  lemma EndingIsFinal(s: Server, a: Action, actions: seq<Action>)
    requires ResumeDelivery.Reachable(s) && Can(s, a) && (a.EndLoop? || (a.Broadcast? && s.inflight == Some(Closed)))
    requires Exec(Do(s, a), actions).Some?
    ensures var t := Exec(Do(s, a), actions).value;
            && t.log == s.log && t.at == s.at && t.session.buffer == s.session.buffer
            && t.sent == s.sent + (if a.Broadcast? then [Closed] else [])
            && (t.live ==> Can(t, Remove))
  {
    ReachableEnd(s);
    EndStep(s, a);
    OutputIsFinal(Do(s, a), actions);
  }

  /** Nothing else ends it. */
  lemma LoopEndsOnlyIf(s: Server, a: Action)
    requires ResumeDelivery.Reachable(s) && Can(s, a) && !s.loopDone && Do(s, a).loopDone
    ensures a.EndLoop? || (a.Broadcast? && s.inflight == Some(Closed))
  {
  }

  // ---------------------------------------------------------------------------
  // The session in the map
  // ---------------------------------------------------------------------------

  /** Where a connection can be once the session is removed: one that had no answer yet gets none. */
  predicate TurnedAway(conn: Conn, conn': Conn) {
    && (conn.phase.Subscribed? ==> conn'.phase.Subscribed? || conn'.phase.Failed?)
    && (conn.phase.Attached? ==> conn'.phase.Attached? || conn'.phase.Failed?)
    && (conn.phase.Failed? ==> conn'.phase.Failed?)
  }

  lemma TurnedAwayStep(s: Server, a: Action, c: nat)
    requires Can(s, a) && !s.live && c in s.conns && PhaseInv(s.conns[c])
    ensures c in Do(s, a).conns && TurnedAway(s.conns[c], Do(s, a).conns[c])
  {
    ConnFrame(s, a, c);
  }

  lemma RemovedStep(s: Server, a: Action)
    requires Can(s, a) && !s.live
    ensures !Do(s, a).live && Do(s, a).conns.Keys == s.conns.Keys
  {
  }

  /** Removing the session is final: nobody connects any more, and no connection that was waiting is let in. */
  lemma {:induction false} RemovedIsFinal(s: Server, actions: seq<Action>, c: nat)
    requires Inv(s) && Can(s, Remove) && Exec(Do(s, Remove), actions).Some?
    ensures var t := Exec(Do(s, Remove), actions).value;
            !t.live && t.conns.Keys == s.conns.Keys && (c in s.conns ==> TurnedAway(s.conns[c], t.conns[c]))
    decreases |actions|
  {
    var u := Do(s, Remove);
    InvStep(s, Remove);
    if actions != [] {
      var n := |actions| - 1;
      RemovedIsFinal(s, actions[..n], c);
      RunInv(u, actions[..n]);
      var t := Exec(u, actions[..n]).value;
      RemovedStep(t, actions[n]);
      if c in s.conns {
        assert ConnInv(t, t.conns[c]);
        TurnedAwayStep(t, actions[n], c);
      }
    }
  }

  // ---------------------------------------------------------------------------
  // Being let in
  // ---------------------------------------------------------------------------

  /** The session is there, nobody is attached, and a resume brings the current token. */
  predicate Welcome(s: Server, c: nat)
    requires c in s.conns
  {
    s.live && s.session.attachment.None? && (s.conns[c].opener || s.conns[c].presented == s.session.resumeToken)
  }

  predicate Attaches(a: Action) {
    a.OpenAttach? || a.ResumeAttach?
  }

  lemma FailedStays(s: Server, a: Action, c: nat)
    requires Can(s, a) && c in s.conns && s.conns[c].phase.Failed?
    ensures c in Do(s, a).conns && Do(s, a).conns[c].phase.Failed? && Do(s, a).conns[c].taken == s.conns[c].taken
  {
    ConnFrame(s, a, c);
  }

  lemma RefusedNow(s: Server, a: Action)
    requires Can(s, a) && Attaches(a) && PhaseInv(s.conns[a.c]) && !Welcome(s, a.c)
    ensures Do(s, a) == s.(conns := s.conns[a.c := Do(s, a).conns[a.c]])
    ensures Do(s, a).conns[a.c].phase.Failed? && Do(s, a).conns[a.c].taken == 0
  {
  }

  lemma {:induction false} FailedForever(s: Server, c: nat, actions: seq<Action>)
    requires c in s.conns && s.conns[c].phase.Failed? && Exec(s, actions).Some?
    ensures var t := Exec(s, actions).value; c in t.conns && t.conns[c].phase.Failed? && t.conns[c].taken == s.conns[c].taken
    decreases |actions|
  {
    if actions != [] {
      var n := |actions| - 1;
      FailedForever(s, c, actions[..n]);
      FailedStays(Exec(s, actions[..n]).value, actions[n], c);
    }
  }

  /** A connection that is refused changes nothing else, and never gets anything in any continuation. */
  lemma RefusedForever(s: Server, a: Action, actions: seq<Action>)
    requires ResumeDelivery.Reachable(s) && Can(s, a) && Attaches(a) && !Welcome(s, a.c) && Exec(Do(s, a), actions).Some?
    ensures Do(s, a) == s.(conns := s.conns[a.c := Do(s, a).conns[a.c]])
    ensures var t := Exec(Do(s, a), actions).value; a.c in t.conns && t.conns[a.c].phase.Failed? && t.conns[a.c].taken == 0
  {
    ReachableInv(s);
    assert ConnInv(s, s.conns[a.c]);
    RefusedNow(s, a);
    FailedForever(Do(s, a), a.c, actions);
  }

  /**
   A connection that is welcome holds the slot under the given id. A resume has spent its token, which
   from then on is refused, and the token it was given is the current one.
   */
  lemma WelcomeIsLetIn(s: Server, a: Action)
    requires Can(s, a) && Attaches(a) && Welcome(s, a.c)
    ensures var t := Do(s, a);
            && a.c in t.conns && !t.conns[a.c].phase.Failed? && t.holder == Some(a.c)
            && t.session.attachment == Some(Attachment(a.id, a.who, a.now, None)) && t.session.lastActivity == a.now
            && (a.ResumeAttach? ==>
                  && t.session.resumeToken == t.conns[a.c].nextToken == a.rotated
                  && t.used == s.used[s.session.resumeToken := a.c])
            && (a.OpenAttach? ==> t.session.resumeToken == s.session.resumeToken && t.used == s.used)
  {
  }

  // ---------------------------------------------------------------------------
  // A connection whose receiver is gone
  // ---------------------------------------------------------------------------

  /** The receiver is gone for good: no message gets in or out. */
  predicate Frozen(conn: Conn) {
    conn.gone && !conn.phase.Replaying? && !conn.phase.Subscribed? && !conn.phase.Attached?
  }

  lemma FrozenStep(s: Server, a: Action, c: nat)
    requires Can(s, a) && c in s.conns && Frozen(s.conns[c])
    ensures c in Do(s, a).conns && Frozen(Do(s, a).conns[c])
    ensures Do(s, a).conns[c].out == s.conns[c].out && Do(s, a).conns[c].taken == s.conns[c].taken
  {
    ConnFrame(s, a, c);
  }

  /** When a handler is cancelled or a client drops its stream, the channel stays as it is. */
  lemma {:induction false} DroppedIsFrozen(s: Server, c: nat, step: Local, actions: seq<Action>)
    requires (step.Cancel? || step.Drop?) && Can(s, At(c, step)) && Exec(Do(s, At(c, step)), actions).Some?
    ensures var t := Exec(Do(s, At(c, step)), actions).value;
            c in t.conns && Frozen(t.conns[c]) && t.conns[c].out == s.conns[c].out && t.conns[c].taken == s.conns[c].taken
    decreases |actions|
  {
    if actions != [] {
      var n := |actions| - 1;
      DroppedIsFrozen(s, c, step, actions[..n]);
      FrozenStep(Exec(Do(s, At(c, step)), actions[..n]).value, actions[n], c);
    }
  }

  // ---------------------------------------------------------------------------
  // The channel and the heartbeat
  // ---------------------------------------------------------------------------

  /** No channel ever holds more than 128 messages. */
  ghost predicate Bounded(s: Server) {
    forall c :: c in s.conns ==> |s.conns[c].out| <= s.conns[c].taken + 128
  }

  lemma LocalBounded(s: Server, conn: Conn, step: Local)
    requires CanLocal(|s.sent|, conn, step) && |conn.out| <= conn.taken + 128
    ensures |LocalStep(s, conn, step).out| <= LocalStep(s, conn, step).taken + 128
  {
    match step
    case ReadBuffer =>
    case Pull =>
    case Push =>
    case SendReplay =>
    case SendAck =>
    case _ =>
  }

  lemma ConnBounded(s: Server, a: Action, c: nat)
    requires Can(s, a) && c in Do(s, a).conns && (c in s.conns ==> |s.conns[c].out| <= s.conns[c].taken + 128)
    ensures |Do(s, a).conns[c].out| <= Do(s, a).conns[c].taken + 128
  {
    ConnFrame(s, a, c);
    if a.At? && a.c == c {
      LocalBounded(s, s.conns[c], a.step);
    }
  }

  lemma BoundedStep(s: Server, a: Action)
    requires Can(s, a) && Bounded(s)
    ensures Bounded(Do(s, a))
  {
    forall c | c in Do(s, a).conns ensures |Do(s, a).conns[c].out| <= Do(s, a).conns[c].taken + 128 {
      ConnBounded(s, a, c);
    }
  }

  lemma {:induction false} RunBounded(s: Server, actions: seq<Action>)
    requires Bounded(s) && Exec(s, actions).Some?
    ensures Bounded(Exec(s, actions).value)
    decreases |actions|
  {
    if actions != [] {
      var n := |actions| - 1;
      RunBounded(s, actions[..n]);
      BoundedStep(Exec(s, actions[..n]).value, actions[n]);
    }
  }

  lemma ChannelIsBounded(s: Server, c: nat)
    requires ResumeDelivery.Reachable(s) && c in s.conns
    ensures |s.conns[c].out| <= s.conns[c].taken + 128
  {
    var capacity, token, now, actions :| Exec(Init(capacity, token, now), actions) == Some(s);
    RunBounded(Init(capacity, token, now), actions);
  }

  /** As long as the session exists, a heartbeat of a connection that is being read finds its own attachment and stamps it. */
  lemma HeartbeatStamps(s: Server, c: nat, now: Time)
    requires ResumeDelivery.Reachable(s) && s.live && Can(s, Heartbeat(c, now))
    ensures s.session.attachment.Some? && s.session.attachment.value.id == s.conns[c].attachmentId
    ensures var t := Do(s, Heartbeat(c, now)).session;
            t == s.session.(attachment := t.attachment, lastActivity := now)
            && t.attachment == Some(s.session.attachment.value.(lastHeartbeat := Some(now)))
  {
    ReachableInv(s);
    assert Owns(s.conns[c]);
  }

  lemma PullLoses(conn: Conn, total: nat, p: nat)
    requires LiveInv(conn, total) && conn.hand.None? && conn.next < total && conn.next <= p
    ensures p in AfterPull(conn, total).skipped <==> p + 256 < total
    ensures AfterPull(conn, total).hand == if conn.next + 256 < total then None else Some(conn.next)
  {
    assert p !in conn.skipped;
  }

  /** A receiver loses what is overwritten in the broadcast channel, which keeps the newest 256 events, and nothing else. */
  lemma LagLosesOldest(s: Server, c: nat, p: nat)
    requires ResumeDelivery.Reachable(s) && Can(s, At(c, Pull)) && s.conns[c].next <= p
    ensures p in Do(s, At(c, Pull)).conns[c].skipped <==> p + 256 < |s.sent|
    ensures Do(s, At(c, Pull)).conns[c].hand == if s.conns[c].next + 256 < |s.sent| then None else Some(s.conns[c].next)
  {
    ReachableInv(s);
    assert ConnInv(s, s.conns[c]);
    PullLoses(s.conns[c], |s.sent|, p);
  }
}
