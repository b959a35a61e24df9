/**
 Frames that are lost for good. A frame that was broadcast, that the application never got, and that
 the saved cursor has reached or the buffer has forgotten, never arrives, whatever happens next.
 */
module ResumeLoss {
  import opened Basics
  import opened Sessions
  import opened ResumeServer
  import opened ResumeDelivery
  import opened ResumeClient

  /** No continuation hands frame i to the application. */
  ghost predicate NeverArrives(w: World, i: nat) {
    forall steps :: Run(w, steps).Some? ==> i !in Run(w, steps).value.client.handed
  }

  /** The buffer no longer holds frame i. */
  predicate Forgotten(s: Server, i: nat) {
    i + |s.session.buffer| < |s.log|
  }

  /** Frame j is not frame i, and on the same stream it is a later one. */
  ghost predicate Later(log: seq<Frame>, i: nat, j: nat)
    requires i < |log|
  {
    j != i && j < |log| && (log[j].stream == log[i].stream ==> log[j].sequence > log[i].sequence)
  }

  /** Receiving frame j neither delivers frame i nor takes the cursor below it, or the buffer would not replay i anyway. */
  ghost predicate Bypasses(s: Server, i: nat, j: nat)
    requires i < |s.log|
  {
    j != i && (Forgotten(s, i) || Later(s.log, i, j))
  }

  // ---------------------------------------------------------------------------
  // A connection that no longer carries the frame
  // ---------------------------------------------------------------------------

  ghost predicate QueueBypasses(s: Server, conn: Conn, i: nat)
    requires i < |s.log|
  {
    forall k :: conn.taken <= k < |conn.out| && FrameOf(s, conn, conn.out[k]).Some? ==>
      Bypasses(s, i, FrameOf(s, conn, conn.out[k]).value)
  }

  /** What the forwarder holds or can still receive; older positions are overwritten in the broadcast channel. */
  ghost predicate BroadcastBypasses(s: Server, conn: Conn, i: nat)
    requires i < |s.log|
  {
    forall p :: 0 <= p < |s.sent| && s.sent[p].Output? && (conn.hand == Some(p) || (conn.next <= p && p + EVENT_CAPACITY >= |s.sent|)) ==>
      Bypasses(s, i, s.sent[p].frame)
  }

  ghost predicate ReplayBypasses(s: Server, conn: Conn, i: nat)
    requires i < |s.log|
  {
    && (forall x :: conn.replayed <= x < |conn.replay| ==> Bypasses(s, i, conn.replay[x]))
    && (conn.phase.Subscribed? || conn.phase.Attached? ==> Forgotten(s, i) || !conn.since.Before(s.log[i]))
  }

  ghost predicate ConnBypasses(s: Server, conn: Conn, i: nat)
    requires i < |s.log|
  {
    QueueBypasses(s, conn, i) && BroadcastBypasses(s, conn, i) && ReplayBypasses(s, conn, i)
  }

  lemma ForgottenStays(s: Server, a: Action, i: nat)
    requires Can(s, a) && i < |s.log|
    ensures Forgotten(s, i) ==> Forgotten(Do(s, a), i)
  {
    if !a.Record? && !a.Broadcast? {
      LogFrame(s, a);
    }
  }

  lemma FrameStaysPut(s: Server, a: Action, i: nat)
    requires Can(s, a) && i < |s.log|
    ensures i < |Do(s, a).log| && Do(s, a).log[i] == s.log[i]
    ensures |s.at| <= |Do(s, a).at| && (i < |s.at| ==> Do(s, a).at[i] == s.at[i])
  {
    if !a.Record? && !a.Broadcast? {
      LogFrame(s, a);
    }
  }

  /** Steps that leave the log and the broadcast alone. */
  lemma QuietConnBypasses(s: Server, t: Server, conn: Conn, i: nat)
    requires i < |s.log| && t.log == s.log && t.sent == s.sent && t.session.buffer == s.session.buffer && ConnBypasses(s, conn, i)
    ensures ConnBypasses(t, conn, i)
  {
  }

  lemma RecordConnBypasses(s: Server, a: Action, conn: Conn, i: nat)
    requires a.Record? && Can(s, a) && i < |s.log| && ConnBypasses(s, conn, i)
    ensures i < |Do(s, a).log| && ConnBypasses(Do(s, a), conn, i)
  {
    ForgottenStays(s, a, i);
    var t := Do(s, a);
    forall j | Bypasses(s, i, j) ensures Bypasses(t, i, j) {
    }
  }

  /** A frame broadcast later is a later frame. */
  lemma BroadcastIsLater(s: Server, i: nat)
    requires LogInv(s) && i < |s.at| && s.inflight.Some? && s.inflight.value.Output?
    ensures Later(s.log, i, s.inflight.value.frame)
  {
    var j := s.inflight.value.frame;
    if s.log[j].stream == s.log[i].stream {
      SequenceOrder(s.log, j, i);
    }
  }

  lemma BroadcastConnBypasses(s: Server, conn: Conn, i: nat)
    requires LogInv(s) && Can(s, Broadcast) && i < |s.at| && i < |s.log| && ConnBypasses(s, conn, i)
    requires LiveInv(conn, |s.sent|)
    ensures ConnBypasses(Do(s, Broadcast), conn, i)
  {
    var t, e := Do(s, Broadcast), s.inflight.value;
    if e.Output? {
      BroadcastIsLater(s, i);
    }
    forall p | 0 <= p < |t.sent| && t.sent[p].Output? && (conn.hand == Some(p) || (conn.next <= p && p + EVENT_CAPACITY >= |t.sent|))
      ensures Bypasses(t, i, t.sent[p].frame)
    {
      if p < |s.sent| {
        assert t.sent[p] == s.sent[p];
      }
    }
    QueueKeeps(s, t, conn, i);
  }

  lemma QueueKeeps(s: Server, t: Server, conn: Conn, i: nat)
    requires i < |s.log| && t.log == s.log && s.sent <= t.sent && t.session.buffer == s.session.buffer
    requires LiveInv(conn, |s.sent|) && QueueBypasses(s, conn, i)
    ensures QueueBypasses(t, conn, i)
  {
    forall k | conn.taken <= k < |conn.out| && FrameOf(t, conn, conn.out[k]).Some?
      ensures Bypasses(t, i, FrameOf(t, conn, conn.out[k]).value)
    {
      assert FrameOf(t, conn, conn.out[k]) == FrameOf(s, conn, conn.out[k]);
    }
  }

  lemma ReadBypasses(s: Server, conn: Conn, i: nat)
    requires LogInv(s) && ConnInv(s, conn) && conn.phase.Attached? && i < |s.at| && i < |s.log| && ConnBypasses(s, conn, i)
    ensures ConnBypasses(s, AfterRead(s, conn), i)
  {
    var c, evicted := AfterRead(s, conn), |s.log| - Min(|s.session.buffer|, |s.log|);
    forall x | 0 <= x < |c.replay| ensures Bypasses(s, i, c.replay[x]) {
      assert c.replay[x] in c.replay;
      if s.live {
        NewerAtHas(s.log, evicted, |s.log|, conn.since, c.replay[x]);
      }
    }
  }

  lemma PullBypasses(s: Server, conn: Conn, i: nat)
    requires conn.next < |s.sent| && i < |s.log| && ConnBypasses(s, conn, i)
    ensures ConnBypasses(s, AfterPull(conn, |s.sent|), i)
  {
    var c := AfterPull(conn, |s.sent|);
    forall k | c.taken <= k < |c.out| && FrameOf(s, c, c.out[k]).Some? ensures Bypasses(s, i, FrameOf(s, c, c.out[k]).value) {
      assert FrameOf(s, c, c.out[k]) == FrameOf(s, conn, conn.out[k]);
    }
  }

  lemma PushBypasses(s: Server, conn: Conn, i: nat)
    requires conn.hand.Some? && LiveInv(conn, |s.sent|) && !conn.gone && i < |s.log| && ConnBypasses(s, conn, i)
    ensures ConnBypasses(s, AfterPush(conn), i)
  {
    var c := AfterPush(conn);
    forall k | c.taken <= k < |c.out| && FrameOf(s, c, c.out[k]).Some? ensures Bypasses(s, i, FrameOf(s, c, c.out[k]).value) {
      if k < |conn.out| {
        assert FrameOf(s, c, c.out[k]) == FrameOf(s, conn, conn.out[k]);
      }
    }
  }

  lemma SendReplayBypasses(s: Server, conn: Conn, i: nat)
    requires conn.replayed < |conn.replay| && i < |s.log| && ConnBypasses(s, conn, i)
    ensures ConnBypasses(s, AfterReplay(conn), i)
  {
    var c := AfterReplay(conn);
    forall k | c.taken <= k < |c.out| && FrameOf(s, c, c.out[k]).Some? ensures Bypasses(s, i, FrameOf(s, c, c.out[k]).value) {
      if k < |conn.out| {
        assert FrameOf(s, c, c.out[k]) == FrameOf(s, conn, conn.out[k]);
      }
    }
  }

  lemma OtherBypasses(s: Server, conn: Conn, step: Local, i: nat)
    requires step.SendAck? || step.Cancel? || step.Take? || step.Drop?
    requires CanLocal(|s.sent|, conn, step) && i < |s.log| && ConnBypasses(s, conn, i)
    ensures ConnBypasses(s, LocalStep(s, conn, step), i)
  {
    var c := LocalStep(s, conn, step);
    forall k | c.taken <= k < |c.out| && FrameOf(s, c, c.out[k]).Some? ensures Bypasses(s, i, FrameOf(s, c, c.out[k]).value) {
      assert k < |conn.out| && FrameOf(s, c, c.out[k]) == FrameOf(s, conn, conn.out[k]);
    }
  }

  /** The client cannot take anything from the connection, or nothing that matters. */
  ghost predicate Dry(s: Server, conn: Conn, i: nat)
    requires i < |s.log|
  {
    conn.gone || ConnBypasses(s, conn, i)
  }

  lemma LocalDry(s: Server, conn: Conn, step: Local, i: nat)
    requires LogInv(s) && ConnInv(s, conn) && CanLocal(|s.sent|, conn, step) && i < |s.at| && i < |s.log| && Dry(s, conn, i)
    ensures Dry(s, LocalStep(s, conn, step), i)
  {
    if conn.gone {
      GoneStays(s, conn, step);
    } else {
      match step
      case ReadBuffer => ReadBypasses(s, conn, i);
      case Pull => PullBypasses(s, conn, i);
      case Push => PushBypasses(s, conn, i);
      case SendReplay => SendReplayBypasses(s, conn, i);
      case SendAck => OtherBypasses(s, conn, step, i);
      case Cancel => OtherBypasses(s, conn, step, i);
      case Take => OtherBypasses(s, conn, step, i);
      case Drop => OtherBypasses(s, conn, step, i);
    }
  }

  lemma GoneStays(s: Server, conn: Conn, step: Local)
    requires CanLocal(|s.sent|, conn, step) && conn.gone
    ensures LocalStep(s, conn, step).gone
  {
    match step
    case ReadBuffer =>
    case Pull =>
    case Push =>
    case _ =>
  }

  /** The two carry the same, and the second has read the buffer if the first has. */
  ghost predicate SameLoad(conn: Conn, conn': Conn) {
    && conn'.out == conn.out && conn'.taken == conn.taken && conn'.replay == conn.replay && conn'.replayed == conn.replayed
    && conn'.hand == conn.hand && conn'.next == conn.next && conn'.since == conn.since && conn'.gone == conn.gone
    && (conn'.phase.Subscribed? || conn'.phase.Attached? ==> conn.phase.Subscribed? || conn.phase.Attached?)
  }

  lemma SameLoadDry(s: Server, conn: Conn, conn': Conn, i: nat)
    requires i < |s.log| && SameLoad(conn, conn') && Dry(s, conn, i)
    ensures Dry(s, conn', i)
  {
    forall k | 0 <= k < |conn.out| ensures FrameOf(s, conn', conn'.out[k]) == FrameOf(s, conn, conn.out[k]) {
    }
  }

  /** Everybody else's steps on a connection: the attach, its failure, or the end of the reading task. */
  lemma OthersKeepLoad(s: Server, a: Action, c: nat)
    requires Can(s, a) && c in s.conns && !(a.At? && a.c == c)
    ensures c in Do(s, a).conns && SameLoad(s.conns[c], Do(s, a).conns[c])
  {
    ConnFrame(s, a, c);
  }

  lemma OthersDry(s: Server, a: Action, c: nat, i: nat)
    requires Can(s, a) && c in s.conns && !(a.At? && a.c == c) && i < |s.log| && Dry(s, s.conns[c], i)
    ensures c in Do(s, a).conns && Dry(s, Do(s, a).conns[c], i)
  {
    OthersKeepLoad(s, a, c);
    SameLoadDry(s, s.conns[c], Do(s, a).conns[c], i);
  }

  lemma DryStep(s: Server, a: Action, c: nat, i: nat)
    requires LogInv(s) && Can(s, a) && c in s.conns && ConnInv(s, s.conns[c]) && i < |s.at| && i < |s.log| && Dry(s, s.conns[c], i)
    ensures c in Do(s, a).conns && i < |Do(s, a).log| && Dry(Do(s, a), Do(s, a).conns[c], i)
  {
    var conn := s.conns[c];
    FrameStaysPut(s, a, i);
    if a.Record? {
      if !conn.gone {
        RecordConnBypasses(s, a, conn, i);
      }
    } else if a.Broadcast? {
      if !conn.gone {
        BroadcastConnBypasses(s, conn, i);
      }
    } else {
      LogFrame(s, a);
      if a.At? && a.c == c {
        LocalDry(s, conn, a.step, i);
      } else {
        OthersDry(s, a, c, i);
      }
      if !Do(s, a).conns[c].gone {
        QuietConnBypasses(s, Do(s, a), Do(s, a).conns[c], i);
      }
    }
  }

  // ---------------------------------------------------------------------------
  // A frame that is lost stays lost
  // ---------------------------------------------------------------------------

  /** Neither the cursor nor the buffer brings frame i back. */
  ghost predicate Hidden(s: Server, c: Cursors, i: nat)
    requires i < |s.log|
  {
    Forgotten(s, i) || c.Reached(s.log[i])
  }

  /** Frame i was broadcast, was not handed out, and neither the session nor a later resume will deliver it. */
  ghost predicate Gone(w: World, i: nat) {
    var s, c := w.server, w.client;
    && i < |s.at| && i < |s.log| && i !in c.handed && Hidden(s, c.last, i)
    && (!c.stage.Idle? ==> c.conn in s.conns && Dry(s, s.conns[c.conn], i) && i !in c.pending)
    && (c.stage.Resuming? ==> Hidden(s, c.seen, i) && i !in c.collected)
  }

  lemma HiddenStays(s: Server, a: Action, c: Cursors, i: nat)
    requires Can(s, a) && i < |s.log| && Hidden(s, c, i)
    ensures i < |Do(s, a).log| && Hidden(Do(s, a), c, i)
  {
    FrameStaysPut(s, a, i);
    ForgottenStays(s, a, i);
  }

  lemma BypassKeepsHidden(s: Server, c: Cursors, i: nat, j: nat)
    requires i < |s.log| && j < |s.log| && Bypasses(s, i, j) && Hidden(s, c, i)
    ensures Hidden(s, c.With(s.log[j]), i)
  {
  }

  lemma GoneEnvironment(w: World, a: Action, i: nat)
    requires Inv(w.server) && Gone(w, i) && Can(w.server, a)
    ensures Gone(w.(server := Do(w.server, a)), i)
  {
    FrameStaysPut(w.server, a, i);
    HiddenStays(w.server, a, w.client.last, i);
    if !w.client.stage.Idle? {
      assert ConnInv(w.server, w.server.conns[w.client.conn]);
      DryStep(w.server, a, w.client.conn, i);
    }
    if w.client.stage.Resuming? {
      HiddenStays(w.server, a, w.client.seen, i);
    }
  }

  lemma GoneBegin(w: World, n: nat, i: nat)
    requires LogInv(w.server) && Gone(w, i) && Enabled(w, Begin(n))
    ensures Gone(Next(w, Begin(n)), i)
  {
    SequenceBounded(w.server.session, w.server.log, i);
  }

  /** The next message is another frame, and keeps the cursor past frame i unless that no longer matters. */
  lemma NextBypasses(w: World, i: nat)
    requires LogInv(w.server) && Gone(w, i) && !w.client.stage.Idle? && Can(w.server, At(w.client.conn, Take))
    ensures NextFrameIndex(w).Some? ==> Bypasses(w.server, i, NextFrameIndex(w).value)
  {
  }

  lemma ResumeReceivesGone(w: World, i: nat)
    requires LogInv(w.server) && Gone(w, i) && w.client.stage.Resuming? && Can(w.server, At(w.client.conn, Take))
    ensures var c := ResumeReceives(w);
            && c.handed == w.client.handed && Hidden(w.server, c.last, i) && i !in c.pending
            && (c.stage.Resuming? ==> Hidden(w.server, c.seen, i) && i !in c.collected)
  {
    NextBypasses(w, i);
    if NextFrameIndex(w).Some? {
      BypassKeepsHidden(w.server, w.client.seen, i, NextFrameIndex(w).value);
    }
  }

  lemma SessionReceivesGone(w: World, i: nat)
    requires LogInv(w.server) && Gone(w, i) && w.client.stage.Active? && Can(w.server, At(w.client.conn, Take))
    ensures var c := SessionReceives(w);
            c.stage.Active? && i !in c.handed && Hidden(w.server, c.last, i) && c.pending == w.client.pending
  {
    NextBypasses(w, i);
    if NextFrameIndex(w).Some? {
      BypassKeepsHidden(w.server, w.client.last, i, NextFrameIndex(w).value);
    }
  }

  lemma GoneReceive(w: World, i: nat)
    requires Inv(w.server) && Gone(w, i) && Enabled(w, Receive) && !(w.client.stage.Active? && w.client.pending != [])
    ensures Gone(Next(w, Receive), i)
  {
    var t := Do(w.server, At(w.client.conn, Take));
    GoneEnvironment(w, At(w.client.conn, Take), i);
    LogFrame(w.server, At(w.client.conn, Take));
    if w.client.stage.Active? {
      SessionReceivesGone(w, i);
      GoneClient(w.(server := t), SessionReceives(w), i);
    } else {
      ResumeReceivesGone(w, i);
      GoneClient(w.(server := t), ResumeReceives(w), i);
    }
  }

  lemma GoneClient(w: World, c: Client, i: nat)
    requires Gone(w, i) && !w.client.stage.Idle? && c.conn == w.client.conn && i !in c.handed && i !in c.pending
    requires Hidden(w.server, c.last, i) && (c.stage.Resuming? ==> Hidden(w.server, c.seen, i) && i !in c.collected)
    ensures Gone(w.(client := c), i)
  {
  }

  lemma GoneStep(w: World, step: Step, i: nat)
    requires Inv(w.server) && Gone(w, i) && Enabled(w, step)
    ensures Gone(Next(w, step), i)
  {
    match step
    case Environment(a) => GoneEnvironment(w, a, i);
    case Begin(n) => GoneBegin(w, n, i);
    case Receive =>
      if !(w.client.stage.Active? && w.client.pending != []) {
        GoneReceive(w, i);
      }
    case GiveUp =>
    case Disconnect =>
  }

  lemma {:induction false} GoneForever(w: World, steps: seq<Step>, i: nat)
    requires Inv(w.server) && ClientInv(w) && Gone(w, i) && Run(w, steps).Some?
    ensures Gone(Run(w, steps).value, i)
    decreases |steps|
  {
    if steps != [] {
      var n := |steps| - 1;
      GoneForever(w, steps[..n], i);
      RunKeeps(w, steps[..n]);
      GoneStep(Run(w, steps[..n]).value, steps[n], i);
    }
  }

  /**
   For a client with a saved resume state: a frame that was broadcast and never handed out, and that
   the cursor has reached or the buffer has forgotten, never arrives.
   */
  lemma LostForever(w: World, i: nat)
    requires ResumeClient.Reachable(w) && w.client.stage.Idle? && i !in w.client.handed
    requires i < |w.server.at| && i < |w.server.log| && (w.client.last.Reached(w.server.log[i]) || Forgotten(w.server, i))
    ensures NeverArrives(w, i)
  {
    ReachableClientInv(w);
    forall steps | Run(w, steps).Some? ensures i !in Run(w, steps).value.client.handed {
      GoneForever(w, steps, i);
    }
  }

  lemma ReachableNext(w: World, step: Step)
    requires ResumeClient.Reachable(w) && Enabled(w, step)
    ensures ResumeClient.Reachable(Next(w, step))
  {
    var capacity, token, now, steps :| Run(Start(capacity, token, now), steps) == Some(w);
    assert (steps + [step])[..|steps|] == steps;
    assert Run(Start(capacity, token, now), steps + [step]) == Some(Next(w, step));
  }
}
