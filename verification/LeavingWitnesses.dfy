/**
 Runs that show what leaving a session costs, with the replay buffer of the program: unread frames that
 no resume can get back because the answer is too long, and a frame lost to lag that only staying saves.
 */
module LeavingWitnesses {
  import opened Basics
  import opened Sessions
  import opened ResumeServer
  import opened ResumeDelivery
  import opened ResumeClient
  import opened ResumeHistory
  import opened ResumeLoss
  import opened ResumeFlow
  import opened ResumeRecovery
  import opened ResumeStaying
  import opened ResumeLeaving

  // ---------------------------------------------------------------------------
  // A session whose client has read nothing
  // ---------------------------------------------------------------------------

  /** The opener is attached, n frames were recorded, k events broadcast, and the client has read none. */
  ghost predicate Unread(w: World, n: nat, k: nat) {
    var s := w.server;
    && w.client == Start(1024, Token(0), 0).client
    && s.live && !s.loopDone && s.inflight.None? && s.session.capacity == 1024 && s.session.resumeToken == Token(0)
    && |s.log| == n && s.session.buffer == s.log && |s.sent| == k && |s.at| == n && 0 in s.conns
    && var conn := s.conns[0];
    && conn.opener && conn.phase.Serving? && !conn.gone && conn.forwarding
    && conn.next == 0 && conn.hand.None? && conn.out == [] && conn.taken == 0
  }

  lemma Attached(start: World) returns (steps: seq<Step>, w: World)
    requires start == Start(1024, Token(0), 0)
    ensures Run(start, steps) == Some(w) && Unread(w, 0, 0)
  {
    steps, w := Extend(start, [], start, Environment(OpenAttach(0, None, 0, 0)));
  }

  function Recording(stream: OutputStream): Step {
    Environment(Record(stream, [], false, None, 0))
  }

  lemma RecordsOne(w: World, n: nat, k: nat, stream: OutputStream)
    requires Unread(w, n, k) && n < 1024
    ensures Enabled(w, Recording(stream)) && Enabled(Next(w, Recording(stream)), Environment(Broadcast))
    ensures var v := Next(Next(w, Recording(stream)), Environment(Broadcast));
            && Unread(v, n + 1, k + 1) && v.server.at == w.server.at + [k] && v.server.sent == w.server.sent + [Output(n)]
            && v.server.log == w.server.log + [w.server.session.NextFrame(stream, [], false, None)]
  {
  }

  lemma Records(start: World, steps: seq<Step>, w: World, n: nat, k: nat, stream: OutputStream) returns (steps': seq<Step>, w': World)
    requires Run(start, steps) == Some(w) && Unread(w, n, k) && n < 1024
    ensures Run(start, steps') == Some(w') && Unread(w', n + 1, k + 1)
    ensures w'.server.at == w.server.at + [k] && w'.server.sent == w.server.sent + [Output(n)]
    ensures w'.server.log == w.server.log + [w.server.session.NextFrame(stream, [], false, None)]
  {
    RecordsOne(w, n, k, stream);
    steps', w' := Extend(start, steps, w, Recording(stream));
    steps', w' := Extend(start, steps', w', Environment(Broadcast));
  }

  /** The first frame is on stdout and the others are on stderr. */
  ghost predicate FirstOnStdout(log: seq<Frame>) {
    (log != [] ==> log[0].stream.Stdout?) && forall j :: 1 <= j < |log| ==> log[j].stream.Stderr?
  }

  ghost predicate InStep(at: seq<nat>) {
    forall i :: 0 <= i < |at| ==> at[i] == i
  }

  lemma {:induction false} UnreadFrames(start: World, n: nat) returns (steps: seq<Step>, w: World)
    requires start == Start(1024, Token(0), 0) && n <= 1024
    ensures Run(start, steps) == Some(w) && Unread(w, n, n) && InStep(w.server.at) && FirstOnStdout(w.server.log)
    decreases n
  {
    if n == 0 {
      steps, w := Attached(start);
    } else {
      steps, w := UnreadFrames(start, n - 1);
      steps, w := Records(start, steps, w, n - 1, n - 1, if n == 1 then Stdout else Stderr);
    }
  }

  /** A client that has read nothing asks for everything. */
  lemma AsksForAll(w: World, n: nat, k: nat)
    requires Unread(w, n, k)
    ensures AnswerFits(w) <==> n < RESPONSE_CAPACITY
  {
    NewerKeepsAll(w.server.session.buffer, w.client.last.Request());
  }

  /**
   A running session with nothing pending and at least 128 frames that the client has yet to read:
   staying delivers every one of them, and leaving loses every one.
   */
  lemma UnreadFramesLostByLeaving(n: nat) returns (w: World)
    requires 128 <= n <= 256
    ensures ResumeClient.Reachable(w) && w.client.stage.Active? && w.client.pending == [] && w.client.last == Cursors(0, 0)
    ensures |w.server.log| == n && forall i :: 0 <= i < n ==> LostByLeaving(w, i)
  {
    var steps;
    steps, w := UnreadFrames(Start(1024, Token(0), 0), n);
    AsksForAll(w, n, n);
    forall i | 0 <= i < n ensures LostByLeaving(w, i) {
      assert Receivable(w.server, w.server.conns[0], i);
      DisconnectLosesForever(w, i);
    }
  }

  // ---------------------------------------------------------------------------
  // A frame that lag hides
  // ---------------------------------------------------------------------------

  lemma BeatsOne(w: World, n: nat, k: nat)
    requires Unread(w, n, k)
    ensures Enabled(w, Environment(Produce(HeartbeatAck))) && Enabled(Next(w, Environment(Produce(HeartbeatAck))), Environment(Broadcast))
    ensures var v := Next(Next(w, Environment(Produce(HeartbeatAck))), Environment(Broadcast));
            && Unread(v, n, k + 1) && v.server.at == w.server.at && v.server.log == w.server.log
            && v.server.sent == w.server.sent + [HeartbeatAck]
  {
  }

  /** From position lo on and before hi, everything is a heartbeat. */
  ghost predicate Heartbeats(sent: seq<Event>, lo: nat, hi: nat) {
    hi <= |sent| && forall p :: lo <= p < hi ==> sent[p] == HeartbeatAck
  }

  lemma {:induction false} Heartbeating(start: World, n: nat, m: nat) returns (steps: seq<Step>, w: World)
    requires start == Start(1024, Token(0), 0) && n <= 1024
    ensures Run(start, steps) == Some(w) && Unread(w, n, n + m) && InStep(w.server.at) && FirstOnStdout(w.server.log)
    ensures Heartbeats(w.server.sent, n, n + m)
    decreases m
  {
    if m == 0 {
      steps, w := UnreadFrames(start, n);
    } else {
      steps, w := Heartbeating(start, n, m - 1);
      BeatsOne(w, n, n + m - 1);
      steps, w := Extend(start, steps, w, Environment(Produce(HeartbeatAck)));
      steps, w := Extend(start, steps, w, Environment(Broadcast));
    }
  }

  /** Everything in the channel has been read. */
  ghost predicate ReadUp(w: World) {
    && w.client.stage.Active? && w.client.conn == 0 && w.client.pending == [] && 0 in w.server.conns
    && var conn := w.server.conns[0];
    conn.phase.Serving? && !conn.gone && conn.forwarding && conn.hand.None? && conn.taken == |conn.out|
  }

  /** The client after the event at broadcast position p. */
  function After(w: World, p: nat): Client
    requires p < |w.server.sent|
  {
    var e := w.server.sent[p];
    if e.Output? && e.frame < |w.server.log| then
      w.client.(last := w.client.last.With(w.server.log[e.frame]), handed := w.client.handed + {e.frame})
    else w.client
  }

  lemma Forwards(start: World, steps: seq<Step>, w: World) returns (steps': seq<Step>, w': World)
    requires Run(start, steps) == Some(w) && ReadUp(w) && w.server.conns[0].next < |w.server.sent| <= w.server.conns[0].next + EVENT_CAPACITY
    ensures Run(start, steps') == Some(w') && w'.client == w.client && w'.server == w.server.(conns := w'.server.conns)
    ensures 0 in w'.server.conns
    ensures var conn, conn' := w.server.conns[0], w'.server.conns[0];
            conn' == conn.(next := conn.next + 1, out := conn.out + [Live(conn.next)])
  {
    steps', w' := Extend(start, steps, w, Environment(At(0, Pull)));
    steps', w' := Extend(start, steps', w', Environment(At(0, Push)));
  }

  lemma TakesLive(w: World, p: nat)
    requires w.client.stage.Active? && w.client.conn == 0 && w.client.pending == [] && 0 in w.server.conns
    requires var conn := w.server.conns[0];
             conn.phase.Serving? && !conn.gone && conn.taken < |conn.out| && conn.out[conn.taken] == Live(p)
    requires p < |w.server.sent|
    ensures Enabled(w, Receive)
    ensures Next(w, Receive) == World(Do(w.server, At(0, Take)), After(w, p))
  {
  }

  /** One event is pulled, pushed and read. */
  lemma ReadsOne(start: World, steps: seq<Step>, w: World) returns (steps': seq<Step>, w': World)
    requires Run(start, steps) == Some(w) && ReadUp(w) && w.server.conns[0].next < |w.server.sent| <= w.server.conns[0].next + EVENT_CAPACITY
    ensures Run(start, steps') == Some(w') && ReadUp(w') && w'.server == w.server.(conns := w'.server.conns)
    ensures w'.server.conns[0].next == w.server.conns[0].next + 1 && w'.client == After(w, w.server.conns[0].next)
  {
    steps', w' := Forwards(start, steps, w);
    TakesLive(w', w.server.conns[0].next);
    steps', w' := Extend(start, steps', w', Receive);
  }

  /** The client reads heartbeats up to position p. */
  lemma {:induction false} ReadsHeartbeats(start: World, steps: seq<Step>, w: World, p: nat) returns (steps': seq<Step>, w': World)
    requires Run(start, steps) == Some(w) && ReadUp(w) && w.server.conns[0].next <= p <= |w.server.sent| <= w.server.conns[0].next + EVENT_CAPACITY
    requires Heartbeats(w.server.sent, w.server.conns[0].next, p)
    ensures Run(start, steps') == Some(w') && ReadUp(w') && w'.server == w.server.(conns := w'.server.conns)
    ensures w'.server.conns[0].next == p && w'.client == w.client
    decreases p - w.server.conns[0].next
  {
    steps', w' := steps, w;
    if w.server.conns[0].next < p {
      steps', w' := ReadsOne(start, steps, w);
      steps', w' := ReadsHeartbeats(start, steps', w', p);
    }
  }

  const HIDDEN_BY: nat := 129

  /** A receiver that is too far behind goes to the oldest event that is left. */
  lemma SkipsLost(w: World, n: nat, k: nat)
    requires Unread(w, n, k) && k > EVENT_CAPACITY
    ensures Enabled(w, Environment(At(0, Pull)))
    ensures var v := Next(w, Environment(At(0, Pull)));
            && v.client == w.client && v.server == w.server.(conns := v.server.conns)
            && ReadUp(v) && v.server.conns[0].next == k - EVENT_CAPACITY
  {
  }

  /** One more frame on stderr is recorded; lag takes the receiver past everything but 255 heartbeats and that frame. */
  lemma OneMoreFrame(w: World) returns (steps: seq<Step>, w': World)
    requires Unread(w, HIDDEN_BY, HIDDEN_BY + EVENT_CAPACITY) && FirstOnStdout(w.server.log)
    requires Heartbeats(w.server.sent, HIDDEN_BY, HIDDEN_BY + EVENT_CAPACITY)
    ensures Run(w, steps) == Some(w') && ReadUp(w') && w'.client == w.client
    ensures var s := w'.server;
            && s.live && s.session.resumeToken == Token(0) && |s.log| == |s.at| == HIDDEN_BY + 1 && s.session.buffer == s.log
            && FirstOnStdout(s.log) && |s.sent| == HIDDEN_BY + EVENT_CAPACITY + 1 && s.conns[0].next == HIDDEN_BY + 1
            && Heartbeats(s.sent, HIDDEN_BY, HIDDEN_BY + EVENT_CAPACITY) && s.sent[HIDDEN_BY + EVENT_CAPACITY] == Output(HIDDEN_BY)
  {
    steps, w' := Records(w, [], w, HIDDEN_BY, HIDDEN_BY + EVENT_CAPACITY, Stderr);
    SkipsLost(w', HIDDEN_BY + 1, HIDDEN_BY + EVENT_CAPACITY + 1);
    steps, w' := Extend(w, steps, w', Environment(At(0, Pull)));
  }

  lemma NewestRead(w: World) returns (steps: seq<Step>, w': World)
    requires Unread(w, HIDDEN_BY, HIDDEN_BY + EVENT_CAPACITY) && FirstOnStdout(w.server.log)
    requires Heartbeats(w.server.sent, HIDDEN_BY, HIDDEN_BY + EVENT_CAPACITY)
    ensures Run(w, steps) == Some(w') && w'.client.stage.Active? && 0 !in w'.client.handed && w'.client.token == Token(0)
    ensures var s := w'.server;
            && s.live && s.session.resumeToken == Token(0) && |s.log| == |s.at| == HIDDEN_BY + 1 && s.session.buffer == s.log
            && FirstOnStdout(s.log) && w'.client.last == Cursors(0, 0).With(s.log[HIDDEN_BY])
  {
    steps, w' := OneMoreFrame(w);
    steps, w' := ReadsHeartbeats(w, steps, w', HIDDEN_BY + EVENT_CAPACITY);
    steps, w' := ReadsOne(w, steps, w');
  }

  lemma {:induction false} AtMostFirst(frames: seq<Frame>, since: Cursor)
    requires forall j :: 1 <= j < |frames| ==> !since.Before(frames[j])
    ensures |Newer(frames, since)| <= 1
    decreases |frames|
  {
    if frames != [] {
      var n := |frames| - 1;
      AtMostFirst(frames[..n], since);
      if n == 0 {
        assert frames[..0] == [];
      }
    }
  }

  /** With the cursor at the newest frame of stderr, only the first frame is left to ask for. */
  lemma FirstComesBack(w: World)
    requires ResumeClient.Reachable(w) && w.client.stage.Active? && w.client.token == Token(0)
    requires w.server.live && w.server.session.resumeToken == Token(0) && |w.server.log| == |w.server.at| == HIDDEN_BY + 1
    requires w.server.session.buffer == w.server.log && FirstOnStdout(w.server.log)
    requires w.client.last == Cursors(0, 0).With(w.server.log[HIDDEN_BY])
    ensures ComesBack(w, 0)
  {
    ReachableSide(w);
    var log, since := w.server.log, w.client.last.Request();
    forall j | 1 <= j < |log| ensures !since.Before(log[j]) {
      SequenceOrder(log, j, HIDDEN_BY);
      SequenceBounded(w.server.session, log, j);
    }
    AtMostFirst(log, since);
    SequenceBounded(w.server.session, log, 0);
  }

  lemma {:induction false} NeverAlong(w: World, steps: seq<Step>, i: nat)
    requires Run(w, steps).Some? && NeverArrives(w, i)
    ensures NeverArrives(Run(w, steps).value, i)
    decreases |steps|
  {
    if steps != [] {
      var n := |steps| - 1;
      NeverAlong(w, steps[..n], i);
      StillNever(Run(w, steps[..n]).value, steps[n], i);
    }
  }

  lemma {:induction false} ReachableAlong(w: World, steps: seq<Step>)
    requires ResumeClient.Reachable(w) && Run(w, steps).Some?
    ensures ResumeClient.Reachable(Run(w, steps).value)
    decreases |steps|
  {
    if steps != [] {
      var n := |steps| - 1;
      ReachableAlong(w, steps[..n]);
      ReachableNext(Run(w, steps[..n]).value, steps[n]);
    }
  }

  lemma StayingSavesFirst(w: World)
    requires ResumeClient.Reachable(w) && Unread(w, HIDDEN_BY, HIDDEN_BY + EVENT_CAPACITY) && FirstOnStdout(w.server.log)
    requires Heartbeats(w.server.sent, HIDDEN_BY, HIDDEN_BY + EVENT_CAPACITY)
    ensures !NeverArrives(w, 0)
  {
    var steps, v := NewestRead(w);
    ReachableAlong(w, steps);
    FirstComesBack(v);
    LeavingIff(v, 0);
    ArrivesAfter(v, Disconnect, 0);
    if NeverArrives(w, 0) {
      NeverAlong(w, steps, 0);
    }
  }

  /**
   What lag hides can be lost by leaving although no frame is at stake: 129 frames that the receiver
   has lost to lag, the first on stdout and the others on stderr. Leaving loses all of them. If the
   client stays for one more frame on stderr, the first can be asked for again.
   */
  lemma LagMakesLeavingUnsafe() returns (w: World)
    ensures ResumeClient.Reachable(w) && w.client.stage.Active? && LagHides(w, 0) && 0 !in w.client.handed
    ensures |w.server.log| == 129 && |w.server.sent| == 129 + 256
    ensures (forall i :: 0 <= i ==> !AtStake(w, i)) && LostByLeaving(w, 0)
  {
    var steps;
    steps, w := Heartbeating(Start(1024, Token(0), 0), HIDDEN_BY, EVENT_CAPACITY);
    AsksForAll(w, HIDDEN_BY, HIDDEN_BY + EVENT_CAPACITY);
    StayingSavesFirst(w);
    LeavingIff(w, 0);
    NothingComes(w);
    FirstIsHidden(w);
  }

  lemma NothingComes(w: World)
    requires Unread(w, HIDDEN_BY, HIDDEN_BY + EVENT_CAPACITY) && InStep(w.server.at)
    ensures forall i :: 0 <= i < |w.server.log| ==> i !in w.client.pending && !Coming(w, i)
  {
  }

  lemma FirstIsHidden(w: World)
    requires ResumeClient.Reachable(w) && Unread(w, HIDDEN_BY, HIDDEN_BY + EVENT_CAPACITY) && FirstOnStdout(w.server.log)
    requires !AnswerFits(w) && 0 !in w.client.pending && !Coming(w, 0)
    ensures LagHides(w, 0)
  {
    ReachableSide(w);
    SequenceBounded(w.server.session, w.server.log, 0);
    var n := FromOnCounts(w.server, 0);
    OnlyFirst(w.server.log, |w.server.log|);
  }

  lemma {:induction false} OnlyFirst(log: seq<Frame>, hi: nat)
    requires FirstOnStdout(log) && 0 < hi <= |log|
    ensures Between(log, 0, hi, Stdout) == 1
    decreases hi
  {
    if hi == 1 {
      assert Between(log, 0, 0, Stdout) == 0;
    } else {
      OnlyFirst(log, hi - 1);
    }
  }
}
