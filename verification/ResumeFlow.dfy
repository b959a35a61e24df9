/**
 What a session that is up still delivers: a frame that is pending, queued in its channel, in its
 forwarder's hand, still in the broadcast channel, or not yet broadcast, arrives in some continuation.
 */
module ResumeFlow {
  import opened Basics
  import opened Sessions
  import opened ResumeServer
  import opened ResumeDelivery
  import opened ResumeClient

  /** The client has a session whose connection is intact. */
  predicate Flowing(w: World) {
    && w.client.stage.Active? && w.client.conn in w.server.conns
    && var conn := w.server.conns[w.client.conn];
    conn.phase.Serving? && !conn.gone && conn.forwarding
  }

  ghost predicate Queued(s: Server, conn: Conn, i: nat) {
    exists k :: conn.taken <= k < |conn.out| && FrameOf(s, conn, conn.out[k]) == Some(i)
  }

  /** The forwarder holds the frame, or can still receive it before the broadcast channel overwrites it. */
  predicate Receivable(s: Server, conn: Conn, i: nat) {
    i < |s.at| && (conn.hand == Some(s.at[i]) || (conn.next <= s.at[i] && s.at[i] + EVENT_CAPACITY >= |s.sent|))
  }

  /** Frame i is on its way on the client's connection, or has yet to be broadcast. */
  ghost predicate Due(w: World, i: nat) {
    Flowing(w) && var conn := w.server.conns[w.client.conn];
    Queued(w.server, conn, i) || Receivable(w.server, conn, i) || i >= |w.server.at|
  }

  ghost predicate Expected(w: World, i: nat) {
    Flowing(w) && i < |w.server.log| && i !in w.client.handed && (i in w.client.pending || Due(w, i))
  }

  // ---------------------------------------------------------------------------
  // Some step brings it closer
  // ---------------------------------------------------------------------------

  function ToBroadcast(w: World): int {
    |w.server.log| - |w.server.at|
  }

  function ToPull(w: World): int {
    if w.client.conn in w.server.conns then |w.server.sent| - w.server.conns[w.client.conn].next else 0
  }

  function ToPush(w: World): int {
    if w.client.conn in w.server.conns && w.server.conns[w.client.conn].hand.Some? then 1 else 0
  }

  function ToTake(w: World): int {
    if w.client.conn in w.server.conns then |w.server.conns[w.client.conn].out| - w.server.conns[w.client.conn].taken else 0
  }

  ghost predicate Closer(w': World, w: World) {
    || ToBroadcast(w') < ToBroadcast(w)
    || (ToBroadcast(w') == ToBroadcast(w) &&
        (|| ToPull(w') < ToPull(w)
         || (ToPull(w') == ToPull(w) &&
             (|| ToPush(w') < ToPush(w)
              || (ToPush(w') == ToPush(w) &&
                  (ToTake(w') < ToTake(w) || (ToTake(w') == ToTake(w) && |w'.client.pending| < |w.client.pending|)))))))
  }

  /** The step hands the frame out, or leaves it expected and closer. */
  ghost predicate Brings(w: World, step: Step, i: nat) {
    Enabled(w, step) && (i in Next(w, step).client.handed || (Expected(Next(w, step), i) && Closer(Next(w, step), w)))
  }

  lemma PendingBrings(w: World, i: nat)
    requires Expected(w, i) && w.client.pending != []
    ensures Brings(w, Receive, i)
  {
  }

  lemma TakeBrings(w: World, i: nat)
    requires Expected(w, i) && w.client.pending == [] && ToTake(w) > 0
    ensures Brings(w, Receive, i)
  {
    var conn := w.server.conns[w.client.conn];
    var conn' := Do(w.server, At(w.client.conn, Take)).conns[w.client.conn];
    if FrameOf(w.server, conn, conn.out[conn.taken]) != Some(i) && Queued(w.server, conn, i) {
      var k :| conn.taken <= k < |conn.out| && FrameOf(w.server, conn, conn.out[k]) == Some(i);
      assert FrameOf(w.server, conn', conn'.out[k]) == Some(i);
    }
  }

  lemma PushBrings(w: World, i: nat)
    requires BroadcastInOrder(w.server.sent, w.server.at) && Expected(w, i)
    requires w.client.pending == [] && ToTake(w) == 0 && ToPush(w) > 0
    ensures Brings(w, Environment(At(w.client.conn, Push)), i)
  {
    var s, conn := w.server, w.server.conns[w.client.conn];
    var conn' := AfterPush(conn);
    if i < |s.at| && conn.hand == Some(s.at[i]) {
      assert FrameOf(s, conn', conn'.out[|conn.out|]) == Some(i);
    }
  }

  lemma PullBrings(w: World, i: nat)
    requires Expected(w, i) && w.client.pending == [] && ToTake(w) == 0 && ToPush(w) == 0 && ToPull(w) > 0
    ensures Brings(w, Environment(At(w.client.conn, Pull)), i)
  {
  }

  lemma BroadcastBrings(w: World, i: nat)
    requires LogInv(w.server) && Expected(w, i) && LiveInv(w.server.conns[w.client.conn], |w.server.sent|)
    requires w.client.pending == [] && ToTake(w) == 0 && ToPush(w) == 0 && ToPull(w) == 0
    ensures Brings(w, Environment(Broadcast), i)
  {
  }

  lemma SomeStepBrings(w: World, i: nat) returns (step: Step)
    requires LogInv(w.server) && Expected(w, i) && LiveInv(w.server.conns[w.client.conn], |w.server.sent|)
    requires ToTake(w) >= 0
    ensures Brings(w, step, i)
  {
    if w.client.pending != [] {
      PendingBrings(w, i);
      step := Receive;
    } else if ToTake(w) > 0 {
      TakeBrings(w, i);
      step := Receive;
    } else if ToPush(w) > 0 {
      PushBrings(w, i);
      step := Environment(At(w.client.conn, Push));
    } else if ToPull(w) > 0 {
      PullBrings(w, i);
      step := Environment(At(w.client.conn, Pull));
    } else {
      BroadcastBrings(w, i);
      step := Environment(Broadcast);
    }
  }

  lemma ServerInvStep(w: World, step: Step)
    requires Inv(w.server) && Enabled(w, step)
    ensures Inv(Next(w, step).server)
  {
    match step
    case Environment(a) => InvStep(w.server, a);
    case Begin(n) => InvStep(w.server, Subscribe(n, w.client.token, w.client.last.Request()));
    case Receive =>
      if !(w.client.stage.Active? && w.client.pending != []) {
        InvStep(w.server, At(w.client.conn, Take));
      }
    case GiveUp =>
    case Disconnect =>
  }

  /** A frame that is expected arrives: as long as it has not, some step brings it closer. */
  lemma {:induction false} Arrives(start: World, steps: seq<Step>, w: World, i: nat) returns (steps': seq<Step>, w': World)
    requires Run(start, steps) == Some(w) && Inv(w.server) && Expected(w, i)
    ensures Run(start, steps') == Some(w') && i in w'.client.handed
    decreases ToBroadcast(w), ToPull(w), ToPush(w), ToTake(w), |w.client.pending|
  {
    Bounds(w);
    var step := SomeStepBrings(w, i);
    ServerInvStep(w, step);
    steps', w' := Extend(start, steps, w, step);
    if i !in w'.client.handed {
      Bounds(w');
      steps', w' := Arrives(start, steps', w', i);
    }
  }

  lemma Bounds(w: World)
    requires Inv(w.server) && Flowing(w)
    ensures LogInv(w.server) && LiveInv(w.server.conns[w.client.conn], |w.server.sent|)
    ensures ToBroadcast(w) >= 0 && ToPull(w) >= 0 && ToPush(w) >= 0 && ToTake(w) >= 0
  {
    assert ConnInv(w.server, w.server.conns[w.client.conn]);
  }

  /** Pending frames are handed out even when the connection is broken. */
  lemma {:induction false} PendingArrives(start: World, steps: seq<Step>, w: World, i: nat) returns (steps': seq<Step>, w': World)
    requires Run(start, steps) == Some(w) && w.client.stage.Active? && i in w.client.pending
    ensures Run(start, steps') == Some(w') && i in w'.client.handed
    decreases |w.client.pending|
  {
    steps', w' := Extend(start, steps, w, Receive);
    if i != w.client.pending[0] {
      steps', w' := PendingArrives(start, steps', w', i);
    }
  }
}
