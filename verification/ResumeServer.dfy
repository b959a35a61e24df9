/**
 One session on the server, as a step system: the event loop that records an event and then
 broadcasts it, any number of handlers that open or resume the session, the tasks they
 spawn, and the bounded channels between them. Every lock acquisition, channel operation
 and cancellation is a step of its own, and the steps of all parties interleave freely.
 */
module ResumeServer {
  import opened Basics
  import opened Sessions

  /** Slots of the response channel of one connection. */
  const RESPONSE_CAPACITY: nat := 128
  /** Events the broadcast channel retains for a slow receiver. */
  const EVENT_CAPACITY: nat := 256

  /** An event of the session; an output event names the frame it was recorded as. */
  datatype Event = Output(frame: nat) | Ready | Exit | Failure | HeartbeatAck | Closed

  /**
   A message in a response channel. A live message names its place in the broadcast order
   and a replayed one its place in the replay; the client sees only the frame.
   */
  datatype Msg = Live(at: nat) | Replayed(index: nat) | Ack(token: Token)

  datatype Phase =
    | Subscribed  // subscribed to the broadcast, not yet attached
    | Attached    // holds the slot, buffer not yet read
    | Replaying   // tasks spawned, replay and acknowledgement under way, receiver still private
    | Serving     // the receiver has been handed to the client
    | Failed      // the handler returned an error or was cancelled

  datatype Conn = Conn(
    opener: bool,            // opened the session, rather than resumed it
    presented: Token,        // the resume token in the request
    since: Cursor,           // the cursor in the request
    phase: Phase,
    attachmentId: nat,
    nextToken: Token,        // the token this connection was given
    authorised: bool,        // its resume token was accepted
    start: nat,              // broadcast position of the subscription
    next: nat,               // broadcast receiver position
    skipped: set<nat>,       // broadcast positions lost to lag
    hand: Option<nat>,       // taken from the broadcast, not yet in the channel
    forwarding: bool,        // forward_session_events is running
    reading: bool,           // forward_client_events is running
    known: nat,              // length of the log when the buffer was read
    evicted: nat,            // how much of that log the buffer had forgotten
    replay: seq<nat>,        // frames to replay
    replayed: nat,           // how many of them are in the channel
    out: seq<Msg>,           // everything ever put into the response channel
    taken: nat,              // how much of it the client has taken
    ackAt: nat,              // where in `out` the acknowledgement is
    gone: bool)              // the receiving end has been dropped

  datatype Server = Server(
    session: Session,
    live: bool,                // still in the session map
    log: seq<Frame>,           // everything recorded
    inflight: Option<Event>,   // recorded, not yet broadcast
    sent: seq<Event>,          // everything broadcast
    at: seq<nat>,              // where in `sent` each frame is
    loopDone: bool,            // the event loop has ended
    used: map<Token, nat>,     // resume tokens already spent, and by which connection
    holder: Option<nat>,       // the connection that holds the attachment
    conns: map<nat, Conn>)

  /** The naturals from lo up to, but not including, hi. */
  function Range(lo: nat, hi: nat): (r: set<nat>)
    ensures forall p :: p in r <==> lo <= p < hi
    decreases hi
  {
    if lo >= hi then {} else Range(lo, hi - 1) + {hi - 1}
  }

  predicate HasRoom(c: Conn) {
    |c.out| - c.taken < RESPONSE_CAPACITY
  }

  function NewConn(opener: bool, token: Token, since: Cursor, start: nat): Conn {
    Conn(opener, token, since, Subscribed, 0, token, false, start, start, {}, None, false, false,
         0, 0, [], 0, [], 0, 0, false)
  }

  /** A new session whose opener (connection 0) subscribed before the first event. */
  function Init(capacity: nat, token: Token, now: Time): Server {
    Server(NewSession(capacity, token, now), true, [], None, [], [], false, map[], None,
           map[0 := NewConn(true, token, Cursor(None, None), 0)])
  }

  // ---------------------------------------------------------------------------
  // Steps
  // ---------------------------------------------------------------------------

  /** Steps that change one connection and nothing else. */
  datatype Local =
    | ReadBuffer  // the handler reads the replay buffer and spawns its tasks
    | Pull        // the forwarder receives from the broadcast
    | Push        // the forwarder sends to the response channel
    | SendReplay
    | SendAck
    | Cancel      // the handler's future is dropped while it waits to send
    | Take        // the client receives a message
    | Drop        // the client drops its receiver

  datatype Action =
    | Record(stream: OutputStream, data: Bytes, binary: bool, timestampMs: Option<int>, now: Time)
    | Produce(event: Event)                               // any event that is not output
    | Broadcast
    | EndLoop                                             // the capability dropped its sender
    | Remove                                              // the loop removes the session
    | Subscribe(c: nat, token: Token, since: Cursor)
    | OpenAttach(c: nat, who: Option<string>, id: nat, now: Time)
    | ResumeAttach(c: nat, who: Option<string>, id: nat, rotated: Token, now: Time)
    | Heartbeat(c: nat, now: Time)
    | Hangup(c: nat, now: Time)                           // the request stream ends; detach
    | At(c: nat, step: Local)

  predicate CanLocal(total: nat, conn: Conn, step: Local) {
    match step
    case ReadBuffer => conn.phase.Attached?
    case Pull => conn.forwarding && conn.hand.None? && conn.next < total
    case Push => conn.hand.Some? && (conn.gone || HasRoom(conn))
    case SendReplay => conn.phase.Replaying? && conn.replayed < |conn.replay| && HasRoom(conn)
    case SendAck => conn.phase.Replaying? && conn.replayed == |conn.replay| && HasRoom(conn)
    case Cancel => conn.phase.Replaying?
    case Take => conn.phase.Serving? && !conn.gone && conn.taken < |conn.out|
    case Drop => conn.phase.Serving?
  }

  predicate Can(s: Server, a: Action) {
    match a
    case Record(_, _, _, _, _) => !s.loopDone && s.inflight.None?
    case Produce(e) => !s.loopDone && s.inflight.None? && !e.Output?
    case Broadcast => s.inflight.Some?
    case EndLoop => !s.loopDone && s.inflight.None?
    case Remove => s.loopDone && s.live
    case Subscribe(c, _, _) => c !in s.conns && s.live
    case OpenAttach(c, _, _, _) => c in s.conns && s.conns[c].opener && s.conns[c].phase.Subscribed?
    case ResumeAttach(c, _, _, t, _) =>
      c in s.conns && !s.conns[c].opener && s.conns[c].phase.Subscribed? && t !in s.used && t != s.session.resumeToken
    case Heartbeat(c, _) => c in s.conns && s.conns[c].reading
    case Hangup(c, _) => c in s.conns && s.conns[c].reading
    case At(c, step) => c in s.conns && CanLocal(|s.sent|, s.conns[c], step)
  }

  /** Reading the buffer and spawning both tasks; the handler fails if the session was removed. */
  function AfterRead(s: Server, conn: Conn): Conn {
    if !s.live then conn.(phase := Failed)
    else
      var evicted := |s.log| - Min(|s.session.buffer|, |s.log|);
      conn.(phase := Replaying, forwarding := true, reading := true,
            known := |s.log|, evicted := evicted,
            replay := NewerAt(s.log, evicted, |s.log|, conn.since))
  }

  /** A receiver that fell more than EVENT_CAPACITY behind first loses its oldest events. */
  function AfterPull(conn: Conn, total: nat): Conn
    requires conn.next < total
  {
    if total - conn.next > EVENT_CAPACITY then
      conn.(next := total - EVENT_CAPACITY,
            skipped := conn.skipped + Range(conn.next, total - EVENT_CAPACITY))
    else conn.(next := conn.next + 1, hand := Some(conn.next))
  }

  /** Sending into a channel whose receiver was dropped ends the forwarder; the event in its hand was never sent. */
  function AfterPush(conn: Conn): Conn
    requires conn.hand.Some?
  {
    if conn.gone then conn.(hand := None, forwarding := false, next := conn.hand.value)
    else conn.(hand := None, out := conn.out + [Live(conn.hand.value)])
  }

  function AfterReplay(conn: Conn): Conn {
    conn.(replayed := conn.replayed + 1, out := conn.out + [Replayed(conn.replayed)])
  }

  function AfterAck(conn: Conn): Conn {
    conn.(phase := Serving, ackAt := |conn.out|, out := conn.out + [Ack(conn.nextToken)])
  }

  function LocalStep(s: Server, conn: Conn, step: Local): Conn
    requires CanLocal(|s.sent|, conn, step)
  {
    match step
    case ReadBuffer => AfterRead(s, conn)
    case Pull => AfterPull(conn, |s.sent|)
    case Push => AfterPush(conn)
    case SendReplay => AfterReplay(conn)
    case SendAck => AfterAck(conn)
    case Cancel => conn.(phase := Failed, gone := true)
    case Take => conn.(taken := conn.taken + 1)
    case Drop => conn.(gone := true)
  }

  /** The opener attaches without a token and hands out its receiver at once. */
  function DoOpenAttach(s: Server, c: nat, who: Option<string>, id: nat, now: Time): Server
    requires c in s.conns
  {
    match if s.live then s.session.TryAttach(who, id, now) else Err(NotFound)
    case Err(_) => s.(conns := s.conns[c := s.conns[c].(phase := Failed)])
    case Ok(session) =>
      s.(session := session, holder := Some(c),
         conns := s.conns[c := s.conns[c].(phase := Serving, attachmentId := id, forwarding := true, reading := true)])
  }

  function DoResumeAttach(s: Server, c: nat, who: Option<string>, id: nat, t: Token, now: Time): Server
    requires c in s.conns
  {
    var conn := s.conns[c];
    match if s.live then s.session.AttachWithToken(conn.presented, who, id, t, now) else Err(NotFound)
    case Err(_) => s.(conns := s.conns[c := conn.(phase := Failed)])
    case Ok(session) =>
      s.(session := session, holder := Some(c), used := s.used[conn.presented := c],
         conns := s.conns[c := conn.(phase := Attached, attachmentId := id, nextToken := t, authorised := true)])
  }

  /** The client's request stream has ended: the reading task detaches, naming no attachment. */
  function DoHangup(s: Server, c: nat, now: Time): Server
    requires c in s.conns
  {
    var s' := s.(conns := s.conns[c := s.conns[c].(reading := false)]);
    match if s.live then s.session.TryDetach(now) else Err(NotFound)
    case Err(_) => s'
    case Ok(session) => s'.(session := session, holder := None)
  }

  function Do(s: Server, a: Action): Server
    requires Can(s, a)
  {
    match a
    case Record(stream, data, binary, ts, now) =>
      s.(session := s.session.Recorded(stream, data, binary, ts, now),
         log := s.log + [s.session.NextFrame(stream, data, binary, ts)],
         inflight := Some(Output(|s.log|)))
    case Produce(e) => s.(inflight := Some(e))
    case Broadcast =>
      var e := s.inflight.value;
      s.(inflight := None, sent := s.sent + [e],
         at := if e.Output? then s.at + [|s.sent|] else s.at,
         loopDone := e.Closed?)
    case EndLoop => s.(loopDone := true)
    case Remove => s.(live := false)
    case Subscribe(c, token, since) => s.(conns := s.conns[c := NewConn(false, token, since, |s.sent|)])
    case OpenAttach(c, who, id, now) => DoOpenAttach(s, c, who, id, now)
    case ResumeAttach(c, who, id, t, now) => DoResumeAttach(s, c, who, id, t, now)
    case Heartbeat(c, now) =>
      (match if s.live then s.session.TouchHeartbeat(now) else Err(NotFound)
       case Err(_) => s
       case Ok(session) => s.(session := session))
    case Hangup(c, now) => DoHangup(s, c, now)
    case At(c, step) => s.(conns := s.conns[c := LocalStep(s, s.conns[c], step)])
  }

  function Then(s: Option<Server>, a: Action): Option<Server> {
    if s.Some? && Can(s.value, a) then Some(Do(s.value, a)) else None
  }

  /** The state after a run, if every action of it was possible when it was taken. */
  function Exec(s: Server, actions: seq<Action>): Option<Server> {
    if actions == [] then Some(s)
    else Then(Exec(s, actions[..|actions| - 1]), actions[|actions| - 1])
  }

  // ---------------------------------------------------------------------------
  // Invariants
  // ---------------------------------------------------------------------------

  /** Recording and broadcasting keep step: frame i is broadcast at position at[i], in order. */
  ghost predicate LogInv(s: Server) {
    && Represents(s.session, s.log)
    && |s.at| == |s.log| - (if s.inflight.Some? && s.inflight.value.Output? then 1 else 0)
    && (s.inflight.Some? && s.inflight.value.Output? ==> s.inflight.value.frame == |s.log| - 1)
    && BroadcastInOrder(s.sent, s.at)
  }

  ghost predicate BroadcastInOrder(sent: seq<Event>, at: seq<nat>) {
    && (forall i :: 0 <= i < |at| ==> at[i] < |sent| && sent[at[i]] == Output(i))
    && (forall p :: 0 <= p < |sent| && sent[p].Output? ==> sent[p].frame < |at| && at[sent[p].frame] == p)
    && (forall i, j :: 0 <= i < j < |at| ==> at[i] < at[j])
  }

  /** Every live position from `start` up to `end` was lost to lag or is in the channel's history. */
  ghost predicate Covered(conn: Conn, end: nat) {
    forall p :: conn.start <= p < end ==> p in conn.skipped || Live(p) in conn.out
  }

  /** The broadcast receiver and the live messages of one connection. */
  ghost predicate LiveInv(conn: Conn, total: nat) {
    && conn.start <= conn.next <= total
    && (forall p :: p in conn.skipped ==> conn.start <= p < conn.next)
    && (conn.hand.Some? ==>
          && conn.forwarding && conn.start <= conn.hand.value && conn.hand.value + 1 == conn.next
          && conn.hand.value !in conn.skipped)
    && (forall k :: 0 <= k < |conn.out| && conn.out[k].Live? ==>
          conn.start <= conn.out[k].at < (if conn.hand.Some? then conn.hand.value else conn.next))
    && (forall k, l :: 0 <= k < l < |conn.out| && conn.out[k].Live? && conn.out[l].Live? ==>
          conn.out[k].at < conn.out[l].at)
    && Covered(conn, if conn.hand.Some? then conn.hand.value else conn.next)
  }

  /** The replayed messages of a channel history are Replayed(0), Replayed(1), ... in order. */
  ghost predicate ReplayInv(conn: Conn) {
    && conn.taken <= |conn.out|
    && conn.replayed <= |conn.replay|
    && (forall j :: 0 <= j < conn.replayed ==> Replayed(j) in conn.out)
    && (forall k :: 0 <= k < |conn.out| && conn.out[k].Replayed? ==> conn.out[k].index < conn.replayed)
    && (forall k, l :: 0 <= k < l < |conn.out| && conn.out[k].Replayed? && conn.out[l].Replayed? ==>
          conn.out[k].index < conn.out[l].index)
  }

  /** How many messages of a channel history came from the broadcast. */
  function LiveCount(out: seq<Msg>): nat {
    if out == [] then 0
    else LiveCount(out[..|out| - 1]) + (if out[|out| - 1].Live? then 1 else 0)
  }

  /** What each phase says about the channel history and the acknowledgement. */
  ghost predicate PhaseInv(conn: Conn) {
    && (conn.phase.Subscribed? || conn.phase.Attached? ==>
          && conn.out == [] && conn.replay == [] && conn.next == conn.start
          && conn.hand.None? && !conn.forwarding && conn.skipped == {})
    && (conn.phase.Attached? ==> !conn.opener)
    && (!conn.phase.Serving? ==> conn.taken == 0)
    && ((conn.phase.Replaying? || conn.phase.Serving?) && !conn.gone ==> conn.forwarding)
    && (conn.phase.Replaying? ==>
          && !conn.opener
          && |conn.out| == conn.replayed + LiveCount(conn.out) <= RESPONSE_CAPACITY
          && forall k :: 0 <= k < |conn.out| ==> !conn.out[k].Ack?)
    && (conn.phase.Serving? && !conn.opener ==>
          && conn.ackAt < |conn.out| && conn.out[conn.ackAt] == Ack(conn.nextToken)
          && conn.replayed == |conn.replay|
          && conn.ackAt == |conn.replay| + LiveCount(conn.out[..conn.ackAt])
          && conn.ackAt < RESPONSE_CAPACITY
          && (forall k :: 0 <= k < |conn.out| && conn.out[k].Ack? ==> k == conn.ackAt)
          && (forall k :: 0 <= k < |conn.out| && conn.out[k].Replayed? ==> k < conn.ackAt))
    && (conn.opener ==>
          && conn.start == 0 && conn.replay == [] && conn.known == 0 && conn.evicted == 0
          && forall k :: 0 <= k < |conn.out| ==> conn.out[k].Live?)
  }

  /** The replay is exactly the retained frames after the cursor; later frames are broadcast after the subscription. */
  ghost predicate SnapshotInv(conn: Conn, log: seq<Frame>, at: seq<nat>) {
    && conn.evicted <= conn.known <= |log|
    && (forall i :: i in conn.replay ==> conn.evicted <= i < conn.known && conn.since.Before(log[i]))
    && (forall j, k :: 0 <= j < k < |conn.replay| ==> conn.replay[j] < conn.replay[k])
    && (conn.phase.Replaying? || conn.phase.Serving? ==>
          forall i :: conn.evicted <= i < conn.known && conn.since.Before(log[i]) ==> i in conn.replay)
    && (conn.phase.Replaying? || conn.phase.Serving? ==> forall i :: conn.known <= i < |at| ==> at[i] >= conn.start)
  }

  ghost predicate ConnInv(s: Server, conn: Conn) {
    && LiveInv(conn, |s.sent|)
    && ReplayInv(conn)
    && PhaseInv(conn)
    && SnapshotInv(conn, s.log, s.at)
  }

  predicate Owns(conn: Conn) {
    conn.phase.Attached? || conn.reading
  }

  /** While the session exists, the slot is taken exactly when one connection owns it. */
  ghost predicate OwnInv(s: Server) {
    && (s.session.attachment.Some? <==> s.holder.Some?)
    && (s.holder.Some? ==> s.holder.value in s.conns && s.session.attachment.value.id == s.conns[s.holder.value].attachmentId)
    && (forall c :: c in s.conns ==> (Owns(s.conns[c]) <==> s.holder == Some(c)))
    && (forall c :: c in s.conns && s.conns[c].reading ==> !s.conns[c].phase.Subscribed? && !s.conns[c].phase.Attached?)
  }

  /** The current token is unspent; a spent token belongs to the one connection it authorised. */
  ghost predicate TokenInv(s: Server) {
    && s.session.resumeToken !in s.used
    && (forall c :: c in s.conns && s.conns[c].authorised ==>
          s.conns[c].presented in s.used && s.used[s.conns[c].presented] == c)
    && (s.holder.Some? && s.holder.value in s.conns && !s.conns[s.holder.value].opener ==>
          s.session.resumeToken == s.conns[s.holder.value].nextToken)
  }

  ghost predicate Inv(s: Server) {
    && LogInv(s)
    && (forall c :: c in s.conns ==> ConnInv(s, s.conns[c]))
    && (s.live ==> OwnInv(s))
    && TokenInv(s)
  }

  // ---------------------------------------------------------------------------
  // Every step keeps the invariants
  // ---------------------------------------------------------------------------

  lemma InitInv(capacity: nat, token: Token, now: Time)
    ensures Inv(Init(capacity, token, now))
  {
  }

  // The log and the broadcast.

  /** Only recording and broadcasting touch the log; every other step leaves the buffer alone. */
  lemma LogFrame(s: Server, a: Action)
    requires Can(s, a) && !a.Record? && !a.Broadcast?
    ensures var t := Do(s, a);
            && t.log == s.log && t.sent == s.sent && t.at == s.at
            && (a.Produce? || t.inflight == s.inflight)
            && t.session.buffer == s.session.buffer && t.session.capacity == s.session.capacity
            && t.session.stdoutNext == s.session.stdoutNext && t.session.stderrNext == s.session.stderrNext
  {
  }

  lemma LogInvStep(s: Server, a: Action)
    requires LogInv(s) && Can(s, a)
    ensures LogInv(Do(s, a))
  {
    if a.Record? {
      RecordExtendsLog(s.session, s.log, a.stream, a.data, a.binary, a.timestampMs, a.now);
    } else if a.Broadcast? {
      BroadcastKeepsOrder(s.sent, s.at, s.inflight.value);
    } else {
      LogFrame(s, a);
    }
  }

  lemma BroadcastKeepsOrder(sent: seq<Event>, at: seq<nat>, e: Event)
    requires BroadcastInOrder(sent, at) && (e.Output? ==> e.frame == |at|)
    ensures BroadcastInOrder(sent + [e], if e.Output? then at + [|sent|] else at)
  {
  }

  // One connection.

  lemma PullKeeps(conn: Conn, total: nat)
    requires LiveInv(conn, total) && conn.forwarding && conn.hand.None? && conn.next < total
    ensures LiveInv(AfterPull(conn, total), total)
  {
    if total - conn.next > EVENT_CAPACITY {
      LagKeeps(conn, total);
    } else {
      assert Covered(AfterPull(conn, total), conn.next);
    }
  }

  /** The positions a lagging receiver jumps over are exactly those it records as skipped. */
  lemma LagKeeps(conn: Conn, total: nat)
    requires LiveInv(conn, total) && conn.hand.None? && total - conn.next > EVENT_CAPACITY
    ensures LiveInv(AfterPull(conn, total), total)
  {
    var c := AfterPull(conn, total);
    forall p | conn.start <= p < c.next ensures p in c.skipped || Live(p) in c.out {
      if p < conn.next {
        assert Covered(conn, conn.next);
      }
    }
  }

  lemma PushKeepsLive(conn: Conn, total: nat)
    requires LiveInv(conn, total) && conn.hand.Some?
    ensures LiveInv(AfterPush(conn), total)
  {
  }

  lemma PushKeepsPhase(conn: Conn)
    requires PhaseInv(conn) && conn.hand.Some? && (conn.gone || HasRoom(conn))
    ensures PhaseInv(AfterPush(conn))
  {
    var c := AfterPush(conn);
    if !conn.gone {
      assert c.out[..|conn.out|] == conn.out;
      if conn.phase.Serving? && !conn.opener {
        assert c.out[..conn.ackAt] == conn.out[..conn.ackAt];
      }
    }
  }

  /** A message that is not live does not disturb the live ones. */
  lemma OtherMessageKeepsLive(conn: Conn, c: Conn, m: Msg, total: nat)
    requires LiveInv(conn, total) && !m.Live? && c.out == conn.out + [m]
    requires c.start == conn.start && c.next == conn.next && c.skipped == conn.skipped
    requires c.hand == conn.hand && c.forwarding == conn.forwarding
    ensures LiveInv(c, total)
  {
  }

  lemma OtherMessageKeepsReplay(conn: Conn, c: Conn, m: Msg)
    requires ReplayInv(conn) && !m.Replayed? && c.out == conn.out + [m]
    requires c.taken == conn.taken && c.replay == conn.replay && c.replayed == conn.replayed
    ensures ReplayInv(c)
  {
  }

  lemma ReplayKeepsReplay(conn: Conn)
    requires ReplayInv(conn) && conn.replayed < |conn.replay|
    ensures ReplayInv(AfterReplay(conn))
  {
    var c := AfterReplay(conn);
    assert c.out[|conn.out|] == Replayed(conn.replayed);
  }

  lemma ReplayKeepsPhase(conn: Conn)
    requires PhaseInv(conn) && conn.phase.Replaying? && conn.replayed < |conn.replay| && HasRoom(conn)
    ensures PhaseInv(AfterReplay(conn))
  {
    var c := AfterReplay(conn);
    assert c.out[..|conn.out|] == conn.out;
  }

  lemma AckKeepsPhase(conn: Conn)
    requires PhaseInv(conn) && conn.phase.Replaying? && conn.replayed == |conn.replay| && HasRoom(conn)
    ensures PhaseInv(AfterAck(conn))
  {
    var c := AfterAck(conn);
    assert c.out[..|conn.out|] == conn.out;
  }

  lemma ReadKeepsPhase(s: Server, conn: Conn)
    requires PhaseInv(conn) && ReplayInv(conn) && conn.phase.Attached?
    ensures PhaseInv(AfterRead(s, conn))
  {
  }

  lemma ReadKeepsSnapshot(s: Server, conn: Conn)
    requires |s.at| <= |s.log| && SnapshotInv(conn, s.log, s.at)
    ensures SnapshotInv(AfterRead(s, conn), s.log, s.at)
  {
    if s.live {
      var c := AfterRead(s, conn);
      NewerAtIsExact(s.log, c.evicted, |s.log|, conn.since);
    }
  }

  lemma LocalKeepsLive(s: Server, conn: Conn, step: Local)
    requires LiveInv(conn, |s.sent|) && PhaseInv(conn) && CanLocal(|s.sent|, conn, step)
    ensures LiveInv(LocalStep(s, conn, step), |s.sent|)
  {
    match step
    case Pull => PullKeeps(conn, |s.sent|);
    case Push => PushKeepsLive(conn, |s.sent|);
    case SendReplay => OtherMessageKeepsLive(conn, AfterReplay(conn), Replayed(conn.replayed), |s.sent|);
    case SendAck => OtherMessageKeepsLive(conn, AfterAck(conn), Ack(conn.nextToken), |s.sent|);
    case _ =>
  }

  lemma LocalKeepsReplay(s: Server, conn: Conn, step: Local)
    requires ReplayInv(conn) && PhaseInv(conn) && CanLocal(|s.sent|, conn, step)
    ensures ReplayInv(LocalStep(s, conn, step))
  {
    match step
    case Push => if !conn.gone { OtherMessageKeepsReplay(conn, AfterPush(conn), Live(conn.hand.value)); }
    case SendReplay => ReplayKeepsReplay(conn);
    case SendAck => OtherMessageKeepsReplay(conn, AfterAck(conn), Ack(conn.nextToken));
    case _ =>
  }

  lemma LocalKeepsPhase(s: Server, conn: Conn, step: Local)
    requires ReplayInv(conn) && PhaseInv(conn) && CanLocal(|s.sent|, conn, step)
    ensures PhaseInv(LocalStep(s, conn, step))
  {
    if step.Push? {
      PushKeepsPhase(conn);
    } else if step.SendReplay? {
      ReplayKeepsPhase(conn);
    } else if step.SendAck? {
      AckKeepsPhase(conn);
    } else if step.ReadBuffer? {
      ReadKeepsPhase(s, conn);
    } else if step.Pull? {
      PullKeepsPhase(conn, |s.sent|);
    } else {
      ReceiverKeepsPhase(s, conn, step);
    }
  }

  lemma PullKeepsPhase(conn: Conn, total: nat)
    requires PhaseInv(conn) && conn.forwarding && conn.hand.None? && conn.next < total
    ensures PhaseInv(AfterPull(conn, total))
  {
  }

  lemma ReceiverKeepsPhase(s: Server, conn: Conn, step: Local)
    requires PhaseInv(conn) && CanLocal(|s.sent|, conn, step) && (step.Cancel? || step.Take? || step.Drop?)
    ensures PhaseInv(LocalStep(s, conn, step))
  {
  }

  lemma LocalKeepsSnapshot(s: Server, conn: Conn, step: Local)
    requires |s.at| <= |s.log| && SnapshotInv(conn, s.log, s.at) && CanLocal(|s.sent|, conn, step)
    ensures SnapshotInv(LocalStep(s, conn, step), s.log, s.at)
  {
    match step
    case ReadBuffer => ReadKeepsSnapshot(s, conn);
    case _ =>
  }

  lemma LocalKeeps(s: Server, conn: Conn, step: Local)
    requires |s.at| <= |s.log| && ConnInv(s, conn) && CanLocal(|s.sent|, conn, step)
    ensures ConnInv(s, LocalStep(s, conn, step))
  {
    LocalKeepsLive(s, conn, step);
    LocalKeepsReplay(s, conn, step);
    LocalKeepsPhase(s, conn, step);
    LocalKeepsSnapshot(s, conn, step);
  }

  /** Growth of the log and of the broadcast does not disturb a connection. */
  lemma GrowthKeeps(s: Server, t: Server, conn: Conn)
    requires ConnInv(s, conn)
    requires s.log <= t.log && s.sent <= t.sent && s.at <= t.at
    requires forall i :: |s.at| <= i < |t.at| ==> t.at[i] >= |s.sent|
    ensures ConnInv(t, conn)
  {
    assert forall i :: 0 <= i < |s.log| ==> t.log[i] == s.log[i];
  }

  /** What any step does to one connection. */
  lemma ConnFrame(s: Server, a: Action, c: nat)
    requires Can(s, a) && c in Do(s, a).conns
    ensures var conn' := Do(s, a).conns[c];
            || (c !in s.conns && a.Subscribe? && conn' == NewConn(false, a.token, a.since, |s.sent|))
            || (c in s.conns && (
                 var conn := s.conns[c];
                 || conn' == conn
                 || (a.At? && a.c == c && conn' == LocalStep(s, conn, a.step))
                 || (conn.phase.Subscribed? && conn' == conn.(phase := Failed))
                 || (conn.phase.Subscribed? && !conn.opener &&
                     conn' == conn.(phase := Attached, attachmentId := conn'.attachmentId, nextToken := conn'.nextToken,
                                    authorised := true))
                 || (conn.phase.Subscribed? && conn.opener &&
                     conn' == conn.(phase := Serving, attachmentId := conn'.attachmentId, forwarding := true, reading := true))
                 || conn' == conn.(reading := false)))
  {
  }

  /** Changes made by the handler's attach calls and by the end of the reading task. */
  lemma OtherChangeKeeps(s: Server, conn: Conn, conn': Conn)
    requires ConnInv(s, conn)
    requires || (conn.phase.Subscribed? && conn' == conn.(phase := Failed))
             || (conn.phase.Subscribed? && !conn.opener &&
                 conn' == conn.(phase := Attached, attachmentId := conn'.attachmentId, nextToken := conn'.nextToken,
                                authorised := true))
             || (conn.phase.Subscribed? && conn.opener &&
                 conn' == conn.(phase := Serving, attachmentId := conn'.attachmentId, forwarding := true, reading := true))
             || conn' == conn.(reading := false)
    ensures ConnInv(s, conn')
  {
  }

  lemma NewConnInv(s: Server, token: Token, since: Cursor)
    ensures ConnInv(s, NewConn(false, token, since, |s.sent|))
  {
  }

  lemma ConnInvStep(s: Server, a: Action, c: nat)
    requires LogInv(s) && Can(s, a) && c in Do(s, a).conns && (c in s.conns ==> ConnInv(s, s.conns[c]))
    ensures ConnInv(Do(s, a), Do(s, a).conns[c])
  {
    if a.Record? || a.Broadcast? {
      GrowthKeeps(s, Do(s, a), s.conns[c]);
    } else {
      QuietStepKeeps(s, a, c);
    }
  }

  /** Steps that record and broadcast nothing. */
  lemma QuietStepKeeps(s: Server, a: Action, c: nat)
    requires LogInv(s) && Can(s, a) && c in Do(s, a).conns && (c in s.conns ==> ConnInv(s, s.conns[c]))
    requires !a.Record? && !a.Broadcast?
    ensures ConnInv(Do(s, a), Do(s, a).conns[c])
  {
    LogFrame(s, a);
    ConnFrame(s, a, c);
    if c !in s.conns {
      NewConnInv(s, a.token, a.since);
    } else if a.At? && a.c == c {
      LocalKeeps(s, s.conns[c], a.step);
    } else if Do(s, a).conns[c] != s.conns[c] {
      OtherChangeKeeps(s, s.conns[c], Do(s, a).conns[c]);
    }
  }

  // The attachment slot and the tokens.

  /** Local steps leave the identity of a connection alone. */
  lemma LocalIdentity(s: Server, conn: Conn, step: Local)
    requires CanLocal(|s.sent|, conn, step)
    ensures var c := LocalStep(s, conn, step);
            && c.opener == conn.opener && c.presented == conn.presented && c.nextToken == conn.nextToken
            && c.authorised == conn.authorised && c.attachmentId == conn.attachmentId
  {
    match step
    case ReadBuffer =>
    case Pull =>
    case Push =>
    case SendReplay =>
    case SendAck =>
    case _ =>
  }

  lemma LocalOwnership(s: Server, conn: Conn, step: Local)
    requires CanLocal(|s.sent|, conn, step) && s.live
    requires (conn.phase.Subscribed? || conn.phase.Attached?) ==> conn.hand.None? && !conn.forwarding
    ensures !LocalStep(s, conn, step).phase.Subscribed? && !LocalStep(s, conn, step).phase.Attached?
    ensures Owns(LocalStep(s, conn, step)) <==> Owns(conn)
  {
  }

  lemma OwnInvLocal(s: Server, c: nat, step: Local)
    requires Can(s, At(c, step)) && s.live && OwnInv(s) && PhaseInv(s.conns[c])
    ensures OwnInv(Do(s, At(c, step)))
  {
    LocalIdentity(s, s.conns[c], step);
    LocalOwnership(s, s.conns[c], step);
  }

  lemma OwnInvStep(s: Server, a: Action)
    requires Can(s, a) && (s.live ==> OwnInv(s)) && (a.At? ==> PhaseInv(s.conns[a.c]))
    ensures Do(s, a).live ==> OwnInv(Do(s, a))
  {
    if Do(s, a).live {
      if a.At? {
        OwnInvLocal(s, a.c, a.step);
      } else if a.OpenAttach? {
        OwnInvOpen(s, a);
      } else if a.ResumeAttach? {
        OwnInvResume(s, a);
      } else if a.Hangup? {
        OwnInvHangup(s, a);
      } else {
        OwnInvOther(s, a);
      }
    }
  }

  lemma OwnInvOpen(s: Server, a: Action)
    requires a.OpenAttach? && Can(s, a) && s.live && OwnInv(s)
    ensures OwnInv(Do(s, a))
  {
  }

  lemma OwnInvResume(s: Server, a: Action)
    requires a.ResumeAttach? && Can(s, a) && s.live && OwnInv(s)
    ensures OwnInv(Do(s, a))
  {
  }

  lemma OwnInvHangup(s: Server, a: Action)
    requires a.Hangup? && Can(s, a) && s.live && OwnInv(s)
    ensures OwnInv(Do(s, a))
  {
  }

  lemma OwnInvOther(s: Server, a: Action)
    requires !a.At? && !a.OpenAttach? && !a.ResumeAttach? && !a.Hangup? && Can(s, a)
    requires Do(s, a).live ==> s.live && OwnInv(s)
    ensures Do(s, a).live ==> OwnInv(Do(s, a))
  {
  }

  lemma TokenInvAttach(s: Server, a: Action)
    requires a.ResumeAttach? && Can(s, a) && TokenInv(s) && (s.live ==> OwnInv(s))
    ensures TokenInv(Do(s, a))
  {
  }

  lemma TokenInvLocal(s: Server, a: Action)
    requires a.At? && Can(s, a) && TokenInv(s)
    ensures TokenInv(Do(s, a))
  {
    LocalIdentity(s, s.conns[a.c], a.step);
  }

  lemma TokenInvStep(s: Server, a: Action)
    requires Can(s, a) && TokenInv(s) && (s.live ==> OwnInv(s))
    ensures TokenInv(Do(s, a))
  {
    if a.At? {
      TokenInvLocal(s, a);
    } else if a.ResumeAttach? {
      TokenInvAttach(s, a);
    } else if a.Hangup? || a.OpenAttach? {
    } else {
    }
  }

  lemma InvStep(s: Server, a: Action)
    requires Inv(s) && Can(s, a)
    ensures Inv(Do(s, a))
  {
    LogInvStep(s, a);
    forall c | c in Do(s, a).conns ensures ConnInv(Do(s, a), Do(s, a).conns[c]) {
      ConnInvStep(s, a, c);
    }
    OwnInvStep(s, a);
    TokenInvStep(s, a);
  }

  lemma {:induction false} RunInv(s: Server, actions: seq<Action>)
    requires Inv(s) && Exec(s, actions).Some?
    ensures Inv(Exec(s, actions).value)
    decreases |actions|
  {
    if actions != [] {
      var n := |actions| - 1;
      RunInv(s, actions[..n]);
      InvStep(Exec(s, actions[..n]).value, actions[n]);
    }
  }
}
