/**
 What the resume protocol promises, proved of every reachable state of the server:
 nothing newer than the client's cursor is lost, which frames arrive twice, who may free
 the attachment slot, how often a token works, and when a resume can be acknowledged at all.
 */
module ResumeDelivery {
  import opened Basics
  import opened Sessions
  import opened ResumeServer

  ghost predicate Reachable(s: Server) {
    exists capacity, token, now, actions :: Exec(Init(capacity, token, now), actions) == Some(s)
  }

  lemma ReachableInv(s: Server)
    requires Reachable(s)
    ensures Inv(s)
  {
    var capacity, token, now, actions :| Exec(Init(capacity, token, now), actions) == Some(s);
    InitInv(capacity, token, now);
    RunInv(Init(capacity, token, now), actions);
  }

  // ---------------------------------------------------------------------------
  // Delivery
  // ---------------------------------------------------------------------------

  /** The frame that message m of connection conn carries, if any. */
  function FrameOf(s: Server, conn: Conn, m: Msg): Option<nat> {
    match m
    case Live(p) => if p < |s.sent| && s.sent[p].Output? then Some(s.sent[p].frame) else None
    case Replayed(j) => if j < |conn.replay| then Some(conn.replay[j]) else None
    case Ack(_) => None
  }

  ghost predicate InChannel(s: Server, conn: Conn, i: nat) {
    exists k :: 0 <= k < |conn.out| && FrameOf(s, conn, conn.out[k]) == Some(i)
  }

  /** Frame i has yet to reach the response channel of conn. */
  ghost predicate OnItsWay(s: Server, conn: Conn, i: nat) {
    i >= |s.at| || s.at[i] >= conn.next || conn.hand == Some(s.at[i])
  }

  predicate LostToLag(s: Server, conn: Conn, i: nat) {
    i < |s.at| && s.at[i] in conn.skipped
  }

  /**
   A resume loses nothing: every frame after the client's cursor that the buffer still held, and
   every frame at all whose broadcast comes after the subscription, has entered the client's
   channel, is still on its way to it, or was overwritten in the broadcast channel before the
   forwarder got to it. Frames recorded after the buffer was read are of the second kind.
   */
  lemma ResumeLosesNothing(s: Server, c: nat, i: nat)
    requires Reachable(s) && c in s.conns
    requires s.conns[c].phase.Serving? && !s.conns[c].gone
    requires i < |s.log|
    requires || (s.conns[c].evicted <= i < s.conns[c].known && s.conns[c].since.Before(s.log[i]))
             || i >= |s.at| || s.at[i] >= s.conns[c].start
    ensures InChannel(s, s.conns[c], i) || OnItsWay(s, s.conns[c], i) || LostToLag(s, s.conns[c], i)
    ensures s.conns[c].known <= i < |s.at| ==> s.at[i] >= s.conns[c].start
  {
    ReachableInv(s);
    var conn := s.conns[c];
    assert ConnInv(s, conn);
    if conn.evicted <= i < conn.known && conn.since.Before(s.log[i]) {
      ReplayedFrame(s, conn, i);
    } else if !OnItsWay(s, conn, i) && !LostToLag(s, conn, i) {
      LiveFrame(s, conn, i);
    }
  }

  lemma ReplayedFrame(s: Server, conn: Conn, i: nat)
    requires ReplayInv(conn) && PhaseInv(conn) && conn.phase.Serving? && i in conn.replay
    ensures InChannel(s, conn, i)
  {
    var j :| 0 <= j < |conn.replay| && conn.replay[j] == i;
    assert Replayed(j) in conn.out;
    var k :| 0 <= k < |conn.out| && conn.out[k] == Replayed(j);
    assert FrameOf(s, conn, conn.out[k]) == Some(i);
  }

  lemma LiveFrame(s: Server, conn: Conn, i: nat)
    requires BroadcastInOrder(s.sent, s.at) && LiveInv(conn, |s.sent|) && conn.forwarding
    requires i < |s.at| && conn.start <= s.at[i] && !OnItsWay(s, conn, i) && !LostToLag(s, conn, i)
    ensures Live(s.at[i]) in conn.out && InChannel(s, conn, i)
  {
    assert Live(s.at[i]) in conn.out;
    var k :| 0 <= k < |conn.out| && conn.out[k] == Live(s.at[i]);
    assert FrameOf(s, conn, conn.out[k]) == Some(i);
  }

  /** A message is the live copy of a frame broadcast after the subscription, or comes from the replay. */
  lemma CarriedBy(s: Server, conn: Conn, k: nat)
    requires BroadcastInOrder(s.sent, s.at) && LiveInv(conn, |s.sent|) && k < |conn.out| && FrameOf(s, conn, conn.out[k]).Some?
    ensures var j := FrameOf(s, conn, conn.out[k]).value;
            || (conn.out[k].Live? && j < |s.at| && conn.start <= s.at[j] == conn.out[k].at)
            || (conn.out[k].Replayed? && j in conn.replay)
  {
    if conn.out[k].Replayed? {
      assert conn.replay[conn.out[k].index] in conn.replay;
    }
  }

  /** The producer is idle and everything broadcast has been forwarded, nothing having been overwritten. */
  ghost predicate Quiet(s: Server, conn: Conn) {
    s.inflight.None? && conn.next == |s.sent| && conn.hand.None? && conn.skipped == {}
  }

  /** How many of the given messages carry frame i. */
  function Occurrences(s: Server, conn: Conn, out: seq<Msg>, i: nat): nat {
    if out == [] then 0
    else
      var n := |out| - 1;
      Occurrences(s, conn, out[..n], i) + (if FrameOf(s, conn, out[n]) == Some(i) then 1 else 0)
  }

  /**
   Exactly which frames a client gets, and how often: once when the frame was replayed, and
   once when it was broadcast after the subscription. So the frames that arrive twice are
   those recorded before the buffer was read (and retained, and after the cursor) whose
   broadcast came after the subscription, and no frame arrives three times.
   */
  lemma DeliveryCount(s: Server, c: nat, i: nat)
    requires Reachable(s) && c in s.conns
    requires s.conns[c].phase.Serving? && !s.conns[c].gone && Quiet(s, s.conns[c])
    requires i < |s.log|
    ensures var conn := s.conns[c];
            var replayed := conn.evicted <= i < conn.known && conn.since.Before(s.log[i]);
            && |s.at| == |s.log|
            && Occurrences(s, conn, conn.out, i) ==
               (if replayed then 1 else 0) + (if s.at[i] >= conn.start then 1 else 0)
            && (i >= conn.known ==> s.at[i] >= conn.start)
  {
    ReachableInv(s);
    var conn := s.conns[c];
    assert ConnInv(s, conn);
    ReplayedOnce(s, conn, i);
    LiveOnce(s, conn, i);
  }

  /** Frame i occurs once more than its live message when it is in the replay. */
  lemma ReplayedOnce(s: Server, conn: Conn, i: nat)
    requires BroadcastInOrder(s.sent, s.at) && i < |s.at|
    requires ReplayInv(conn) && conn.replayed == |conn.replay|
    requires forall j, k :: 0 <= j < k < |conn.replay| ==> conn.replay[j] < conn.replay[k]
    ensures Occurrences(s, conn, conn.out, i) == CountMsg(conn.out, Live(s.at[i])) + (if i in conn.replay then 1 else 0)
  {
    if i in conn.replay {
      var j :| 0 <= j < |conn.replay| && conn.replay[j] == i;
      OccurrencesSplit(s, conn, conn.out, i, Some(j));
      assert Replayed(j) in conn.out;
      CountOnce(conn.out, Replayed(j));
    } else {
      OccurrencesSplit(s, conn, conn.out, i, None);
    }
  }

  lemma LiveOnce(s: Server, conn: Conn, i: nat)
    requires BroadcastInOrder(s.sent, s.at) && i < |s.at|
    requires LiveInv(conn, |s.sent|) && conn.forwarding && Quiet(s, conn)
    ensures CountMsg(conn.out, Live(s.at[i])) == if s.at[i] >= conn.start then 1 else 0
  {
    if s.at[i] >= conn.start {
      LiveFrame(s, conn, i);
      CountOnce(conn.out, Live(s.at[i]));
    } else {
      CountNever(conn.out, Live(s.at[i]));
    }
  }

  function CountMsg(out: seq<Msg>, m: Msg): nat {
    if out == [] then 0
    else CountMsg(out[..|out| - 1], m) + (if out[|out| - 1] == m then 1 else 0)
  }

  lemma {:induction false} CountNever(out: seq<Msg>, m: Msg)
    requires m !in out
    ensures CountMsg(out, m) == 0
    decreases |out|
  {
    if out != [] {
      CountNever(out[..|out| - 1], m);
    }
  }

  lemma {:induction false} CountOnce(out: seq<Msg>, m: Msg)
    requires m in out && forall k, l :: 0 <= k < l < |out| && out[k] == m ==> out[l] != m
    ensures CountMsg(out, m) == 1
    decreases |out|
  {
    var n := |out| - 1;
    if out[n] == m {
      CountNever(out[..n], m);
    } else {
      CountOnce(out[..n], m);
    }
  }

  /** The messages that carry frame i are its live message and, if it is replayed, its replay message. */
  lemma {:induction false} OccurrencesSplit(s: Server, conn: Conn, out: seq<Msg>, i: nat, j: Option<nat>)
    requires BroadcastInOrder(s.sent, s.at) && i < |s.at|
    requires forall x, y :: 0 <= x < y < |conn.replay| ==> conn.replay[x] < conn.replay[y]
    requires j.None? ==> i !in conn.replay
    requires j.Some? ==> j.value < |conn.replay| && conn.replay[j.value] == i
    ensures Occurrences(s, conn, out, i) ==
            CountMsg(out, Live(s.at[i])) + (if j.Some? then CountMsg(out, Replayed(j.value)) else 0)
    decreases |out|
  {
    if out != [] {
      var n := |out| - 1;
      OccurrencesSplit(s, conn, out[..n], i, j);
      match out[n]
      case Live(p) => assert FrameOf(s, conn, out[n]) == Some(i) <==> p == s.at[i];
      case Replayed(x) => assert FrameOf(s, conn, out[n]) == Some(i) <==> j == Some(x);
      case Ack(_) =>
    }
  }

  // ---------------------------------------------------------------------------
  // The order of the numbers in a channel
  // ---------------------------------------------------------------------------

  ghost predicate CarriesFrame(s: Server, conn: Conn, k: nat, j: nat) {
    k < |conn.out| && FrameOf(s, conn, conn.out[k]) == Some(j)
  }

  /** Replayed messages are in frame order, and so are live ones. */
  lemma SameKindIncreases(s: Server, conn: Conn, k: nat, l: nat, i: nat, j: nat)
    requires LogInv(s) && ConnInv(s, conn) && k < l && CarriesFrame(s, conn, k, i) && CarriesFrame(s, conn, l, j)
    requires conn.out[k].Live? <==> conn.out[l].Live?
    ensures i < j
  {
    if conn.out[k].Live? {
      CarriedBy(s, conn, k);
      CarriedBy(s, conn, l);
    }
  }

  /** Frame j was recorded before conn read the buffer and broadcast after conn subscribed, so conn gets it live as well. */
  ghost predicate Doubled(s: Server, conn: Conn, j: nat) {
    j < conn.known && j < |s.at| && s.at[j] >= conn.start
  }

  /**
   Two messages out of order. Of two messages of one stream, the second carries the smaller number
   if and only if its frame is the earlier one, and then (or if both carry the same frame) one of the
   two is live and the other replayed. Either the second is the live copy of a frame that was recorded
   before the buffer was read and broadcast after the subscription, or it is a replayed frame that a
   live one overtook, which ends with the acknowledgement.
   */
  lemma NumbersCross(s: Server, c: nat, k: nat, l: nat, i: nat, j: nat)
    requires Reachable(s) && c in s.conns && s.conns[c].phase.Serving? && k < l
    requires CarriesFrame(s, s.conns[c], k, i) && CarriesFrame(s, s.conns[c], l, j)
    ensures i < |s.log| && j < |s.log|
    ensures s.log[i].stream == s.log[j].stream ==>
              (s.log[j].sequence < s.log[i].sequence <==> j < i)
    ensures j <= i ==>
              || (s.conns[c].out[k].Replayed? && s.conns[c].out[l].Live? && Doubled(s, s.conns[c], j))
              || (s.conns[c].out[k].Live? && s.conns[c].out[l].Replayed? && l < s.conns[c].ackAt)
  {
    ReachableInv(s);
    assert ConnInv(s, s.conns[c]);
    CrossedMessages(s, s.conns[c], k, l, i, j);
    if s.log[i].stream == s.log[j].stream {
      SequenceOrder(s.log, i, j);
    }
  }

  lemma CrossedMessages(s: Server, conn: Conn, k: nat, l: nat, i: nat, j: nat)
    requires LogInv(s) && ConnInv(s, conn) && conn.phase.Serving? && k < l
    requires CarriesFrame(s, conn, k, i) && CarriesFrame(s, conn, l, j)
    ensures i < |s.log| && j < |s.log|
    ensures j <= i ==>
              || (conn.out[k].Replayed? && conn.out[l].Live? && Doubled(s, conn, j))
              || (conn.out[k].Live? && conn.out[l].Replayed? && l < conn.ackAt)
  {
    CarriedBy(s, conn, k);
    CarriedBy(s, conn, l);
    if conn.out[k].Live? <==> conn.out[l].Live? {
      SameKindIncreases(s, conn, k, l, i, j);
    }
  }

  /** So without such frames, and unless the forwarder gets ahead of the replay, numbers go up along the whole channel. */
  lemma NumbersGoUp(s: Server, c: nat, k: nat, l: nat, i: nat, j: nat)
    requires Reachable(s) && c in s.conns && s.conns[c].phase.Serving? && k < l
    requires CarriesFrame(s, s.conns[c], k, i) && CarriesFrame(s, s.conns[c], l, j)
    requires !Doubled(s, s.conns[c], j) && (l > s.conns[c].ackAt || s.conns[c].out[k].Replayed?)
    ensures i < j < |s.log| && (s.log[i].stream == s.log[j].stream ==> s.log[i].sequence < s.log[j].sequence)
  {
    NumbersCross(s, c, k, l, i, j);
    ReachableInv(s);
    if s.log[i].stream == s.log[j].stream {
      SequenceOrder(s.log, j, i);
    }
  }

  /** Frame i comes after frame j on the same stream. */
  predicate FollowsOn(log: seq<Frame>, j: nat, i: nat) {
    j < |log| && i < |log| && log[i].stream == log[j].stream && log[j].sequence < log[i].sequence
  }

  /** Frame j, which message l carries, has a smaller number than a message before it. */
  ghost predicate GoesDown(s: Server, conn: Conn, l: nat, j: nat) {
    exists k, i :: 0 <= k < l && CarriesFrame(s, conn, k, i) && FollowsOn(s.log, j, i)
  }

  lemma ReplayCarries(s: Server, conn: Conn, i: nat) returns (k: nat)
    requires ReplayInv(conn) && PhaseInv(conn) && conn.phase.Serving? && i in conn.replay
    ensures k < conn.ackAt && CarriesFrame(s, conn, k, i)
  {
    var j :| 0 <= j < |conn.replay| && conn.replay[j] == i;
    assert Replayed(j) in conn.out;
    k :| 0 <= k < |conn.out| && conn.out[k] == Replayed(j);
  }

  lemma DownFromReplay(s: Server, conn: Conn, k: nat, l: nat, i: nat, j: nat)
    requires LogInv(s) && ConnInv(s, conn) && conn.phase.Serving? && l > conn.ackAt && k < l
    requires CarriesFrame(s, conn, k, i) && CarriesFrame(s, conn, l, j) && FollowsOn(s.log, j, i)
    ensures i in conn.replay
  {
    CrossedMessages(s, conn, k, l, i, j);
    SequenceOrder(s.log, j, i);
  }

  lemma ReplayGoesDown(s: Server, conn: Conn, l: nat, i: nat, j: nat)
    requires ReplayInv(conn) && PhaseInv(conn) && conn.phase.Serving? && l > conn.ackAt
    requires i in conn.replay && FollowsOn(s.log, j, i)
    ensures GoesDown(s, conn, l, j)
  {
    var k := ReplayCarries(s, conn, i);
  }

  /** After the acknowledgement a number goes down if and only if a later frame of its stream was replayed. */
  lemma NumberGoesDownIff(s: Server, c: nat, l: nat, j: nat)
    requires Reachable(s) && c in s.conns && s.conns[c].phase.Serving? && l > s.conns[c].ackAt
    requires CarriesFrame(s, s.conns[c], l, j)
    ensures GoesDown(s, s.conns[c], l, j) <==> exists i :: i in s.conns[c].replay && FollowsOn(s.log, j, i)
  {
    ReachableInv(s);
    var conn := s.conns[c];
    assert ConnInv(s, conn);
    if i :| i in conn.replay && FollowsOn(s.log, j, i) {
      ReplayGoesDown(s, conn, l, i, j);
    } else if GoesDown(s, conn, l, j) {
      var k: nat, i: nat :| k < l && CarriesFrame(s, conn, k, i) && FollowsOn(s.log, j, i);
      DownFromReplay(s, conn, k, l, i, j);
    }
  }

  // ---------------------------------------------------------------------------
  // Attachment and tokens
  // ---------------------------------------------------------------------------

  /** The slot is occupied exactly when some connection owns it, and then by that connection alone. */
  lemma SlotHasOneOwner(s: Server, c: nat, d: nat)
    requires Reachable(s) && s.live && c in s.conns && d in s.conns
    ensures Owns(s.conns[c]) ==> s.session.attachment.Some? && s.session.attachment.value.id == s.conns[c].attachmentId
    ensures Owns(s.conns[c]) && Owns(s.conns[d]) ==> c == d
    ensures s.session.attachment.Some? ==> exists e :: e in s.conns && Owns(s.conns[e])
  {
    ReachableInv(s);
    if s.session.attachment.Some? {
      assert Owns(s.conns[s.holder.value]);
    }
  }

  /**
   detach names no attachment, yet a reading task that ends frees its own attachment and no
   other: the slot it empties carried its own id, and afterwards nobody owns the slot.
   */
  lemma DetachFreesOnlyItsOwn(s: Server, c: nat, now: Time)
    requires Reachable(s) && s.live && Can(s, Hangup(c, now))
    ensures s.session.attachment.Some? && s.session.attachment.value.id == s.conns[c].attachmentId
    ensures var t := Do(s, Hangup(c, now));
            t.session.attachment.None? && forall d :: d in t.conns ==> !Owns(t.conns[d])
  {
    ReachableInv(s);
    assert Owns(s.conns[c]);
  }

  /** No token value authorises two resumes. */
  lemma TokenAuthorisesOnce(s: Server, c: nat, d: nat)
    requires Reachable(s) && c in s.conns && d in s.conns && s.conns[c].authorised && s.conns[d].authorised
    ensures s.conns[c].presented == s.conns[d].presented ==> c == d
    ensures s.conns[c].presented != s.session.resumeToken
  {
    ReachableInv(s);
  }

  /**
   As long as a resumed connection holds the slot, the token it was given is the current one,
   so once its stream ends that token, and only that token, resumes the session.
   */
  lemma AckedTokenResumes(s: Server, c: nat, now: Time, t: Token, who: Option<string>, id: nat, next: Token, later: Time)
    requires Reachable(s) && s.live && Can(s, Hangup(c, now)) && !s.conns[c].opener
    ensures Do(s, Hangup(c, now)).session.AttachWithToken(t, who, id, next, later).Ok? <==> t == s.conns[c].nextToken
  {
    ReachableInv(s);
    assert Owns(s.conns[c]);
  }

  // ---------------------------------------------------------------------------
  // When a resume can be acknowledged
  // ---------------------------------------------------------------------------

  /** Channel slots a resume needs before its receiver is handed out: queued, still to replay, and the ack. */
  function SlotsNeeded(conn: Conn): int {
    |conn.out| + (|conn.replay| - conn.replayed) + 1
  }

  /** Past this point a resume is never acknowledged. */
  predicate Doomed(conn: Conn) {
    conn.phase.Failed? || (conn.phase.Replaying? && conn.taken == 0 && SlotsNeeded(conn) > RESPONSE_CAPACITY)
  }

  lemma DoomedLocal(s: Server, conn: Conn, step: Local)
    requires CanLocal(|s.sent|, conn, step) && Doomed(conn)
    ensures Doomed(LocalStep(s, conn, step))
  {
  }

  lemma DoomedStep(s: Server, a: Action, c: nat)
    requires Can(s, a) && c in s.conns && Doomed(s.conns[c])
    ensures c in Do(s, a).conns && Doomed(Do(s, a).conns[c])
  {
    if a.At? && a.c == c {
      DoomedLocal(s, s.conns[c], a.step);
    } else {
      ConnFrame(s, a, c);
    }
  }

  lemma {:induction false} DoomedForever(s: Server, actions: seq<Action>, c: nat)
    requires c in s.conns && Doomed(s.conns[c]) && Exec(s, actions).Some?
    ensures c in Exec(s, actions).value.conns && Doomed(Exec(s, actions).value.conns[c])
    decreases |actions|
  {
    if actions != [] {
      var n := |actions| - 1;
      DoomedForever(s, actions[..n], c);
      DoomedStep(Exec(s, actions[..n]).value, actions[n], c);
    }
  }

  lemma ExecOne(s: Server, a: Action)
    requires Can(s, a)
    ensures Exec(s, [a]) == Some(Do(s, a))
  {
    assert [a][..0] == [];
  }

  lemma ReplaysOne(s: Server, c: nat)
    requires c in s.conns && s.conns[c].phase.Replaying? && s.conns[c].taken == 0
    requires s.conns[c].replayed < |s.conns[c].replay| && SlotsNeeded(s.conns[c]) <= RESPONSE_CAPACITY
    ensures Can(s, At(c, SendReplay))
    ensures var t := Do(s, At(c, SendReplay));
            && c in t.conns && t.conns[c] == AfterReplay(s.conns[c]) && SlotsNeeded(t.conns[c]) <= RESPONSE_CAPACITY
  {
  }

  lemma Acknowledges(s: Server, c: nat)
    requires c in s.conns && s.conns[c].phase.Replaying? && s.conns[c].taken == 0
    requires s.conns[c].replayed == |s.conns[c].replay| && SlotsNeeded(s.conns[c]) <= RESPONSE_CAPACITY
    ensures Can(s, At(c, SendAck))
    ensures var t := Do(s, At(c, SendAck)); c in t.conns && t.conns[c].phase.Serving?
  {
  }

  lemma {:induction false} HandlerFinishes(s: Server, c: nat) returns (actions: seq<Action>)
    requires c in s.conns && s.conns[c].phase.Replaying? && s.conns[c].taken == 0
    requires s.conns[c].replayed <= |s.conns[c].replay|
    requires SlotsNeeded(s.conns[c]) <= RESPONSE_CAPACITY
    ensures Exec(s, actions).Some?
    ensures c in Exec(s, actions).value.conns && Exec(s, actions).value.conns[c].phase.Serving?
    decreases |s.conns[c].replay| - s.conns[c].replayed
  {
    if s.conns[c].replayed == |s.conns[c].replay| {
      actions := [At(c, SendAck)];
      Acknowledges(s, c);
      ExecOne(s, At(c, SendAck));
    } else {
      ReplaysOne(s, c);
      ExecOne(s, At(c, SendReplay));
      var rest := HandlerFinishes(Do(s, At(c, SendReplay)), c);
      actions := [At(c, SendReplay)] + rest;
      ExecAppend(s, [At(c, SendReplay)], rest);
    }
  }

  lemma {:induction false} ExecAppend(s: Server, a: seq<Action>, b: seq<Action>)
    requires Exec(s, a).Some?
    ensures Exec(s, a + b) == Exec(Exec(s, a).value, b)
    decreases |b|
  {
    if b == [] {
      assert a + b == a;
    } else {
      var n := |b| - 1;
      assert (a + b)[..|a + b| - 1] == a + b[..n];
      assert (a + b)[|a + b| - 1] == b[n];
      ExecAppend(s, a, b[..n]);
    }
  }

  /**
   The receiver is handed out only after the acknowledgement, so nothing drains the channel
   before: from any reachable state, a resume can still be acknowledged exactly when what is
   queued, what is left to replay and the acknowledgement together fit the channel.
   */
  lemma ResumeCompletesIffItFits(s: Server, c: nat)
    requires Reachable(s) && c in s.conns && s.conns[c].phase.Replaying?
    ensures (exists actions :: Exec(s, actions).Some? && c in Exec(s, actions).value.conns
                               && Exec(s, actions).value.conns[c].phase.Serving?)
            <==> SlotsNeeded(s.conns[c]) <= 128
  {
    ReachableInv(s);
    var conn := s.conns[c];
    assert ConnInv(s, conn);
    if SlotsNeeded(conn) <= RESPONSE_CAPACITY {
      var actions := HandlerFinishes(s, c);
    } else {
      forall actions | Exec(s, actions).Some?
        ensures c in Exec(s, actions).value.conns && !Exec(s, actions).value.conns[c].phase.Serving?
      {
        DoomedForever(s, actions, c);
      }
    }
  }

  /**
   Every acknowledged resume replayed at most 127 frames, although the buffer may hold 1024:
   the acknowledgement sits behind the whole replay and the live messages queued before it.
   */
  lemma AcknowledgedReplayFits(s: Server, c: nat)
    requires Reachable(s) && c in s.conns && s.conns[c].phase.Serving? && !s.conns[c].opener
    ensures var conn := s.conns[c];
            && conn.ackAt < |conn.out| && conn.out[conn.ackAt] == Ack(conn.nextToken)
            && |conn.replay| + LiveCount(conn.out[..conn.ackAt]) + 1 == conn.ackAt + 1 <= RESPONSE_CAPACITY
  {
    ReachableInv(s);
    assert ConnInv(s, s.conns[c]);
  }
}
