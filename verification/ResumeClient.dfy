/**
 The client's side of a resumable session, run against every behaviour of the server. The
 client keeps one cursor per stream, assigns it (never takes a maximum) on each frame it
 receives, and presents it again after a broken connection.
 */
module ResumeClient {
  import opened Basics
  import opened Sessions
  import opened ResumeServer
  import opened ResumeDelivery

  /** The last sequence seen per stream; 0 before the first frame. */
  datatype Cursors = Cursors(stdout: nat, stderr: nat) {
    function Of(s: OutputStream): nat {
      if s.Stdout? then stdout else stderr
    }

    /** The cursors after receiving frame f: plain assignment. */
    function With(f: Frame): Cursors {
      if f.sequence == 0 then this
      else if f.stream.Stderr? then this.(stderr := f.sequence) else this.(stdout := f.sequence)
    }

    function Request(): Cursor {
      Cursor(if stdout > 0 then Some(stdout) else None, if stderr > 0 then Some(stderr) else None)
    }

    predicate Reached(f: Frame) {
      f.sequence <= Of(f.stream)
    }
  }

  datatype Stage =
    | Idle      // holds only a saved resume state
    | Resuming  // inside resume_capability_session
    | Active    // holds a session

  datatype Client = Client(
    stage: Stage,
    conn: nat,               // the current connection, unless idle
    mine: set<nat>,          // the connections this client ever opened
    last: Cursors,           // cursors of the session, or of the saved resume state
    token: Token,
    seen: Cursors,           // cursors local to the resume under way
    collected: seq<nat>,     // frames collected by the resume under way
    pending: seq<nat>,       // frames collected by the last resume and not yet handed out
    handed: set<nat>,        // frames the application has received
    evicted: set<nat>,       // frames after the cursor that the buffer had forgotten at a resume
    lagged: set<nat>,        // frames that earlier connections lost to lag
    dropped: set<nat>,       // frames still pending when a session was given up
    hasty: bool)             // some session was given up with frames pending

  datatype World = World(server: Server, client: Client)

  function Start(capacity: nat, token: Token, now: Time): World {
    World(Init(capacity, token, now),
          Client(Active, 0, {0}, Cursors(0, 0), token, Cursors(0, 0), [], [], {}, {}, {}, {}, false))
  }

  // ---------------------------------------------------------------------------
  // Steps
  // ---------------------------------------------------------------------------

  datatype Step =
    | Environment(a: Action)  // the server and everybody else
    | Begin(c: nat)           // present the saved token and cursors on a new connection
    | Receive                 // take the next event
    | GiveUp                  // the resume under way fails
    | Disconnect              // save the resume state and drop the session

  /** Frame i of the log, and nothing for other messages. */
  function NextFrameIndex(w: World): Option<nat>
    requires Can(w.server, At(w.client.conn, Take))
  {
    var conn := w.server.conns[w.client.conn];
    match FrameOf(w.server, conn, conn.out[conn.taken])
    case Some(i) => if i < |w.server.log| then Some(i) else None
    case None => None
  }

  predicate Enabled(w: World, step: Step) {
    match step
    case Environment(a) => Can(w.server, a) && (a.At? && a.step.Take? ==> w.client.stage.Idle? || a.c != w.client.conn)
    case Begin(c) => w.client.stage.Idle? && Can(w.server, Subscribe(c, w.client.token, w.client.last.Request()))
    case Receive =>
      || (w.client.stage.Active? && w.client.pending != [])
      || (!w.client.stage.Idle? && Can(w.server, At(w.client.conn, Take)))
    case GiveUp => w.client.stage.Resuming?
    case Disconnect => w.client.stage.Active?
  }

  /** One message while resuming: collect frames, stop on the acknowledgement, fail on a terminal event. */
  function ResumeReceives(w: World): Client
    requires Can(w.server, At(w.client.conn, Take))
  {
    var s, c := w.server, w.client;
    var conn := s.conns[c.conn];
    match conn.out[conn.taken]
    case Ack(t) =>
      c.(stage := Active, last := c.seen, token := t, pending := c.collected,
         evicted := c.evicted + ForgottenAfter(s.log, conn.evicted, conn.since))
    case Replayed(_) | Live(_) =>
      match NextFrameIndex(w)
      case Some(i) => c.(seen := c.seen.With(s.log[i]), collected := c.collected + [i])
      case None =>
        if Terminal(s, conn.out[conn.taken]) then c.(stage := Idle) else c
  }

  predicate Terminal(s: Server, m: Msg) {
    m.Live? && m.at < |s.sent| && (s.sent[m.at].Exit? || s.sent[m.at].Failure? || s.sent[m.at].Closed?)
  }

  /** The frames of log[..n] after the cursor. */
  function ForgottenAfter(log: seq<Frame>, n: nat, since: Cursor): set<nat> {
    set i | i in Range(0, n) && i < |log| && since.Before(log[i])
  }

  /** The frames whose broadcast a connection lost to lag. */
  function LaggedFrames(s: Server, conn: Conn): set<nat> {
    set i | i in Range(0, |s.at|) && LostToLag(s, conn, i)
  }

  function SessionReceives(w: World): Client
    requires Can(w.server, At(w.client.conn, Take))
  {
    var s, c := w.server, w.client;
    var conn := s.conns[c.conn];
    match conn.out[conn.taken]
    case Ack(t) => c.(token := t)
    case Replayed(_) | Live(_) =>
      match NextFrameIndex(w)
      case Some(i) => c.(last := c.last.With(s.log[i]), handed := c.handed + {i})
      case None => c
  }

  function Next(w: World, step: Step): World
    requires Enabled(w, step)
  {
    var s, c := w.server, w.client;
    match step
    case Environment(a) => w.(server := Do(s, a))
    case Begin(n) =>
      World(Do(s, Subscribe(n, c.token, c.last.Request())),
            c.(stage := Resuming, conn := n, mine := c.mine + {n}, seen := c.last, collected := [], pending := []))
    case Receive =>
      if c.stage.Active? && c.pending != [] then
        w.(client := c.(pending := c.pending[1..], handed := c.handed + {c.pending[0]}))
      else
        World(Do(s, At(c.conn, Take)), if c.stage.Active? then SessionReceives(w) else ResumeReceives(w))
    case GiveUp => w.(client := c.(stage := Idle))
    case Disconnect =>
      w.(client := c.(stage := Idle, pending := [],
                      lagged := c.lagged + (if c.conn in s.conns then LaggedFrames(s, s.conns[c.conn]) else {}),
                      dropped := c.dropped + Elements(c.pending),
                      hasty := c.hasty || c.pending != []))
  }

  function Run(w: World, steps: seq<Step>): Option<World> {
    if steps == [] then Some(w)
    else
      var v := Run(w, steps[..|steps| - 1]);
      if v.Some? && Enabled(v.value, steps[|steps| - 1]) then Some(Next(v.value, steps[|steps| - 1])) else None
  }

  ghost predicate Reachable(w: World) {
    exists capacity, token, now, steps :: Run(Start(capacity, token, now), steps) == Some(w)
  }

  // ---------------------------------------------------------------------------
  // Invariants
  // ---------------------------------------------------------------------------

  /** Message k, already taken by the client, carries number n of a stream. */
  ghost predicate Carries(s: Server, conn: Conn, k: nat, stream: OutputStream, n: nat) {
    && k < conn.taken <= |conn.out|
    && FrameOf(s, conn, conn.out[k]).Some?
    && FrameOf(s, conn, conn.out[k]).value < |s.log|
    && s.log[FrameOf(s, conn, conn.out[k]).value].stream == stream
    && s.log[FrameOf(s, conn, conn.out[k]).value].sequence == n
  }

  /** A cursor is the one the connection started from, or was set by a message taken from it. */
  ghost predicate CursorFrom(s: Server, conn: Conn, stream: OutputStream, n: nat) {
    n == Base(conn, stream) || exists k :: Carries(s, conn, k, stream, n)
  }

  function Base(conn: Conn, stream: OutputStream): nat {
    if stream.Stdout? then conn.since.stdout.GetOr(0) else conn.since.stderr.GetOr(0)
  }

  ghost predicate CursorsFrom(s: Server, conn: Conn, c: Cursors) {
    CursorFrom(s, conn, Stdout, c.stdout) && CursorFrom(s, conn, Stderr, c.stderr)
  }

  ghost predicate TakenAreIn(s: Server, conn: Conn, got: set<nat>) {
    forall k :: 0 <= k < conn.taken <= |conn.out| && FrameOf(s, conn, conn.out[k]).Some? ==>
      FrameOf(s, conn, conn.out[k]).value in got
  }

  /** Every frame the cursors have reached is in `known`. */
  ghost predicate Sound(log: seq<Frame>, c: Cursors, known: set<nat>) {
    forall i :: 0 <= i < |log| && c.Reached(log[i]) ==> i in known
  }

  /** The cursors have not run ahead of the numbering. */
  ghost predicate Bounded(session: Session, c: Cursors) {
    c.stdout < session.stdoutNext && c.stderr < session.stderrNext
  }

  function Lost(c: Client): set<nat> {
    c.evicted + c.lagged + c.dropped
  }

  function Elements(s: seq<nat>): set<nat> {
    set i | i in s
  }

  function Pending(c: Client): set<nat> {
    Elements(c.pending)
  }

  ghost predicate ResumingInv(w: World) {
    var s, c := w.server, w.client;
    && c.conn in s.conns
    && var conn := s.conns[c.conn];
    && !conn.opener && conn.since == c.last.Request()
    && Bounded(s.session, c.seen)
    && CursorsFrom(s, conn, c.seen)
    && TakenAreIn(s, conn, Elements(c.collected))
    && (conn.phase.Serving? ==> conn.taken <= conn.ackAt)
  }

  ghost predicate ActiveInv(w: World) {
    var s, c := w.server, w.client;
    && c.conn in s.conns
    && var conn := s.conns[c.conn];
    && (conn.opener || (conn.phase.Serving? && conn.ackAt < conn.taken))
    && Base(conn, Stdout) < s.session.stdoutNext && Base(conn, Stderr) < s.session.stderrNext
    && CursorsFrom(s, conn, c.last)
    && TakenAreIn(s, conn, c.handed + Pending(c))
    && BaseSound(s.log, conn, c)
  }

  /** The cursor a connection started from was sound, and what it could not replay is accounted for. */
  ghost predicate BaseSound(log: seq<Frame>, conn: Conn, c: Client) {
    && (forall i :: 0 <= i < |log| && !conn.since.Before(log[i]) ==> i in c.handed + Lost(c))
    && (forall i :: 0 <= i < conn.evicted && i < |log| && conn.since.Before(log[i]) ==> i in c.evicted)
  }

  ghost predicate ClientInv(w: World) {
    && Bounded(w.server.session, w.client.last)
    && (!w.client.stage.Active? ==> Sound(w.server.log, w.client.last, w.client.handed + Lost(w.client)))
    && (w.client.stage.Resuming? ==> ResumingInv(w))
    && (w.client.stage.Active? ==> ActiveInv(w))
  }

  // ---------------------------------------------------------------------------
  // Cursor soundness of an active session
  // ---------------------------------------------------------------------------

  /** Live messages are taken in broadcast order, so an earlier frame was taken, or lost to lag, before a later one. */
  lemma EarlierLiveFrame(s: Server, conn: Conn, i: nat, k: nat, got: set<nat>)
    requires BroadcastInOrder(s.sent, s.at) && LiveInv(conn, |s.sent|) && TakenAreIn(s, conn, got)
    requires k < conn.taken <= |conn.out| && conn.out[k].Live? && conn.out[k].at < |s.sent|
    requires i < |s.at| && conn.start <= s.at[i] <= conn.out[k].at
    ensures i in got || LostToLag(s, conn, i)
  {
    var p := s.at[i];
    if p !in conn.skipped {
      assert Live(p) in conn.out;
      var l :| 0 <= l < |conn.out| && conn.out[l] == Live(p);
      assert l <= k;
      assert FrameOf(s, conn, conn.out[l]) == Some(i);
    }
  }

  /** Along one stream, the frames up to one that was taken are known, if the connection retained them. */
  lemma FrameBelowTaken(s: Server, conn: Conn, i: nat, k: nat, n: nat, got: set<nat>)
    requires LogInv(s) && ConnInv(s, conn) && TakenAreIn(s, conn, got)
    requires conn.opener || (conn.phase.Serving? && conn.ackAt < conn.taken)
    requires conn.evicted <= i < |s.log| && conn.since.Before(s.log[i])
    requires Carries(s, conn, k, s.log[i].stream, n) && s.log[i].sequence <= n
    ensures i in got || LostToLag(s, conn, i)
  {
    var j := FrameOf(s, conn, conn.out[k]).value;
    SequenceOrder(s.log, i, j);
    assert conn.phase.Serving?;
    if i < conn.known {
      TakenReplay(s, conn, i, got);
    } else {
      assert conn.out[k].Live?;
      assert j < |s.at| && s.at[j] == conn.out[k].at;
      assert s.at[i] >= conn.start;
      EarlierLiveFrame(s, conn, i, k, got);
    }
  }

  lemma TakenReplay(s: Server, conn: Conn, i: nat, got: set<nat>)
    requires ReplayInv(conn) && PhaseInv(conn) && TakenAreIn(s, conn, got) && i in conn.replay
    requires conn.phase.Serving? && (conn.opener || conn.ackAt < conn.taken)
    ensures i in got
  {
    var j :| 0 <= j < |conn.replay| && conn.replay[j] == i;
    assert Replayed(j) in conn.out;
    var k :| 0 <= k < |conn.out| && conn.out[k] == Replayed(j);
    assert FrameOf(s, conn, conn.out[k]) == Some(i);
  }

  /**
   While a session is active, every frame its cursors have reached was handed out, is pending,
   or is accounted for as lost. The cursors may still move backwards: live messages that were
   also replayed can arrive late, and each of them is assigned.
   */
  lemma ActiveSound(w: World)
    requires LogInv(w.server) && ActiveInv(w) && ConnInv(w.server, w.server.conns[w.client.conn])
    ensures Sound(w.server.log, w.client.last,
                  w.client.handed + Pending(w.client) + Lost(w.client) + LaggedFrames(w.server, w.server.conns[w.client.conn]))
  {
    var s, c := w.server, w.client;
    var conn := s.conns[c.conn];
    forall i | 0 <= i < |s.log| && c.last.Reached(s.log[i])
      ensures i in c.handed + Pending(c) + Lost(c) + LaggedFrames(s, conn)
    {
      if conn.since.Before(s.log[i]) && i >= conn.evicted {
        ReachedByTaking(s, conn, c.last, i, c.handed + Pending(c));
      }
    }
  }

  /** A cursor past a frame that the connection still had to deliver was set by a message at or after it. */
  lemma ReachedByTaking(s: Server, conn: Conn, last: Cursors, i: nat, got: set<nat>)
    requires LogInv(s) && ConnInv(s, conn) && TakenAreIn(s, conn, got) && CursorsFrom(s, conn, last)
    requires conn.opener || (conn.phase.Serving? && conn.ackAt < conn.taken)
    requires conn.evicted <= i < |s.log| && conn.since.Before(s.log[i]) && last.Reached(s.log[i])
    ensures i in got || LostToLag(s, conn, i)
  {
    var stream := s.log[i].stream;
    var n := last.Of(stream);
    assert s.log[i].sequence >= 1;
    assert n != Base(conn, stream);
    var k :| Carries(s, conn, k, stream, n);
    FrameBelowTaken(s, conn, i, k, n, got);
  }

  // ---------------------------------------------------------------------------
  // Every step keeps the client's invariant
  // ---------------------------------------------------------------------------

  /** What a step of the environment leaves alone on connection c. */
  ghost predicate Continues(s: Server, t: Server, c: nat) {
    && c in s.conns && c in t.conns
    && s.log <= t.log && s.sent <= t.sent && s.at <= t.at
    && s.session.stdoutNext <= t.session.stdoutNext && s.session.stderrNext <= t.session.stderrNext
    && var conn, conn' := s.conns[c], t.conns[c];
    && conn'.opener == conn.opener && conn'.since == conn.since && conn'.taken == conn.taken
    && (conn.phase.Serving? ==>
          && conn'.phase.Serving? && conn.out <= conn'.out && conn'.replay == conn.replay
          && conn'.evicted == conn.evicted && conn'.ackAt == conn.ackAt)
    && (conn.opener ==> conn'.evicted == conn.evicted)
  }

  lemma LocalContinues(s: Server, conn: Conn, step: Local)
    requires CanLocal(|s.sent|, conn, step) && !step.Take? && PhaseInv(conn)
    ensures var conn' := LocalStep(s, conn, step);
            && conn'.opener == conn.opener && conn'.since == conn.since && conn'.taken == conn.taken
            && (conn.phase.Serving? ==>
                  && conn'.phase.Serving? && conn.out <= conn'.out && conn'.replay == conn.replay
                  && conn'.evicted == conn.evicted && conn'.ackAt == conn.ackAt)
            && (conn.opener ==> conn'.evicted == conn.evicted)
  {
  }

  lemma EnvironmentContinues(s: Server, a: Action, c: nat)
    requires Can(s, a) && c in s.conns && PhaseInv(s.conns[c]) && !(a.At? && a.step.Take? && a.c == c)
    ensures Continues(s, Do(s, a), c)
  {
    if a.At? && a.c == c {
      OwnStepContinues(s, c, a.step);
    } else if a.Record? || a.Broadcast? {
      GrowthContinues(s, a, c);
    } else {
      OtherStepContinues(s, a, c);
    }
  }

  lemma OwnStepContinues(s: Server, c: nat, step: Local)
    requires Can(s, At(c, step)) && !step.Take? && PhaseInv(s.conns[c])
    ensures Continues(s, Do(s, At(c, step)), c)
  {
    LocalContinues(s, s.conns[c], step);
  }

  lemma OtherStepContinues(s: Server, a: Action, c: nat)
    requires Can(s, a) && c in s.conns && PhaseInv(s.conns[c]) && !(a.At? && a.c == c) && !a.Record? && !a.Broadcast?
    ensures Continues(s, Do(s, a), c)
  {
    LogFrame(s, a);
    ConnFrame(s, a, c);
  }

  lemma GrowthContinues(s: Server, a: Action, c: nat)
    requires Can(s, a) && c in s.conns && (a.Record? || a.Broadcast?)
    ensures Continues(s, Do(s, a), c)
  {
  }

  lemma FrameStays(s: Server, t: Server, c: nat, k: nat)
    requires Continues(s, t, c) && ConnInv(s, s.conns[c]) && k < s.conns[c].taken
    ensures k < |s.conns[c].out| && k < |t.conns[c].out|
    ensures FrameOf(t, t.conns[c], t.conns[c].out[k]) == FrameOf(s, s.conns[c], s.conns[c].out[k])
  {
    assert s.conns[c].phase.Serving?;
    assert t.conns[c].out[k] == s.conns[c].out[k];
  }

  lemma CursorStays(s: Server, t: Server, c: nat, stream: OutputStream, n: nat)
    requires Continues(s, t, c) && ConnInv(s, s.conns[c]) && CursorFrom(s, s.conns[c], stream, n)
    requires t.conns[c].taken <= |t.conns[c].out|
    ensures CursorFrom(t, t.conns[c], stream, n)
  {
    if n != Base(s.conns[c], stream) {
      var k :| Carries(s, s.conns[c], k, stream, n);
      FrameStays(s, t, c, k);
      assert Carries(t, t.conns[c], k, stream, n);
    }
  }

  lemma TakenStay(s: Server, t: Server, c: nat, got: set<nat>)
    requires Continues(s, t, c) && ConnInv(s, s.conns[c]) && TakenAreIn(s, s.conns[c], got)
    ensures TakenAreIn(t, t.conns[c], got)
  {
    forall k | 0 <= k < t.conns[c].taken <= |t.conns[c].out| && FrameOf(t, t.conns[c], t.conns[c].out[k]).Some?
      ensures FrameOf(t, t.conns[c], t.conns[c].out[k]).value in got
    {
      FrameStays(s, t, c, k);
    }
  }

  lemma SoundStays(s: Server, a: Action, c: Cursors, known: set<nat>)
    requires Can(s, a) && Bounded(s.session, c)
    ensures Bounded(Do(s, a).session, c)
    ensures Sound(s.log, c, known) ==> Sound(Do(s, a).log, c, known)
  {
    if !a.Record? && !a.Broadcast? {
      LogFrame(s, a);
    }
  }

  lemma EnvironmentKeepsResuming(w: World, a: Action)
    requires Inv(w.server) && ResumingInv(w) && w.client.stage.Resuming? && Enabled(w, Environment(a))
    ensures ResumingInv(Next(w, Environment(a)))
  {
    var s, t, c := w.server, Do(w.server, a), w.client;
    assert ConnInv(s, s.conns[c.conn]);
    EnvironmentContinues(s, a, c.conn);
    ConnInvStep(s, a, c.conn);
    CursorStays(s, t, c.conn, Stdout, c.seen.stdout);
    CursorStays(s, t, c.conn, Stderr, c.seen.stderr);
    TakenStay(s, t, c.conn, Elements(c.collected));
  }

  lemma BaseStays(s: Server, a: Action, n: nat, c: Client)
    requires Can(s, a) && n in s.conns && Continues(s, Do(s, a), n)
    requires s.conns[n].evicted <= |s.log| && (s.conns[n].opener || s.conns[n].phase.Serving?)
    requires Base(s.conns[n], Stdout) < s.session.stdoutNext && Base(s.conns[n], Stderr) < s.session.stderrNext
    requires BaseSound(s.log, s.conns[n], c)
    ensures BaseSound(Do(s, a).log, Do(s, a).conns[n], c)
  {
    if !a.Record? && !a.Broadcast? {
      LogFrame(s, a);
    }
  }

  lemma EnvironmentKeepsActive(w: World, a: Action)
    requires Inv(w.server) && ActiveInv(w) && w.client.stage.Active? && Enabled(w, Environment(a))
    ensures ActiveInv(Next(w, Environment(a)))
  {
    var s, t, c := w.server, Do(w.server, a), w.client;
    assert ConnInv(s, s.conns[c.conn]);
    EnvironmentContinues(s, a, c.conn);
    ConnInvStep(s, a, c.conn);
    CursorStays(s, t, c.conn, Stdout, c.last.stdout);
    CursorStays(s, t, c.conn, Stderr, c.last.stderr);
    TakenStay(s, t, c.conn, c.handed + Pending(c));
    BaseStays(s, a, c.conn, c);
  }

  lemma EnvironmentKeeps(w: World, a: Action)
    requires Inv(w.server) && ClientInv(w) && Enabled(w, Environment(a))
    ensures ClientInv(Next(w, Environment(a)))
  {
    var c := w.client;
    SoundStays(w.server, a, c.last, c.handed + Lost(c));
    match c.stage
    case Idle =>
    case Resuming => EnvironmentKeepsResuming(w, a);
    case Active => EnvironmentKeepsActive(w, a);
  }

  // Messages.

  lemma SequenceBounded(s: Session, log: seq<Frame>, i: nat)
    requires Represents(s, log) && i < |log|
    ensures 1 <= log[i].sequence < if log[i].stream.Stdout? then s.stdoutNext else s.stderrNext
  {
    CountGrows(log, i, |log|, log[i].stream);
    assert log[..|log|] == log;
  }

  lemma FrameInLog(s: Server, conn: Conn, m: Msg)
    requires LogInv(s) && SnapshotInv(conn, s.log, s.at) && FrameOf(s, conn, m).Some?
    ensures FrameOf(s, conn, m).value < |s.log|
  {
    if m.Replayed? {
      assert conn.replay[m.index] in conn.replay;
    }
  }

  /** The client takes the next message of its connection. */
  function Taken(s: Server, c: nat): Server
    requires Can(s, At(c, Take))
  {
    Do(s, At(c, Take))
  }

  lemma CursorAfterTake(s: Server, c: nat, stream: OutputStream, n: nat)
    requires Can(s, At(c, Take)) && CursorFrom(s, s.conns[c], stream, n)
    ensures CursorFrom(Taken(s, c), Taken(s, c).conns[c], stream, n)
  {
    var t := Taken(s, c);
    if n != Base(s.conns[c], stream) {
      var k :| Carries(s, s.conns[c], k, stream, n);
      assert Carries(t, t.conns[c], k, stream, n);
    }
  }

  /** Assigning the cursor from the message just taken. */
  lemma CursorsAfterFrame(s: Server, c: nat, last: Cursors, i: nat)
    requires LogInv(s) && Can(s, At(c, Take)) && CursorsFrom(s, s.conns[c], last) && Bounded(s.session, last)
    requires FrameOf(s, s.conns[c], s.conns[c].out[s.conns[c].taken]) == Some(i) && i < |s.log|
    ensures CursorsFrom(Taken(s, c), Taken(s, c).conns[c], last.With(s.log[i])) && Bounded(s.session, last.With(s.log[i]))
  {
    var t, f := Taken(s, c), s.log[i];
    CursorAfterTake(s, c, Stdout, last.stdout);
    CursorAfterTake(s, c, Stderr, last.stderr);
    SequenceBounded(s.session, s.log, i);
    assert Carries(t, t.conns[c], s.conns[c].taken, f.stream, f.sequence);
  }

  lemma TakenAfterTake(s: Server, c: nat, got: set<nat>, got': set<nat>)
    requires Can(s, At(c, Take)) && TakenAreIn(s, s.conns[c], got) && got <= got'
    requires var f := FrameOf(s, s.conns[c], s.conns[c].out[s.conns[c].taken]); f.Some? ==> f.value in got'
    ensures TakenAreIn(Taken(s, c), Taken(s, c).conns[c], got')
  {
  }

  /** A step of the client that takes a message keeps its invariant. */
  lemma ResumeTakesFrame(w: World, i: nat)
    requires LogInv(w.server) && ClientInv(w) && w.client.stage.Resuming? && Can(w.server, At(w.client.conn, Take))
    requires NextFrameIndex(w) == Some(i)
    requires w.client.conn in w.server.conns ==> ConnInv(w.server, w.server.conns[w.client.conn])
    ensures ClientInv(Next(w, Receive))
  {
    var s, c := w.server, w.client;
    var conn := s.conns[c.conn];
    CursorsAfterFrame(s, c.conn, c.seen, i);
    TakenAfterTake(s, c.conn, Elements(c.collected), Elements(c.collected + [i]));
  }

  /** The cursor a resume started from was sound, and the acknowledgement accounts for what the buffer had forgotten. */
  lemma AckAccounts(w: World)
    requires ClientInv(w) && w.client.stage.Resuming? && Can(w.server, At(w.client.conn, Take))
    requires w.server.conns[w.client.conn].out[w.server.conns[w.client.conn].taken].Ack?
    ensures BaseSound(w.server.log, w.server.conns[w.client.conn], ResumeReceives(w))
  {
    var s, c := w.server, w.client;
    forall i | 0 <= i < |s.log| && !s.conns[c.conn].since.Before(s.log[i])
      ensures i in ResumeReceives(w).handed + Lost(ResumeReceives(w))
    {
      assert c.last.Reached(s.log[i]);
    }
  }

  lemma AckActivates(w: World)
    requires ResumingInv(w) && w.client.stage.Resuming? && Can(w.server, At(w.client.conn, Take))
    requires Bounded(w.server.session, w.client.last) && PhaseInv(w.server.conns[w.client.conn])
    requires w.server.conns[w.client.conn].out[w.server.conns[w.client.conn].taken].Ack?
    requires BaseSound(w.server.log, w.server.conns[w.client.conn], ResumeReceives(w))
    ensures ActiveInv(Next(w, Receive))
  {
    var s, c, c' := w.server, w.client, ResumeReceives(w);
    CursorAfterTake(s, c.conn, Stdout, c.seen.stdout);
    CursorAfterTake(s, c.conn, Stderr, c.seen.stderr);
    TakenAfterTake(s, c.conn, Elements(c.collected), c'.handed + Pending(c'));
  }

  lemma ResumeTakesAck(w: World)
    requires LogInv(w.server) && ClientInv(w) && w.client.stage.Resuming? && Can(w.server, At(w.client.conn, Take))
    requires w.server.conns[w.client.conn].out[w.server.conns[w.client.conn].taken].Ack?
    requires w.client.conn in w.server.conns ==> ConnInv(w.server, w.server.conns[w.client.conn])
    ensures ClientInv(Next(w, Receive))
  {
    AckAccounts(w);
    AckActivates(w);
  }

  lemma ResumingTakesOther(w: World)
    requires ResumingInv(w) && Can(w.server, At(w.client.conn, Take))
    requires ConnInv(w.server, w.server.conns[w.client.conn])
    requires var conn := w.server.conns[w.client.conn];
             !conn.out[conn.taken].Ack? && FrameOf(w.server, conn, conn.out[conn.taken]).None?
    ensures ResumingInv(w.(server := Do(w.server, At(w.client.conn, Take))))
  {
    var s, c := w.server, w.client;
    CursorAfterTake(s, c.conn, Stdout, c.seen.stdout);
    CursorAfterTake(s, c.conn, Stderr, c.seen.stderr);
    TakenAfterTake(s, c.conn, Elements(c.collected), Elements(c.collected));
  }

  lemma ResumeTakesOther(w: World)
    requires ClientInv(w) && w.client.stage.Resuming? && Can(w.server, At(w.client.conn, Take))
    requires ConnInv(w.server, w.server.conns[w.client.conn])
    requires var conn := w.server.conns[w.client.conn];
             !conn.out[conn.taken].Ack? && FrameOf(w.server, conn, conn.out[conn.taken]).None?
    ensures ClientInv(Next(w, Receive))
  {
    ResumingTakesOther(w);
  }

  lemma SessionTakesFrame(w: World, i: nat)
    requires LogInv(w.server) && ClientInv(w) && w.client.stage.Active? && w.client.pending == []
    requires Can(w.server, At(w.client.conn, Take)) && NextFrameIndex(w) == Some(i)
    ensures ClientInv(Next(w, Receive))
  {
    var s, c, w' := w.server, w.client, Next(w, Receive);
    CursorsAfterFrame(s, c.conn, c.last, i);
    TakenAfterTake(s, c.conn, c.handed + Pending(c), w'.client.handed + Pending(w'.client));
  }

  lemma SessionTakesOther(w: World)
    requires ClientInv(w) && w.client.stage.Active? && w.client.pending == []
    requires Can(w.server, At(w.client.conn, Take))
    requires var conn := w.server.conns[w.client.conn]; FrameOf(w.server, conn, conn.out[conn.taken]).None?
    ensures ClientInv(Next(w, Receive))
  {
    var s, c := w.server, w.client;
    CursorAfterTake(s, c.conn, Stdout, c.last.stdout);
    CursorAfterTake(s, c.conn, Stderr, c.last.stderr);
    TakenAfterTake(s, c.conn, c.handed + Pending(c), c.handed + Pending(c));
  }

  lemma SessionHandsOutPending(w: World)
    requires ClientInv(w) && w.client.stage.Active? && w.client.pending != []
    ensures ClientInv(Next(w, Receive))
  {
    var c, c' := w.client, Next(w, Receive).client;
    assert c.pending == [c.pending[0]] + c.pending[1..];
    assert c.handed + Pending(c) == c'.handed + Pending(c');
  }

  lemma BeginKeeps(w: World, n: nat)
    requires Inv(w.server) && ClientInv(w) && Enabled(w, Begin(n))
    ensures ClientInv(Next(w, Begin(n)))
  {
    BeginResumes(w, n);
  }

  lemma BeginResumes(w: World, n: nat)
    requires Bounded(w.server.session, w.client.last) && Enabled(w, Begin(n))
    ensures ResumingInv(Next(w, Begin(n)))
  {
    var conn := Next(w, Begin(n)).server.conns[n];
    assert Base(conn, Stdout) == w.client.last.stdout && Base(conn, Stderr) == w.client.last.stderr;
  }

  lemma DisconnectAccounts(w: World)
    requires w.client.stage.Active? && w.client.conn in w.server.conns
    ensures var c, c' := w.client, Next(w, Disconnect).client;
            c.handed + Pending(c) + Lost(c) + LaggedFrames(w.server, w.server.conns[c.conn]) == c'.handed + Lost(c')
  {
  }

  lemma DisconnectSound(w: World)
    requires LogInv(w.server) && ActiveInv(w) && w.client.stage.Active?
    requires ConnInv(w.server, w.server.conns[w.client.conn])
    ensures var c' := Next(w, Disconnect).client; Sound(w.server.log, w.client.last, c'.handed + Lost(c'))
  {
    ActiveSound(w);
    DisconnectAccounts(w);
  }

  lemma DisconnectIdles(w: World)
    requires w.client.stage.Active? && Bounded(w.server.session, w.client.last)
    requires var c' := Next(w, Disconnect).client; Sound(w.server.log, w.client.last, c'.handed + Lost(c'))
    ensures ClientInv(Next(w, Disconnect))
  {
  }

  lemma DisconnectKeeps(w: World)
    requires LogInv(w.server) && ClientInv(w) && w.client.stage.Active?
    requires ConnInv(w.server, w.server.conns[w.client.conn])
    ensures ClientInv(Next(w, Disconnect))
  {
    DisconnectSound(w);
    DisconnectIdles(w);
  }

  lemma ClientInvStep(w: World, step: Step)
    requires Inv(w.server) && ClientInv(w) && Enabled(w, step)
    ensures Inv(Next(w, step).server) && ClientInv(Next(w, step))
  {
    match step
    case Environment(a) =>
      InvStep(w.server, a);
      EnvironmentKeeps(w, a);
    case Begin(n) =>
      InvStep(w.server, Subscribe(n, w.client.token, w.client.last.Request()));
      BeginKeeps(w, n);
    case Receive =>
      if w.client.stage.Active? && w.client.pending != [] {
        SessionHandsOutPending(w);
      } else {
        InvStep(w.server, At(w.client.conn, Take));
        ReceiveKeeps(w);
      }
    case GiveUp =>
    case Disconnect => DisconnectKeeps(w);
  }

  lemma ReceiveKeeps(w: World)
    requires Inv(w.server) && ClientInv(w) && Enabled(w, Receive) && !(w.client.stage.Active? && w.client.pending != [])
    ensures ClientInv(Next(w, Receive))
  {
    var s, c := w.server, w.client;
    var conn := s.conns[c.conn];
    assert ConnInv(s, conn);
    var m := conn.out[conn.taken];
    if FrameOf(s, conn, m).Some? {
      FrameInLog(s, conn, m);
      if c.stage.Active? {
        SessionTakesFrame(w, FrameOf(s, conn, m).value);
      } else {
        ResumeTakesFrame(w, FrameOf(s, conn, m).value);
      }
    } else if c.stage.Active? {
      SessionTakesOther(w);
    } else if m.Ack? {
      ResumeTakesAck(w);
    } else {
      ResumeTakesOther(w);
    }
  }

  lemma {:induction false} RunKeeps(w: World, steps: seq<Step>)
    requires Inv(w.server) && ClientInv(w) && Run(w, steps).Some?
    ensures Inv(Run(w, steps).value.server) && ClientInv(Run(w, steps).value)
    decreases |steps|
  {
    if steps != [] {
      var n := |steps| - 1;
      RunKeeps(w, steps[..n]);
      ClientInvStep(Run(w, steps[..n]).value, steps[n]);
    }
  }

  // ---------------------------------------------------------------------------
  // Every loss is accounted for
  // ---------------------------------------------------------------------------

  /** Frame i lay after the cursor of an acknowledged connection d, but the buffer had forgotten it. */
  ghost predicate EvictedAt(s: Server, d: nat, i: nat) {
    && d in s.conns && s.conns[d].phase.Serving?
    && i < s.conns[d].evicted && i < |s.log| && s.conns[d].since.Before(s.log[i])
  }

  ghost predicate LaggedOn(s: Server, d: nat, i: nat) {
    d in s.conns && LostToLag(s, s.conns[d], i)
  }

  /** One of these connections was acknowledged when the buffer had already forgotten frame i. */
  ghost predicate EvictedBy(s: Server, mine: set<nat>, i: nat) {
    exists d :: d in mine && EvictedAt(s, d, i)
  }

  ghost predicate LaggedBy(s: Server, mine: set<nat>, i: nat) {
    exists d :: d in mine && LaggedOn(s, d, i)
  }

  ghost predicate AccountInv(w: World) {
    && (!w.client.stage.Idle? ==> w.client.conn in w.client.mine)
    && (forall i :: i in w.client.evicted ==> EvictedBy(w.server, w.client.mine, i))
    && (forall i :: i in w.client.lagged ==> LaggedBy(w.server, w.client.mine, i))
    && (w.client.dropped != {} ==> w.client.hasty)
  }

  lemma LocalKeepsLosses(s: Server, conn: Conn, step: Local)
    requires CanLocal(|s.sent|, conn, step) && PhaseInv(conn)
    ensures var conn' := LocalStep(s, conn, step);
            && conn.skipped <= conn'.skipped && conn'.since == conn.since
            && (conn.phase.Serving? ==> conn'.phase.Serving? && conn'.evicted == conn.evicted)
  {
  }

  lemma LossesStay(s: Server, a: Action, d: nat, i: nat)
    requires Can(s, a) && (d in s.conns ==> PhaseInv(s.conns[d]))
    ensures EvictedAt(s, d, i) ==> EvictedAt(Do(s, a), d, i)
    ensures LaggedOn(s, d, i) ==> LaggedOn(Do(s, a), d, i)
  {
    if d in s.conns {
      if a.At? && a.c == d {
        LocalKeepsLosses(s, s.conns[d], a.step);
      } else if !a.Record? && !a.Broadcast? {
        LogFrame(s, a);
        ConnFrame(s, a, d);
      }
    }
  }

  lemma AccountsStay(w: World, a: Action)
    requires Inv(w.server) && Can(w.server, a) && AccountInv(w)
    ensures AccountInv(w.(server := Do(w.server, a)))
  {
    var s, t := w.server, Do(w.server, a);
    forall i | i in w.client.evicted ensures EvictedBy(t, w.client.mine, i) {
      var d :| d in w.client.mine && EvictedAt(s, d, i);
      assert ConnInv(s, s.conns[d]);
      LossesStay(s, a, d, i);
    }
    forall i | i in w.client.lagged ensures LaggedBy(t, w.client.mine, i) {
      var d :| d in w.client.mine && LaggedOn(s, d, i);
      assert ConnInv(s, s.conns[d]);
      LossesStay(s, a, d, i);
    }
  }

  lemma ReceiveAccounts(w: World)
    requires Can(w.server, At(w.client.conn, Take)) && Enabled(w, Receive)
    requires !(w.client.stage.Active? && w.client.pending != [])
    requires AccountInv(w.(server := Do(w.server, At(w.client.conn, Take))))
    ensures AccountInv(Next(w, Receive))
  {
    var s, t, c := w.server, Do(w.server, At(w.client.conn, Take)), w.client;
    var conn := s.conns[c.conn];
    forall i | i in Next(w, Receive).client.evicted ensures EvictedBy(t, c.mine, i) {
      if i !in c.evicted {
        assert EvictedAt(t, c.conn, i);
      }
    }
  }

  lemma DisconnectAccountsForLag(w: World)
    requires AccountInv(w) && w.client.stage.Active?
    ensures AccountInv(Next(w, Disconnect))
  {
    var c := w.client;
    forall i | i in Next(w, Disconnect).client.lagged ensures LaggedBy(w.server, c.mine, i) {
      if i !in c.lagged {
        assert LaggedOn(w.server, c.conn, i);
      }
    }
    if c.pending == [] {
      assert Elements(c.pending) == {};
    }
  }

  lemma BeginAccounts(w: World, n: nat)
    requires Enabled(w, Begin(n)) && AccountInv(w.(server := Next(w, Begin(n)).server))
    ensures AccountInv(Next(w, Begin(n)))
  {
    var t, c, c' := Next(w, Begin(n)).server, w.client, Next(w, Begin(n)).client;
    forall i | i in c'.evicted ensures EvictedBy(t, c'.mine, i) {
      var d :| d in c.mine && EvictedAt(t, d, i);
    }
    forall i | i in c'.lagged ensures LaggedBy(t, c'.mine, i) {
      var d :| d in c.mine && LaggedOn(t, d, i);
    }
  }

  lemma AccountStep(w: World, step: Step)
    requires Inv(w.server) && AccountInv(w) && Enabled(w, step)
    ensures AccountInv(Next(w, step))
  {
    match step
    case Environment(a) => AccountsStay(w, a);
    case Begin(n) =>
      AccountsStay(w, Subscribe(n, w.client.token, w.client.last.Request()));
      BeginAccounts(w, n);
    case Receive =>
      if !(w.client.stage.Active? && w.client.pending != []) {
        AccountsStay(w, At(w.client.conn, Take));
        ReceiveAccounts(w);
      }
    case GiveUp =>
    case Disconnect => DisconnectAccountsForLag(w);
  }

  lemma {:induction false} RunAccounts(w: World, steps: seq<Step>)
    requires Inv(w.server) && ClientInv(w) && AccountInv(w) && Run(w, steps).Some?
    ensures AccountInv(Run(w, steps).value)
    decreases |steps|
  {
    if steps != [] {
      var n := |steps| - 1;
      RunAccounts(w, steps[..n]);
      RunKeeps(w, steps[..n]);
      AccountStep(Run(w, steps[..n]).value, steps[n]);
    }
  }

  lemma ReachableClientInv(w: World)
    requires Reachable(w)
    ensures Inv(w.server) && ClientInv(w) && AccountInv(w)
  {
    var capacity, token, now, steps :| Run(Start(capacity, token, now), steps) == Some(w);
    InitInv(capacity, token, now);
    RunKeeps(Start(capacity, token, now), steps);
    RunAccounts(Start(capacity, token, now), steps);
  }

  /**
   Cursor soundness over any number of connections: whenever the client's cursor has reached
   a frame, the application has received it, or it is pending, or the buffer had already
   forgotten it at an acknowledged resume of this client, or one of this client's connections
   lost it to lag, or it was still pending when this client gave a session up.
   */
  lemma ClientCursorIsSound(w: World, i: nat)
    requires Reachable(w) && i < |w.server.log| && w.client.last.Reached(w.server.log[i])
    ensures Accounted(w, i)
  {
    ReachableClientInv(w);
    if w.client.stage.Active? {
      assert ConnInv(w.server, w.server.conns[w.client.conn]);
      ActiveAccounted(w, i);
    }
    LostIsExplained(w, i);
  }

  /** Where a frame below the cursor is, or how this client's own connections came to lose it. */
  ghost predicate Accounted(w: World, i: nat) {
    var s, c := w.server, w.client;
    || i in c.handed
    || (c.stage.Active? && i in c.pending)
    || (i in c.evicted && EvictedBy(s, c.mine, i))
    || (i in c.lagged && LaggedBy(s, c.mine, i))
    || (c.stage.Active? && c.conn in c.mine && LaggedOn(s, c.conn, i))
    || (i in c.dropped && c.hasty)
  }

  lemma LostIsExplained(w: World, i: nat)
    requires AccountInv(w)
    ensures i in w.client.handed + Lost(w.client) ==> Accounted(w, i)
    ensures w.client.stage.Active? && (i in w.client.pending || LaggedOn(w.server, w.client.conn, i)) ==> Accounted(w, i)
  {
  }

  lemma ActiveAccounted(w: World, i: nat)
    requires LogInv(w.server) && ActiveInv(w) && ConnInv(w.server, w.server.conns[w.client.conn])
    requires i < |w.server.log| && w.client.last.Reached(w.server.log[i])
    ensures i in w.client.handed || i in w.client.pending || i in Lost(w.client) || LaggedOn(w.server, w.client.conn, i)
  {
    ActiveSound(w);
  }

  /** Appends one step to a run. */
  lemma Extend(start: World, steps: seq<Step>, w: World, step: Step) returns (steps': seq<Step>, w': World)
    requires Run(start, steps) == Some(w) && Enabled(w, step)
    ensures w' == Next(w, step) && Run(start, steps') == Some(w')
  {
    steps', w' := steps + [step], Next(w, step);
    assert steps'[..|steps|] == steps;
  }
}
