/**
 The client of the step system is the session object: every message it takes, during a resume or in a
 session, has the effect that the object's receive loops give it.
 */
module ClientObject {
  import opened Basics
  import opened Sessions
  import opened ResumeServer
  import opened ResumeDelivery
  import opened ResumeClient
  import S = CapabilitySession

  /** A message of the response channel as it is read by the client. */
  function OnTheWire(s: Server, conn: Conn, m: Msg, id: string): S.Message {
    S.Message(id, match m
                  case Ack(t) => S.ResumeAck(Some(t))
                  case Replayed(j) => if j < |conn.replay| then OfFrame(s, conn.replay[j]) else S.Nothing
                  case Live(p) => if p < |s.sent| then OfEvent(s, s.sent[p]) else S.Nothing)
  }

  function OfFrame(s: Server, i: nat): S.Payload {
    if i < |s.log| then S.Output(s.log[i]) else S.Nothing
  }

  function OfEvent(s: Server, e: Event): S.Payload {
    match e
    case Output(i) => OfFrame(s, i)
    case Ready => S.Ready
    case Exit => S.Exited(0)
    case Failure => S.ErrorReport
    case HeartbeatAck => S.HeartbeatAck
    case Closed => S.SessionClosed
  }

  /** The message that a Receive takes. */
  function Incoming(w: World, id: string): S.Message
    requires Can(w.server, At(w.client.conn, Take))
  {
    var conn := w.server.conns[w.client.conn];
    OnTheWire(w.server, conn, conn.out[conn.taken], id)
  }

  /** The frames as events. */
  function Payloads(s: Server, frames: seq<nat>): seq<S.Payload> {
    if frames == [] then [] else Payloads(s, frames[..|frames| - 1]) + [OfFrame(s, frames[|frames| - 1])]
  }

  lemma OneMessage(c: Cursors, t: Token, m: S.Message)
    ensures S.CursorsAfter(c, [m]) == if m.payload.Output? then c.With(m.payload.frame) else c
    ensures S.TokenAfter(t, [m]) == if m.payload.ResumeAck? then m.payload.token.GetOr(t) else t
    ensures S.Events([m], true) == if m.payload.Output? then [m.payload] else []
  {
    assert [m][..0] == [];
    assert S.Events([], true) == [];
  }

  lemma Collects(s: Server, frames: seq<nat>, i: nat)
    ensures Payloads(s, frames + [i]) == Payloads(s, frames) + [OfFrame(s, i)]
  {
    assert (frames + [i])[..|frames|] == frames;
  }

  /** An output message is a frame of the log, and the other way round; an acknowledgement is one. */
  lemma MessageFrame(w: World, id: string)
    requires Can(w.server, At(w.client.conn, Take))
    ensures var conn, p := w.server.conns[w.client.conn], Incoming(w, id).payload;
            && (p.Output? <==> NextFrameIndex(w).Some?)
            && (NextFrameIndex(w).Some? ==> p == OfFrame(w.server, NextFrameIndex(w).value) == S.Output(w.server.log[NextFrameIndex(w).value]))
            && (p.ResumeAck? <==> conn.out[conn.taken].Ack?)
            && (conn.out[conn.taken].Ack? ==> p.token == Some(conn.out[conn.taken].token))
            && (p.Exited? || p.ErrorReport? || p.SessionClosed? <==> Terminal(w.server, conn.out[conn.taken]))
  {
  }

  /** What one message makes of a resume. */
  ghost predicate ResumeTakes(s: Server, c: Client, c': Client, m: S.Message, id: string) {
    && (c'.stage.Resuming? <==> !S.EndsResume(m, id))
    && (c'.stage.Active? <==> m.payload.ResumeAck?)
    && (c'.stage.Resuming? ==>
          && c'.seen == S.CursorsAfter(c.seen, [m]) && c'.last == c.last && c'.token == c.token
          && Payloads(s, c'.collected) == Payloads(s, c.collected) + S.Events([m], true))
    && (c'.stage.Active? ==>
          c'.last == c.seen && c'.token == S.TokenAfter(c.token, [m]) && c'.pending == c.collected)
    && (c'.stage.Idle? ==> c'.last == c.last && c'.token == c.token)
    && c'.handed == c.handed
  }

  lemma TakesFrame(s: Server, c: Client, i: nat, m: S.Message)
    requires c.stage.Resuming? && i < |s.log| && m.payload == OfFrame(s, i)
    ensures ResumeTakes(s, c, c.(seen := c.seen.With(s.log[i]), collected := c.collected + [i]), m, m.sessionId)
  {
    OneMessage(c.seen, c.token, m);
    Collects(s, c.collected, i);
  }

  lemma TakesAck(s: Server, c: Client, t: Token, evicted: set<nat>, m: S.Message)
    requires c.stage.Resuming? && m.payload == S.ResumeAck(Some(t))
    ensures ResumeTakes(s, c, c.(stage := Active, last := c.seen, token := t, pending := c.collected, evicted := evicted), m, m.sessionId)
  {
    OneMessage(c.seen, c.token, m);
  }

  lemma TakesOther(s: Server, c: Client, m: S.Message)
    requires c.stage.Resuming? && !m.payload.Output? && !m.payload.ResumeAck?
    ensures var p := m.payload;
            ResumeTakes(s, c, if p.Exited? || p.ErrorReport? || p.SessionClosed? then c.(stage := Idle) else c, m, m.sessionId)
  {
    OneMessage(c.seen, c.token, m);
    assert Payloads(s, c.collected) + [] == Payloads(s, c.collected);
  }

  /** The resume under way: it goes on, succeeds or fails as the object's resume loop does, with the same cursors, token and events. */
  lemma ResumeIsTheLoop(w: World, id: string)
    requires w.client.stage.Resuming? && Can(w.server, At(w.client.conn, Take))
    ensures ResumeTakes(w.server, w.client, ResumeReceives(w), Incoming(w, id), id)
  {
    var conn := w.server.conns[w.client.conn];
    var m := conn.out[conn.taken];
    MessageFrame(w, id);
    if m.Ack? {
      TakesAck(w.server, w.client, m.token, ResumeReceives(w).evicted, Incoming(w, id));
    } else if NextFrameIndex(w).Some? {
      TakesFrame(w.server, w.client, NextFrameIndex(w).value, Incoming(w, id));
    } else {
      TakesOther(w.server, w.client, Incoming(w, id));
    }
  }

  /** In a session: the same cursors and token as the object's, and output is handed to the application. */
  lemma SessionIsTheLoop(w: World, id: string)
    requires w.client.stage.Active? && w.client.pending == [] && Can(w.server, At(w.client.conn, Take))
    ensures var c, c', m := w.client, SessionReceives(w), Incoming(w, id);
            && c'.stage.Active? && c'.last == S.CursorsAfter(c.last, [m]) && c'.token == S.TokenAfter(c.token, [m]) && c'.pending == []
            && (m.payload.Output? ==>
                  NextFrameIndex(w).Some? && OfFrame(w.server, NextFrameIndex(w).value) == m.payload
                  && c'.handed == c.handed + {NextFrameIndex(w).value})
            && (!m.payload.Output? ==> c'.handed == c.handed)
  {
    MessageFrame(w, id);
    OneMessage(w.client.last, w.client.token, Incoming(w, id));
  }

  /** A client without a session holds nothing back: whatever it had not handed out went with the session. */
  predicate HoldsNothing(c: Client) {
    !c.stage.Active? ==> c.pending == []
  }

  lemma HoldsNothingStep(w: World, step: Step)
    requires Enabled(w, step) && HoldsNothing(w.client)
    ensures HoldsNothing(Next(w, step).client)
  {
    match step
    case Environment(_) =>
    case Begin(_) =>
    case Receive =>
    case GiveUp =>
    case Disconnect =>
  }

  lemma {:induction false} IdleHoldsNothing(start: World, steps: seq<Step>)
    requires HoldsNothing(start.client) && Run(start, steps).Some?
    ensures HoldsNothing(Run(start, steps).value.client)
    decreases |steps|
  {
    if steps != [] {
      var n := |steps| - 1;
      IdleHoldsNothing(start, steps[..n]);
      HoldsNothingStep(Run(start, steps[..n]).value, steps[n]);
    }
  }
}
