/**
 The client's session object and the loop that resumes it, as they process one stream of
 messages: which events the application is handed, in which order, and where the cursors and
 the token stand.
 */
module CapabilitySession {
  import opened Basics
  import opened Sessions
  import opened ResumeClient

  datatype Payload =
    | Output(frame: Frame)
    | Exited(code: int)
    | ErrorReport
    | HeartbeatAck
    | SessionClosed
    | ResumeAck(token: Option<Token>)   // None stands for the empty token
    | Ready
    | Nothing

  datatype Message = Message(sessionId: string, payload: Payload)

  datatype ResumeError = StreamEnded | WrongSession | ServerError | ClosedWhileResuming | ExitedWhileResuming

  // ---------------------------------------------------------------------------
  // What a run of messages means
  // ---------------------------------------------------------------------------

  function CursorsAfter(c: Cursors, ms: seq<Message>): Cursors {
    if ms == [] then c
    else
      var d, p := CursorsAfter(c, ms[..|ms| - 1]), ms[|ms| - 1].payload;
      if p.Output? then d.With(p.frame) else d
  }

  function TokenAfter(t: Token, ms: seq<Message>): Token {
    if ms == [] then t
    else
      var u, p := TokenAfter(t, ms[..|ms| - 1]), ms[|ms| - 1].payload;
      if p.ResumeAck? && p.token.Some? then p.token.value else u
  }

  predicate IsEvent(p: Payload) {
    !p.ResumeAck? && !p.Ready? && !p.Nothing?
  }

  /** The events among the messages; while resuming only output counts. */
  function Events(ms: seq<Message>, resuming: bool): seq<Payload> {
    if ms == [] then []
    else
      var p := ms[|ms| - 1].payload;
      Events(ms[..|ms| - 1], resuming) + (if IsEvent(p) && (resuming ==> p.Output?) then [p] else [])
  }

  /** How many of the messages are output. */
  function Outputs(ms: seq<Message>): nat {
    if ms == [] then 0 else Outputs(ms[..|ms| - 1]) + (if ms[|ms| - 1].payload.Output? then 1 else 0)
  }

  /** While resuming, the events are the output messages, each once and in order. */
  lemma {:induction false} EventsAreOutputs(ms: seq<Message>)
    ensures |Events(ms, true)| == Outputs(ms)
    ensures forall j :: 0 <= j < |ms| && ms[j].payload.Output? ==>
              Outputs(ms[..j]) < Outputs(ms) && Events(ms, true)[Outputs(ms[..j])] == ms[j].payload
    decreases |ms|
  {
    if ms != [] {
      var n := |ms| - 1;
      EventsAreOutputs(ms[..n]);
      forall j | 0 <= j < |ms| && ms[j].payload.Output?
        ensures Outputs(ms[..j]) < Outputs(ms) && Events(ms, true)[Outputs(ms[..j])] == ms[j].payload
      {
        if j < n {
          assert ms[..n][..j] == ms[..j] && ms[..n][j] == ms[j];
        }
      }
    }
  }

  /** The token is the last one that an acknowledgement brought. */
  lemma {:induction false} TokenIsLastAck(t: Token, ms: seq<Message>, k: nat)
    requires k < |ms| && ms[k].payload.ResumeAck? && ms[k].payload.token.Some?
    requires forall j :: k < j < |ms| ==> !(ms[j].payload.ResumeAck? && ms[j].payload.token.Some?)
    ensures TokenAfter(t, ms) == ms[k].payload.token.value
    decreases |ms|
  {
    if k < |ms| - 1 {
      TokenIsLastAck(t, ms[..|ms| - 1], k);
    }
  }

  /** Without one the token stays. */
  lemma {:induction false} TokenStays(t: Token, ms: seq<Message>)
    requires forall j :: 0 <= j < |ms| ==> !(ms[j].payload.ResumeAck? && ms[j].payload.token.Some?)
    ensures TokenAfter(t, ms) == t
    decreases |ms|
  {
    if ms != [] {
      TokenStays(t, ms[..|ms| - 1]);
    }
  }

  predicate Foreign(m: Message, id: string) {
    m.sessionId != "" && m.sessionId != id
  }

  predicate EndsResume(m: Message, id: string) {
    Foreign(m, id) || m.payload.ResumeAck? || m.payload.ErrorReport? || m.payload.SessionClosed? || m.payload.Exited?
  }

  /** How many messages come before the one that ends the resume. */
  function ResumeLength(ms: seq<Message>, id: string): (k: nat)
    ensures k <= |ms| && (k < |ms| ==> EndsResume(ms[k], id))
    ensures forall i :: 0 <= i < k ==> !EndsResume(ms[i], id)
  {
    if ms == [] || EndsResume(ms[0], id) then 0 else 1 + ResumeLength(ms[1..], id)
  }

  /** Plain assignment leaves the number of the last output of the stream, whatever came before. */
  lemma {:induction false} CursorIsLastOutput(c: Cursors, ms: seq<Message>, stream: OutputStream, k: nat)
    requires k < |ms| && Numbers(ms[k], stream) && forall j :: k < j < |ms| ==> !Numbers(ms[j], stream)
    ensures CursorsAfter(c, ms).Of(stream) == ms[k].payload.frame.sequence
    decreases |ms|
  {
    if k < |ms| - 1 {
      assert !Numbers(ms[|ms| - 1], stream);
      CursorIsLastOutput(c, ms[..|ms| - 1], stream, k);
    }
  }

  /** Without output on the stream the cursor stays. */
  lemma {:induction false} CursorStays(c: Cursors, ms: seq<Message>, stream: OutputStream)
    requires forall k :: 0 <= k < |ms| ==> !Numbers(ms[k], stream)
    ensures CursorsAfter(c, ms).Of(stream) == c.Of(stream)
  {
    if ms != [] {
      CursorStays(c, ms[..|ms| - 1], stream);
    }
  }

  predicate Numbers(m: Message, stream: OutputStream) {
    m.payload.Output? && m.payload.frame.stream == stream && m.payload.frame.sequence != 0
  }

  /** The application hears nothing of the first n messages. */
  ghost predicate AllSilent(ms: seq<Message>, n: nat) {
    n <= |ms| && forall j :: 0 <= j < n ==> ms[j].payload.ResumeAck? || ms[j].payload.Ready? || ms[j].payload.Nothing?
  }

  /** Message k is the first that the application hears of, and this is what it hears. */
  ghost predicate FirstHeard(ms: seq<Message>, k: nat, p: Payload) {
    AllSilent(ms, k) && k < |ms| && ms[k].payload == p && !p.ResumeAck? && !p.Ready? && !p.Nothing?
  }

  /** Of a stream, n messages have been read. */
  ghost predicate Advanced(read0: seq<Message>, stream0: seq<Message>, n: nat, read: seq<Message>, stream: seq<Message>) {
    n <= |stream0| && stream == stream0[n..] && read == read0 + stream0[..n] && read + stream == read0 + stream0
  }

  lemma AdvanceOne(read0: seq<Message>, stream0: seq<Message>, n: nat, read: seq<Message>, stream: seq<Message>)
    requires Advanced(read0, stream0, n, read, stream) && stream != []
    ensures n < |stream0| && stream[0] == stream0[n] && Advanced(read0, stream0, n + 1, read + [stream[0]], stream[1..])
  {
    assert stream0[..n + 1] == stream0[..n] + [stream0[n]];
  }

  // ---------------------------------------------------------------------------
  // The session object
  // ---------------------------------------------------------------------------

  class CapabilitySession {
    var stream: seq<Message>    // not yet read
    var resumeToken: Token
    var last: Cursors
    var pending: seq<Payload>

    ghost var read: seq<Message>
    ghost var acked: nat        // the first messages were read while resuming
    ghost var handed: seq<Payload>
    ghost var startToken: Token
    ghost var start: Cursors

    /** Handed out and pending events together are the events read, in order; cursors and token are up to date. */
    ghost predicate Valid()
      reads this
    {
      && acked <= |read|
      && (pending != [] ==> acked == |read|)
      && handed + pending == Events(read[..acked], true) + Events(read[acked..], false)
      && last == CursorsAfter(start, read)
      && resumeToken == TokenAfter(startToken, read)
    }

    constructor (stream: seq<Message>, token: Token, last: Cursors, pending: seq<Payload>, ghost read: seq<Message>,
                 ghost startToken: Token, ghost start: Cursors)
      requires pending == Events(read, true) && last == CursorsAfter(start, read) && token == TokenAfter(startToken, read)
      ensures Valid() && acked == |read| && handed == [] && this.pending == pending && resumeToken == token
      ensures this.stream == stream && this.read == read && this.start == start && this.startToken == startToken
    {
      this.stream, resumeToken, this.last, this.pending := stream, token, last, pending;
      this.read, acked, handed, this.startToken, this.start := read, |read|, [], startToken, start;
      new;
      assert this.read[..acked] == read;
    }

    /** Hand out the next event; None at the end of the stream. */
    method Recv() returns (e: Option<Payload>)
      requires Valid()
      modifies this
      ensures Valid() && read + stream == old(read + stream)
      ensures acked == old(acked) && start == old(start) && startToken == old(startToken)
      ensures old(pending) != [] ==> e == Some(old(pending)[0]) && read == old(read)
      ensures e.Some? ==> handed == old(handed) + [e.value]
      ensures e.None? ==> handed == old(handed) && pending == [] && stream == []
      ensures old(pending) == [] && e.None? ==> AllSilent(old(stream), |old(stream)|)
      ensures old(pending) == [] && e.Some? ==> exists k :: FirstHeard(old(stream), k, e.value) && read == old(read) + old(stream)[..k + 1]
    {
      if pending != [] {
        e := Some(pending[0]);
        handed, pending := handed + [pending[0]], pending[1..];
        return;
      }
      ghost var n := 0;
      while stream != []
        invariant Valid() && pending == [] && Advanced(old(read), old(stream), n, read, stream)
        invariant AllSilent(old(stream), n)
        invariant acked == old(acked) && start == old(start) && startToken == old(startToken) && handed == old(handed)
        decreases |stream|
      {
        AdvanceOne(old(read), old(stream), n, read, stream);
        e := Accept();
        if e.Some? {
          assert FirstHeard(old(stream), n, e.value);
          return;
        }
        n := n + 1;
      }
      e := None;
    }

    /** Take one message off the stream; ignore it, or pass it on as an event. */
    method Accept() returns (e: Option<Payload>)
      requires Valid() && pending == [] && stream != []
      modifies this
      ensures Valid() && pending == []
      ensures read == old(read + [stream[0]]) && stream == old(stream[1..])
      ensures acked == old(acked) && start == old(start) && startToken == old(startToken)
      ensures handed == old(handed) + (if e.Some? then [e.value] else [])
      ensures var p := old(stream)[0].payload; e == if p.ResumeAck? || p.Ready? || p.Nothing? then None else Some(p)
    {
      var m := stream[0];
      ReadOne(m);
      read, stream := read + [m], stream[1..];
      match m.payload {
        case Output(f) =>
          if f.sequence != 0 {
            if f.stream.Stderr? {
              last := last.(stderr := f.sequence);
            } else {
              last := last.(stdout := f.sequence);
            }
          }
          e := Some(m.payload);
        case ResumeAck(t) =>
          if t.Some? {
            resumeToken := t.value;
          }
          e := None;
        case Ready | Nothing =>
          e := None;
        case _ =>
          e := Some(m.payload);
      }
      if e.Some? {
        handed := handed + [e.value];
      }
    }

    lemma ReadOne(m: Message)
      requires Valid() && pending == []
      ensures var p, more := m.payload, read + [m];
              && Events(more[..acked], true) + Events(more[acked..], false) == handed + (if IsEvent(p) then [p] else [])
              && CursorsAfter(start, more) == (if p.Output? then last.With(p.frame) else last)
              && TokenAfter(startToken, more) == (if p.ResumeAck? && p.token.Some? then p.token.value else resumeToken)
    {
      var more := read + [m];
      assert more[..|read|] == read && more[..acked] == read[..acked];
      assert more[acked..][..|read| - acked] == read[acked..];
      assert handed + [] == handed;
    }
  }

  // ---------------------------------------------------------------------------
  // Resuming
  // ---------------------------------------------------------------------------

  /** The message names this session, or none. */
  ghost predicate IsFrom(m: Message, id: string) {
    m.sessionId == "" || m.sessionId == id
  }

  /** A resume goes on after each of the first k messages. */
  ghost predicate AllPassedOver(ms: seq<Message>, id: string, k: nat) {
    k <= |ms| && forall j :: 0 <= j < k ==>
      IsFrom(ms[j], id) && (ms[j].payload.Output? || ms[j].payload.HeartbeatAck? || ms[j].payload.Ready? || ms[j].payload.Nothing?)
  }

  /** How the message that ends a resume decides it. */
  ghost predicate Verdict(m: Message, id: string, error: Option<ResumeError>) {
    match error
    case None => IsFrom(m, id) && m.payload.ResumeAck?
    case Some(WrongSession) => !IsFrom(m, id)
    case Some(ServerError) => IsFrom(m, id) && m.payload.ErrorReport?
    case Some(ClosedWhileResuming) => IsFrom(m, id) && m.payload.SessionClosed?
    case Some(ExitedWhileResuming) => IsFrom(m, id) && m.payload.Exited?
    case Some(StreamEnded) => false
  }

  /** The output among the first k messages, each once and in order. */
  ghost predicate Collected(ms: seq<Message>, k: nat, pending: seq<Payload>) {
    && k <= |ms| && |pending| == Outputs(ms[..k])
    && forall j :: 0 <= j < k && ms[j].payload.Output? ==>
         Outputs(ms[..j]) < |pending| && pending[Outputs(ms[..j])] == ms[j].payload
  }

  lemma EventsCollect(ms: seq<Message>, k: nat)
    requires k <= |ms|
    ensures Collected(ms, k, Events(ms[..k], true))
  {
    EventsAreOutputs(ms[..k]);
    assert forall j :: 0 <= j < k ==> ms[..k][..j] == ms[..j] && ms[..k][j] == ms[j];
  }

  /** Where a resume stands after i messages. */
  ghost predicate Progress(ms: seq<Message>, i: nat, cursors: Cursors, token: Token, last: Cursors, now: Token, pending: seq<Payload>) {
    i <= |ms| && last == CursorsAfter(cursors, ms[..i]) && now == TokenAfter(token, ms[..i]) && pending == Events(ms[..i], true)
  }

  lemma ProgressOne(ms: seq<Message>, i: nat, cursors: Cursors, token: Token, last: Cursors, now: Token, pending: seq<Payload>)
    requires Progress(ms, i, cursors, token, last, now, pending) && i < |ms|
    ensures var p := ms[i].payload;
            Progress(ms, i + 1, cursors, token, if p.Output? then last.With(p.frame) else last,
                     if p.ResumeAck? then p.token.GetOr(now) else now, pending + (if p.Output? then [p] else []))
  {
    assert ms[..i + 1][..i] == ms[..i];
  }

  lemma TokenUnchanged(ms: seq<Message>, id: string, i: nat, token: Token)
    requires AllPassedOver(ms, id, i)
    ensures TokenAfter(token, ms[..i]) == token
  {
    TokenStays(token, ms[..i]);
  }

  /** Resume a session: collect output until the acknowledgement, and fail on anything that rules it out. */
  method ResumeSession(id: string, token: Token, cursors: Cursors, stream: seq<Message>)
    returns (r: Result<CapabilitySession, ResumeError>)
    ensures var k := ResumeLength(stream, id);
            && AllPassedOver(stream, id, k) && (r == Err(StreamEnded) <==> k == |stream|)
            && (k < |stream| ==> Verdict(stream[k], id, if r.Ok? then None else Some(r.error)))
            && (r.Ok? ==>
                  && fresh(r.value) && r.value.Valid() && r.value.handed == []
                  && r.value.read == stream[..k + 1] && r.value.acked == k + 1 && r.value.stream == stream[k + 1..]
                  && r.value.start == cursors && r.value.startToken == token
                  && r.value.resumeToken == stream[k].payload.token.GetOr(token) && Collected(stream, k, r.value.pending))
  {
    var last, resumeToken, pending, i := cursors, token, [], 0;
    while i < |stream|
      invariant i <= ResumeLength(stream, id) && AllPassedOver(stream, id, i)
      invariant Progress(stream, i, cursors, token, last, resumeToken, pending)
    {
      var m := stream[i];
      ProgressOne(stream, i, cursors, token, last, resumeToken, pending);
      if m.sessionId != "" && m.sessionId != id {
        return Err(WrongSession);
      }
      match m.payload {
        case ResumeAck(t) =>
          TokenUnchanged(stream, id, i, token);
          EventsCollect(stream, i);
          if t.Some? {
            resumeToken := t.value;
          }
          var s := new CapabilitySession(stream[i + 1..], resumeToken, last, pending, stream[..i + 1], token, cursors);
          return Ok(s);
        case Output(f) =>
          if f.sequence != 0 {
            if f.stream.Stderr? {
              last := last.(stderr := f.sequence);
            } else {
              last := last.(stdout := f.sequence);
            }
          }
          pending := pending + [m.payload];
        case ErrorReport => return Err(ServerError);
        case SessionClosed => return Err(ClosedWhileResuming);
        case Exited(_) => return Err(ExitedWhileResuming);
        case _ =>
          assert pending + [] == pending;
      }
      i := i + 1;
    }
    return Err(StreamEnded);
  }
}
