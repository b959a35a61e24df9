/**
 The state of one capability session: the bounded replay buffer with its per-stream
 numbering, the single attachment slot and the rotating resume token.

 `Session` is the state as a value, with one function per operation.
 `SessionState` is the object that the server updates in place; its methods are proved
 against those functions and against the unbounded log of everything ever recorded.
 */
module Sessions {
  import opened Basics

  type Time = int

  datatype OutputStream = Stdout | Stderr

  /** A version 4 UUID; two calls of the generator never return the same one. */
  datatype Token = Token(uuid: nat)

  datatype Frame = Frame(stream: OutputStream, sequence: nat, data: Bytes, binary: bool, timestampMs: Option<int>)

  datatype Attachment = Attachment(
    id: nat, clientFingerprint: Option<string>, attachedAt: Time, lastHeartbeat: Option<Time>)

  datatype SessionError = NotFound | AlreadyAttached | NotAttached | InvalidResumeToken

  /** What a resuming client says it has seen, per stream. */
  datatype Cursor = Cursor(stdout: Option<nat>, stderr: Option<nat>) {
    predicate Before(f: Frame) {
      match f.stream
      case Stdout => stdout.None? || f.sequence > stdout.value
      case Stderr => stderr.None? || f.sequence > stderr.value
    }
  }

  // ---------------------------------------------------------------------------
  // The unbounded log
  // ---------------------------------------------------------------------------

  /** How many frames of stream s the log holds. */
  function Count(log: seq<Frame>, s: OutputStream): nat {
    if log == [] then 0
    else Count(log[..|log| - 1], s) + (if log[|log| - 1].stream == s then 1 else 0)
  }

  /** Every frame carries the next number of its own stream, starting at 1. */
  ghost predicate WellNumbered(log: seq<Frame>) {
    forall k :: 0 <= k < |log| ==> log[k].sequence == 1 + Count(log[..k], log[k].stream)
  }

  lemma {:induction false} CountGrows(log: seq<Frame>, i: nat, j: nat, s: OutputStream)
    requires i <= j <= |log|
    ensures Count(log[..i], s) <= Count(log[..j], s)
    ensures i < j && log[i].stream == s ==> Count(log[..i], s) < Count(log[..j], s)
    decreases j
  {
    if i < j {
      assert log[..j][..j - 1] == log[..j - 1];
      CountGrows(log, i, j - 1, s);
    }
  }

  /** On one stream, numbers and recording order agree. */
  lemma SequenceOrder(log: seq<Frame>, i: nat, j: nat)
    requires WellNumbered(log) && i < |log| && j < |log| && log[i].stream == log[j].stream
    ensures log[i].sequence <= log[j].sequence <==> i <= j
  {
    if i < j {
      CountGrows(log, i, j, log[i].stream);
    } else if j < i {
      CountGrows(log, j, i, log[i].stream);
    }
  }

  lemma WellNumberedPrefix(log: seq<Frame>, m: nat)
    requires WellNumbered(log) && m <= |log|
    ensures WellNumbered(log[..m])
  {
    forall k | 0 <= k < m
      ensures log[..m][k].sequence == 1 + Count(log[..m][..k], log[..m][k].stream)
    {
      assert log[..m][..k] == log[..k];
    }
  }

  lemma {:induction false} FindNumber(log: seq<Frame>, s: OutputStream, n: nat) returns (i: nat)
    requires WellNumbered(log) && 1 <= n <= Count(log, s)
    ensures i < |log| && log[i].stream == s && log[i].sequence == n
    decreases |log|
  {
    var m := |log| - 1;
    if n <= Count(log[..m], s) {
      WellNumberedPrefix(log, m);
      i := FindNumber(log[..m], s, n);
    } else {
      i := m;
    }
  }

  /** No number of a stream is missing: n is carried by a frame exactly when 1 <= n <= Count. */
  lemma NumbersAreGapFree(log: seq<Frame>, s: OutputStream, n: nat)
    requires WellNumbered(log)
    ensures 1 <= n <= Count(log, s) <==>
            exists i :: 0 <= i < |log| && log[i].stream == s && log[i].sequence == n
  {
    if 1 <= n <= Count(log, s) {
      var i := FindNumber(log, s, n);
    }
    forall i | 0 <= i < |log| && log[i].stream == s && log[i].sequence == n
      ensures 1 <= n <= Count(log, s)
    {
      CountGrows(log, i, |log|, s);
      assert log[..|log|] == log;
    }
  }

  lemma WellNumberedPush(log: seq<Frame>, f: Frame)
    requires WellNumbered(log) && f.sequence == 1 + Count(log, f.stream)
    ensures WellNumbered(log + [f])
    ensures forall s :: Count(log + [f], s) == Count(log, s) + (if f.stream == s then 1 else 0)
  {
    var log' := log + [f];
    assert log'[..|log|] == log;
    assert forall k :: 0 <= k <= |log| ==> log'[..k] == log[..k];
  }

  // ---------------------------------------------------------------------------
  // The session as a value
  // ---------------------------------------------------------------------------

  datatype Session = Session(
    resumeToken: Token,
    stdoutNext: nat,
    stderrNext: nat,
    capacity: nat,
    buffer: seq<Frame>,
    attachment: Option<Attachment>,
    createdAt: Time,
    lastActivity: Time,
    lastDetachedAt: Option<Time>)
  {
    function NextFrame(stream: OutputStream, data: Bytes, binary: bool, timestampMs: Option<int>): Frame {
      Frame(stream, if stream.Stdout? then stdoutNext else stderrNext, data, binary, timestampMs)
    }

    function Recorded(stream: OutputStream, data: Bytes, binary: bool, timestampMs: Option<int>, now: Time): Session {
      var pushed := buffer + [NextFrame(stream, data, binary, timestampMs)];
      this.(stdoutNext := if stream.Stdout? then stdoutNext + 1 else stdoutNext,
            stderrNext := if stream.Stderr? then stderrNext + 1 else stderrNext,
            buffer := if |pushed| > capacity then pushed[1..] else pushed,
            lastActivity := now)
    }

    function TryAttach(fingerprint: Option<string>, id: nat, now: Time): Result<Session, SessionError> {
      if attachment.Some? then Err(AlreadyAttached)
      else Ok(this.(attachment := Some(Attachment(id, fingerprint, now, None)), lastActivity := now))
    }

    function TryDetach(now: Time): Result<Session, SessionError> {
      if attachment.None? then Err(NotAttached)
      else Ok(this.(attachment := None, lastActivity := now, lastDetachedAt := Some(now)))
    }

    function TouchHeartbeat(now: Time): Result<Session, SessionError> {
      if attachment.None? then Err(NotAttached)
      else Ok(this.(attachment := Some(attachment.value.(lastHeartbeat := Some(now))), lastActivity := now))
    }

    /** The token is checked before the slot, and rotated only when the slot was free. */
    function AttachWithToken(token: Token, fingerprint: Option<string>, id: nat, next: Token, now: Time)
      : Result<Session, SessionError>
    {
      if resumeToken != token then Err(InvalidResumeToken)
      else match TryAttach(fingerprint, id, now)
        case Err(e) => Err(e)
        case Ok(s) => Ok(s.(resumeToken := next))
    }

    function OutputsSince(since: Cursor): seq<Frame> {
      Newer(buffer, since)
    }
  }

  function NewSession(capacity: nat, token: Token, now: Time): Session {
    Session(token, 1, 1, capacity, [], None, now, now, None)
  }

  /**
   A token attaches exactly if it is the current one and nobody is attached; a wrong token is reported
   even when somebody is. A token that attached is refused from then on, whatever else is asked.
   */
  lemma AttachWithTokenIff(s: Session, token: Token, who: Option<string>, id: nat, next: Token, now: Time,
                           who': Option<string>, id': nat, next': Token, now': Time)
    ensures var r := s.AttachWithToken(token, who, id, next, now);
            && (r.Ok? <==> token == s.resumeToken && s.attachment.None?)
            && (r == Err(InvalidResumeToken) <==> token != s.resumeToken)
            && (r == Err(AlreadyAttached) <==> token == s.resumeToken && s.attachment.Some?)
            && (r.Ok? ==>
                  && r.value.resumeToken == next && r.value.attachment == Some(Attachment(id, who, now, None))
                  && r.value.buffer == s.buffer && r.value.lastActivity == now
                  && (next != token ==> r.value.AttachWithToken(token, who', id', next', now') == Err(InvalidResumeToken)))
  {
  }

  /** The frames that lie after the cursor, in recording order. */
  function Newer(frames: seq<Frame>, since: Cursor): seq<Frame> {
    if frames == [] then []
    else
      var n := |frames| - 1;
      Newer(frames[..n], since) + if since.Before(frames[n]) then [frames[n]] else []
  }

  // ---------------------------------------------------------------------------
  // The bounded state refines the unbounded log
  // ---------------------------------------------------------------------------

  /** s is what a session of this capacity holds after recording exactly `log`. */
  ghost predicate Represents(s: Session, log: seq<Frame>) {
    && WellNumbered(log)
    && s.stdoutNext == 1 + Count(log, Stdout)
    && s.stderrNext == 1 + Count(log, Stderr)
    && s.buffer == LastN(log, s.capacity)
  }

  lemma RecordExtendsLog(s: Session, log: seq<Frame>, stream: OutputStream, data: Bytes, binary: bool,
                         timestampMs: Option<int>, now: Time)
    requires Represents(s, log)
    ensures var f := s.NextFrame(stream, data, binary, timestampMs);
            && f.sequence == 1 + Count(log, stream)
            && Represents(s.Recorded(stream, data, binary, timestampMs, now), log + [f])
  {
    var f := s.NextFrame(stream, data, binary, timestampMs);
    WellNumberedPush(log, f);
    BufferPush(s.buffer, log, f, s.capacity);
  }

  /** Dropping the oldest frame when the buffer is too long keeps it the newest part of the log. */
  lemma BufferPush(buffer: seq<Frame>, log: seq<Frame>, f: Frame, capacity: nat)
    requires buffer == LastN(log, capacity)
    ensures (if |buffer + [f]| > capacity then (buffer + [f])[1..] else buffer + [f]) == LastN(log + [f], capacity)
  {
    LastNPush(log, f, capacity);
  }

  /** Positions in log[lo..hi] of the frames after the cursor. */
  function NewerAt(log: seq<Frame>, lo: nat, hi: nat, since: Cursor): (r: seq<nat>)
    requires lo <= hi <= |log|
    ensures forall k :: 0 <= k < |r| ==> lo <= r[k] < hi
    decreases hi - lo
  {
    if lo == hi then []
    else NewerAt(log, lo, hi - 1, since) + if since.Before(log[hi - 1]) then [hi - 1] else []
  }

  ghost predicate Increasing(r: seq<nat>) {
    forall k, l :: 0 <= k < l < |r| ==> r[k] < r[l]
  }

  lemma {:induction false} NewerAtSorted(log: seq<Frame>, lo: nat, hi: nat, since: Cursor)
    requires lo <= hi <= |log|
    ensures Increasing(NewerAt(log, lo, hi, since))
    decreases hi - lo
  {
    if lo < hi {
      NewerAtSorted(log, lo, hi - 1, since);
      var a := NewerAt(log, lo, hi - 1, since);
      assert Increasing(a + [hi - 1]) && Increasing(a + []);
    }
  }

  lemma {:induction false} NewerAtHas(log: seq<Frame>, lo: nat, hi: nat, since: Cursor, i: nat)
    requires lo <= hi <= |log|
    ensures i in NewerAt(log, lo, hi, since) <==> lo <= i < hi && since.Before(log[i])
    decreases hi - lo
  {
    if lo < hi {
      NewerAtHas(log, lo, hi - 1, since, i);
    }
  }

  lemma NewerAtIsExact(log: seq<Frame>, lo: nat, hi: nat, since: Cursor)
    requires lo <= hi <= |log|
    ensures var r := NewerAt(log, lo, hi, since);
            && Increasing(r)
            && (forall i :: i in r <==> lo <= i < hi && since.Before(log[i]))
  {
    NewerAtSorted(log, lo, hi, since);
    forall i: nat ensures i in NewerAt(log, lo, hi, since) <==> lo <= i < hi && since.Before(log[i]) {
      NewerAtHas(log, lo, hi, since, i);
    }
  }

  function Pick(log: seq<Frame>, at: seq<nat>): seq<Frame>
    requires forall k :: 0 <= k < |at| ==> at[k] < |log|
  {
    seq(|at|, k requires 0 <= k < |at| => log[at[k]])
  }

  lemma PickPush(log: seq<Frame>, a: seq<nat>, i: nat)
    requires (forall k :: 0 <= k < |a| ==> a[k] < |log|) && i < |log|
    ensures Pick(log, a + [i]) == Pick(log, a) + [log[i]]
  {
  }

  lemma NewerPush(frames: seq<Frame>, f: Frame, since: Cursor)
    ensures Newer(frames + [f], since) == Newer(frames, since) + if since.Before(f) then [f] else []
  {
    assert (frames + [f])[..|frames|] == frames;
  }

  lemma {:induction false} NewerPicks(log: seq<Frame>, lo: nat, hi: nat, since: Cursor)
    requires lo <= hi <= |log|
    ensures Newer(log[lo..hi], since) == Pick(log, NewerAt(log, lo, hi, since))
    decreases hi - lo
  {
    if lo < hi {
      NewerPicks(log, lo, hi - 1, since);
      assert log[lo..hi] == log[lo..hi - 1] + [log[hi - 1]];
      NewerPush(log[lo..hi - 1], log[hi - 1], since);
      var a := NewerAt(log, lo, hi - 1, since);
      if since.Before(log[hi - 1]) {
        PickPush(log, a, hi - 1);
      } else {
        assert NewerAt(log, lo, hi, since) == a;
      }
    }
  }

  /**
   outputs_since answers with exactly the retained frames after the cursor, in recording
   order, each once. `evicted` is how much of the log the buffer has forgotten.
   */
  lemma OutputsSinceIsLogFilter(s: Session, log: seq<Frame>, since: Cursor)
    requires Represents(s, log)
    ensures |s.buffer| == Min(|log|, s.capacity)
    ensures var evicted := |log| - |s.buffer|;
            s.OutputsSince(since) == Pick(log, NewerAt(log, evicted, |log|, since))
  {
    var evicted := |log| - |s.buffer|;
    assert s.buffer == log[evicted..|log|];
    NewerPicks(log, evicted, |log|, since);
  }

  /** Asking without a cursor and asking from zero are the same question. */
  lemma NoCursorIsZero(s: Session, log: seq<Frame>)
    requires Represents(s, log)
    ensures s.OutputsSince(Cursor(None, None)) == s.OutputsSince(Cursor(Some(0), Some(0))) == s.buffer
  {
    forall k | 0 <= k < |s.buffer| ensures s.buffer[k].sequence > 0 {
      BufferNumbered(s, log, k);
    }
    NewerKeepsAll(s.buffer, Cursor(None, None));
    NewerKeepsAll(s.buffer, Cursor(Some(0), Some(0)));
  }

  ghost predicate Retains(frames: seq<Frame>, stream: OutputStream, n: nat) {
    exists k :: 0 <= k < |frames| && frames[k].stream == stream && frames[k].sequence == n
  }

  /**
   No gap inside the buffer: the numbers of a stream that it retains are exactly those from one
   past the count of the evicted frames up to the count of all.
   */
  lemma BufferIsGapFree(s: Session, log: seq<Frame>, stream: OutputStream, n: nat)
    requires Represents(s, log)
    ensures Retains(s.buffer, stream, n) <==> Count(log[..|log| - |s.buffer|], stream) < n <= Count(log, stream)
  {
    if Retains(s.buffer, stream, n) {
      var k: nat :| k < |s.buffer| && s.buffer[k].stream == stream && s.buffer[k].sequence == n;
      NumberRetained(s, log, k);
    } else if Count(log[..|log| - |s.buffer|], stream) < n <= Count(log, stream) {
      var k := RetainedNumber(s, log, stream, n);
    }
  }

  lemma NumberRetained(s: Session, log: seq<Frame>, k: nat)
    requires Represents(s, log) && k < |s.buffer|
    ensures Count(log[..|log| - |s.buffer|], s.buffer[k].stream) < s.buffer[k].sequence <= Count(log, s.buffer[k].stream)
  {
    BufferAt(s, log, k);
    RetainedIff(log, |log| - |s.buffer|, |log| - |s.buffer| + k);
  }

  lemma RetainedNumber(s: Session, log: seq<Frame>, stream: OutputStream, n: nat) returns (k: nat)
    requires Represents(s, log) && Count(log[..|log| - |s.buffer|], stream) < n <= Count(log, stream)
    ensures k < |s.buffer| && s.buffer[k].stream == stream && s.buffer[k].sequence == n
  {
    var i := FindNumber(log, stream, n);
    RetainedIff(log, |log| - |s.buffer|, i);
    k := i - (|log| - |s.buffer|);
    BufferAt(s, log, k);
  }

  lemma BufferAt(s: Session, log: seq<Frame>, k: nat)
    requires Represents(s, log) && k < |s.buffer|
    ensures s.buffer[k] == log[|log| - |s.buffer| + k]
  {
  }

  /** A frame lies after the first m of the log exactly when its number exceeds their count. */
  lemma RetainedIff(log: seq<Frame>, m: nat, i: nat)
    requires WellNumbered(log) && m <= |log| && i < |log|
    ensures i >= m <==> log[i].sequence > Count(log[..m], log[i].stream)
    ensures log[i].sequence <= Count(log, log[i].stream)
  {
    if i >= m {
      CountGrows(log, m, i, log[i].stream);
    } else {
      CountGrows(log, i, m, log[i].stream);
    }
    CountGrows(log, i, |log|, log[i].stream);
    assert log[..|log|] == log;
  }

  lemma BufferNumbered(s: Session, log: seq<Frame>, k: nat)
    requires Represents(s, log) && k < |s.buffer|
    ensures s.buffer[k].sequence > 0
  {
    assert s.buffer[k] == log[|log| - |s.buffer| + k];
  }

  lemma {:induction false} NewerKeepsAll(frames: seq<Frame>, since: Cursor)
    requires forall k :: 0 <= k < |frames| ==> since.Before(frames[k])
    ensures Newer(frames, since) == frames
    decreases |frames|
  {
    if frames != [] {
      NewerKeepsAll(frames[..|frames| - 1], since);
    }
  }

  /**
   A replay from cursor c leaves no gap on stream `stream` exactly when c has reached the
   number of frames of that stream which the buffer has forgotten.
   */
  lemma ReplayIsCompleteIff(s: Session, log: seq<Frame>, stream: OutputStream, c: nat)
    requires Represents(s, log)
    ensures var evicted := |log| - |s.buffer|;
            (forall i :: 0 <= i < |log| && log[i].stream == stream && log[i].sequence > c ==>
                           i in NewerAt(log, evicted, |log|, Cursor(Some(c), Some(c))))
            <==> Count(log[..evicted], stream) <= c
  {
    var evicted := |log| - |s.buffer|;
    var since := Cursor(Some(c), Some(c));
    NewerAtIsExact(log, evicted, |log|, since);
    if Count(log[..evicted], stream) <= c {
      forall i | 0 <= i < |log| && log[i].stream == stream && log[i].sequence > c
        ensures i in NewerAt(log, evicted, |log|, since)
      {
        if i < evicted {
          CountGrows(log, i, evicted, stream);
          assert false;
        }
      }
    } else {
      var gone := log[..evicted];
      WellNumberedPrefix(log, evicted);
      var i := FindNumber(gone, stream, c + 1);
      assert log[i].stream == stream && log[i].sequence > c;
      assert i !in NewerAt(log, evicted, |log|, since);
    }
  }

  // ---------------------------------------------------------------------------
  // The object the server updates in place
  // ---------------------------------------------------------------------------

  class SessionState {
    var resumeToken: Token
    var stdoutNextSequence: nat
    var stderrNextSequence: nat
    const bufferCapacity: nat
    var outputBuffer: seq<Frame>
    var attachment: Option<Attachment>
    const createdAt: Time
    var lastActivity: Time
    var lastDetachedAt: Option<Time>
    ghost var log: seq<Frame>  // everything ever recorded

    ghost function View(): Session
      reads this
    {
      Session(resumeToken, stdoutNextSequence, stderrNextSequence, bufferCapacity, outputBuffer,
              attachment, createdAt, lastActivity, lastDetachedAt)
    }

    ghost predicate Valid()
      reads this
    {
      Represents(View(), log)
    }

    constructor (capacity: nat, token: Token, now: Time)
      ensures Valid() && log == [] && View() == NewSession(capacity, token, now)
    {
      resumeToken := token;
      stdoutNextSequence, stderrNextSequence := 1, 1;
      bufferCapacity := capacity;
      outputBuffer := [];
      attachment := None;
      createdAt, lastActivity, lastDetachedAt := now, now, None;
      log := [];
    }

    method RotateResumeToken(next: Token) returns (token: Token)
      requires Valid()
      modifies this
      ensures Valid() && log == old(log) && token == next
      ensures View() == old(View()).(resumeToken := next)
    {
      token := next;
      resumeToken := token;
    }

    method TryAttach(fingerprint: Option<string>, id: nat, now: Time) returns (r: Result<Attachment, SessionError>)
      requires Valid()
      modifies this
      ensures Valid() && log == old(log)
      ensures match old(View()).TryAttach(fingerprint, id, now)
              case Ok(s) => View() == s && r == Ok(Attachment(id, fingerprint, now, None))
              case Err(e) => View() == old(View()) && r == Err(e)
      ensures if old(attachment).None? then r.Ok? && attachment == Some(r.value) && lastActivity == now
              else r == Err(AlreadyAttached) && attachment == old(attachment)
    {
      if attachment.Some? {
        return Err(AlreadyAttached);
      }
      var a := Attachment(id, fingerprint, now, None);
      lastActivity := a.attachedAt;
      attachment := Some(a);
      return Ok(a);
    }

    method TryDetach(now: Time) returns (r: Result<Attachment, SessionError>)
      requires Valid()
      modifies this
      ensures Valid() && log == old(log)
      ensures match old(View()).TryDetach(now)
              case Ok(s) => View() == s && old(attachment).Some? && r == Ok(old(attachment).value)
              case Err(e) => View() == old(View()) && r == Err(e)
      ensures if old(attachment).Some? then attachment.None? && lastActivity == now && lastDetachedAt == Some(now)
              else r == Err(NotAttached) && lastDetachedAt == old(lastDetachedAt)
    {
      match attachment {
        case Some(a) =>
          attachment := None;
          lastActivity := now;
          lastDetachedAt := Some(lastActivity);
          return Ok(a);
        case None =>
          return Err(NotAttached);
      }
    }

    method TouchHeartbeat(now: Time) returns (r: Result<(), SessionError>)
      requires Valid()
      modifies this
      ensures Valid() && log == old(log)
      ensures match old(View()).TouchHeartbeat(now)
              case Ok(s) => View() == s && r == Ok(())
              case Err(e) => View() == old(View()) && r == Err(e)
      ensures if old(attachment).Some?
              then r.Ok? && attachment == Some(old(attachment).value.(lastHeartbeat := Some(now))) && lastActivity == now
              else r == Err(NotAttached) && attachment.None?
    {
      match attachment {
        case Some(a) =>
          attachment := Some(a.(lastHeartbeat := Some(now)));
          lastActivity := now;
          return Ok(());
        case None =>
          return Err(NotAttached);
      }
    }

    /** Numbers the chunk, appends it to the log, and forgets the oldest frame when over capacity. */
    method RecordOutput(stream: OutputStream, data: Bytes, binary: bool, timestampMs: Option<int>, now: Time)
      returns (frame: Frame)
      requires Valid()
      modifies this
      ensures Valid() && log == old(log) + [frame]
      ensures frame == Frame(stream, 1 + Count(old(log), stream), data, binary, timestampMs)
      ensures View() == old(View()).Recorded(stream, data, binary, timestampMs, now) && lastActivity == now
    {
      RecordExtendsLog(View(), log, stream, data, binary, timestampMs, now);
      frame := PushOutput(stream, data, binary, timestampMs, now);
      log := log + [frame];
    }

    /** The field updates of RecordOutput. */
    method PushOutput(stream: OutputStream, data: Bytes, binary: bool, timestampMs: Option<int>, now: Time)
      returns (frame: Frame)
      modifies this
      ensures log == old(log)
      ensures frame == old(View()).NextFrame(stream, data, binary, timestampMs)
      ensures View() == old(View()).Recorded(stream, data, binary, timestampMs, now)
    {
      var sequence;
      match stream {
        case Stdout =>
          sequence := stdoutNextSequence;
          stdoutNextSequence := stdoutNextSequence + 1;
        case Stderr =>
          sequence := stderrNextSequence;
          stderrNextSequence := stderrNextSequence + 1;
      }
      frame := Frame(stream, sequence, data, binary, timestampMs);
      outputBuffer := outputBuffer + [frame];
      if |outputBuffer| > bufferCapacity {
        outputBuffer := outputBuffer[1..];
      }
      lastActivity := now;
    }

    /** The retained part of the log after the cursor, computed in one pass over the buffer. */
    method OutputsSince(lastStdout: Option<nat>, lastStderr: Option<nat>) returns (r: seq<Frame>)
      requires Valid()
      ensures r == Newer(LastN(log, bufferCapacity), Cursor(lastStdout, lastStderr))
    {
      r := [];
      var since := Cursor(lastStdout, lastStderr);
      for i := 0 to |outputBuffer|
        invariant r == Newer(outputBuffer[..i], since)
      {
        assert outputBuffer[..i + 1][..i] == outputBuffer[..i];
        if since.Before(outputBuffer[i]) {
          r := r + [outputBuffer[i]];
        }
      }
      assert outputBuffer[..|outputBuffer|] == outputBuffer;
    }
  }
}
