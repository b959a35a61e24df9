/** The relay client's reconnection loop: exponential back-off up to a configured maximum. */
module Backoff {
  import opened Basics

  /** How one connection attempt ended. */
  datatype Outcome =
    | ClosedGracefully
    | LostWhenConnected
    | NeverConnected

  const U64_LIMIT: nat := 0x1_0000_0000_0000_0000
  const HALF: nat := 0x8000_0000_0000_0000

  predicate Resets(o: Outcome) {
    o.ClosedGracefully? || o.LostWhenConnected?
  }

  /** How many of the attempts just before attempt `n` failed without ever connecting, in a row. */
  function Streak(outcomes: seq<Outcome>, n: nat): nat
    requires n <= |outcomes|
  {
    if n == 0 || Resets(outcomes[n - 1]) then 0 else 1 + Streak(outcomes, n - 1)
  }

  function Pow2(k: nat): (p: nat)
    ensures p >= 1
  {
    if k == 0 then 1 else 2 * Pow2(k - 1)
  }

  /** The pause after attempt `i`. */
  function Pause(outcomes: seq<Outcome>, max: nat, i: nat): nat
    requires i < |outcomes|
  {
    if Resets(outcomes[i]) || Streak(outcomes, i) == 0 then 1 else Min(Pow2(Streak(outcomes, i)), max)
  }

  /** Somewhere in the first `n` attempts the delay is doubled past the largest 64-bit number. */
  ghost predicate Overflows(outcomes: seq<Outcome>, max: nat, n: nat)
    requires n <= |outcomes|
  {
    max >= HALF && exists m :: 0 <= m <= n && Streak(outcomes, m) >= 64
  }

  /**
   The loop over the attempts that are made, given how each ends. It stops after the first
   attempt without automatic reconnection, and where the doubling overflows.
   */
  method Reconnect(outcomes: seq<Outcome>, max: nat, autoConnect: bool) returns (pauses: seq<nat>, overflowed: bool)
    ensures |pauses| <= |outcomes|
    ensures forall i :: 0 <= i < |pauses| ==> pauses[i] == Pause(outcomes, max, i)
    ensures overflowed <==> autoConnect && Overflows(outcomes, max, |outcomes|)
    ensures !autoConnect ==> pauses == []
    ensures autoConnect && !overflowed ==> |pauses| == |outcomes|
    ensures overflowed ==> Streak(outcomes, |pauses|) == 64 && !Overflows(outcomes, max, |pauses| - 1)
  {
    pauses, overflowed := [], false;
    if !autoConnect {
      return;
    }
    var delay := 1;
    var i := 0;
    while i < |outcomes|
      invariant i <= |outcomes| && |pauses| == i
      invariant forall k :: 0 <= k < i ==> pauses[k] == Pause(outcomes, max, k)
      invariant delay == if Streak(outcomes, i) == 0 then 1 else Min(Pow2(Streak(outcomes, i)), max)
      invariant !Overflows(outcomes, max, i)
    {
      var reset := outcomes[i].ClosedGracefully? || outcomes[i].LostWhenConnected?;
      if reset {
        delay := 1;
      }
      pauses := pauses + [delay];
      PowerBound(Streak(outcomes, i));
      if reset {
        delay := 1;
      } else if delay * 2 >= U64_LIMIT {
        overflowed := true;
        assert Streak(outcomes, i + 1) >= 64;
        return;
      } else {
        delay := Min(delay * 2, max);
      }
      i := i + 1;
    }
  }

  // ---------------------------------------------------------------------------
  // What the pauses are
  // ---------------------------------------------------------------------------

  lemma {:induction false} PowAdd(a: nat, b: nat)
    ensures Pow2(a + b) == Pow2(a) * Pow2(b)
  {
    if a > 0 {
      PowAdd(a - 1, b);
    }
  }

  lemma Pow32()
    ensures Pow2(32) == 0x1_0000_0000
  {
    PowAdd(4, 4);
    assert Pow2(8) == 256;
    PowAdd(8, 8);
    assert Pow2(16) == 65536;
    PowAdd(16, 16);
  }

  lemma PowHalf()
    ensures Pow2(63) == HALF
  {
    Pow32();
    PowAdd(32, 31);
    assert Pow2(32) == 2 * Pow2(31);
  }

  lemma PowerBound(k: nat)
    ensures Pow2(k) >= HALF <==> k >= 63
  {
    PowHalf();
    if k >= 63 {
      PowAdd(63, k - 63);
    } else {
      PowerSmaller(k);
    }
  }

  lemma PowerSmaller(k: nat)
    requires k < 63
    ensures Pow2(k) < HALF
  {
    PowHalf();
    PowAdd(k, 62 - k);
    assert Pow2(63) == 2 * Pow2(62);
  }

  /** With the validated maximum, the pause after k failures in a row before it is min(2^k, max). */
  lemma PauseClosedForm(outcomes: seq<Outcome>, max: nat, i: nat)
    requires max >= 1 && i < |outcomes|
    ensures Pause(outcomes, max, i) == if Resets(outcomes[i]) then 1 else Min(Pow2(Streak(outcomes, i)), max)
    ensures 1 <= Pause(outcomes, max, i) <= max
  {
  }

  /** Failures without a connection never shorten the pause; anything else brings it back to one second. */
  lemma PauseGrows(outcomes: seq<Outcome>, max: nat, i: nat)
    requires max >= 1 && i + 1 < |outcomes| && outcomes[i].NeverConnected? && outcomes[i + 1].NeverConnected?
    ensures Pause(outcomes, max, i + 1) == Min(2 * Pause(outcomes, max, i), max)
  {
  }

  /** An attempt that got a connection, however it ended, brings the pause after it, and the next one, back to one second. */
  lemma ConnectionResets(outcomes: seq<Outcome>, max: nat, i: nat)
    requires i < |outcomes| && !outcomes[i].NeverConnected?
    ensures Pause(outcomes, max, i) == 1 && (i + 1 < |outcomes| ==> Pause(outcomes, max, i + 1) == 1)
  {
    assert Streak(outcomes, i + 1) == 0;
  }

  /** The doubling can overflow exactly when the configured maximum is 2^63 or more. */
  lemma OverflowIff(max: nat)
    ensures (exists outcomes: seq<Outcome> :: Overflows(outcomes, max, |outcomes|)) <==> max >= HALF
  {
    if max >= HALF {
      var outcomes := seq(64, _ => NeverConnected);
      AllFailures(outcomes, 64);
      assert Overflows(outcomes, max, |outcomes|);
    }
  }

  lemma {:induction false} AllFailures(outcomes: seq<Outcome>, n: nat)
    requires n <= |outcomes| && forall i :: 0 <= i < n ==> outcomes[i].NeverConnected?
    ensures Streak(outcomes, n) == n
  {
    if n > 0 {
      AllFailures(outcomes, n - 1);
    }
  }
}
