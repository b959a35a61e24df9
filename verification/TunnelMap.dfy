/**
 How long a tunnel stays in the relay's map, why its handlers end, and who is woken. A tunnel leaves
 the map with the first step that gives it up, and for good; a handler that ends without both sides
 being ready has given it up.
 */
module TunnelMap {
  import opened Basics
  import opened Rendezvous

  // ---------------------------------------------------------------------------
  // When the tunnel leaves the map
  // ---------------------------------------------------------------------------

  /** The steps that give the tunnel up. */
  predicate GivesUp(t: Tunnel, a: Action) {
    || a.Refuse?                                        // no role or token
    || (a.Verify? && t.secret != Some(a.provided))      // wrong or spent secret
    || a == Bail(0)                                     // the client went away before it was ready
    || a.Reap?                                          // a timeout
    || a.ForwardingEnds?
  }

  /** No step of a run before position n gives the tunnel up. */
  ghost predicate KeptUpTo(start: Tunnel, actions: seq<Action>, n: nat) {
    forall k :: 0 <= k < n <= |actions| ==>
      Exec(start, actions[..k]).Some? ==> !GivesUp(Exec(start, actions[..k]).value, actions[k])
  }

  lemma MapStep(t: Tunnel, a: Action)
    requires Can(t, a)
    ensures Do(t, a).inMap <==> t.inMap && !GivesUp(t, a)
  {
    match a
    case Verify(_, _) =>
    case Place(_) =>
    case TakeClient(_) =>
    case TakeServer(_) =>
    case Expire(_) =>
    case Reap(_) =>
    case _ =>
  }

  /** After any run, the tunnel is in the map exactly if no step of the run has given it up. */
  lemma {:induction false} InMapIff(secret: nat, actions: seq<Action>)
    requires Exec(Init(secret), actions).Some?
    ensures Exec(Init(secret), actions).value.inMap <==> KeptUpTo(Init(secret), actions, |actions|)
    decreases |actions|
  {
    if actions != [] {
      var n := |actions| - 1;
      InMapIff(secret, actions[..n]);
      MapStep(Exec(Init(secret), actions[..n]).value, actions[n]);
      assert forall k :: 0 <= k < n ==> actions[..n][..k] == actions[..k];
    }
  }

  /** Once out of the map, the tunnel stays out, and nobody finds it any more. */
  lemma {:induction false} GoneFromMap(t: Tunnel, actions: seq<Action>)
    requires !t.inMap && Exec(t, actions).Some?
    ensures !Exec(t, actions).value.inMap && Exec(t, actions).value.handlers.Keys == t.handlers.Keys
    decreases |actions|
  {
    if actions != [] {
      var n := |actions| - 1;
      GoneFromMap(t, actions[..n]);
      var u := Exec(t, actions[..n]).value;
      MapStep(u, actions[n]);
      NoArrivals(u, actions[n]);
    }
  }

  lemma NoArrivals(t: Tunnel, a: Action)
    requires Can(t, a) && !t.inMap
    ensures Do(t, a).handlers.Keys == t.handlers.Keys
  {
    if Late(a) {
      LateSameHandlers(t, a);
    } else if Pairs(a) {
      PairingSameHandlers(t, a);
    } else {
      EarlySameHandlers(t, a);
    }
  }

  lemma LateSameHandlers(t: Tunnel, a: Action)
    requires Can(t, a) && Late(a)
    ensures Do(t, a).handlers.Keys == t.handlers.Keys
  {
    match a
    case Expire(_) =>
    case AfterExpiry(_) =>
    case Reap(_) =>
    case ForwardingEnds =>
  }

  lemma PairingSameHandlers(t: Tunnel, a: Action)
    requires Can(t, a) && Pairs(a)
    ensures Do(t, a).handlers.Keys == t.handlers.Keys
  {
  }

  lemma EarlySameHandlers(t: Tunnel, a: Action)
    requires Can(t, a) && !t.inMap && !Late(a) && !Pairs(a)
    ensures Do(t, a).handlers.Keys == t.handlers.Keys
  {
    match a
    case Verify(_, _) =>
    case Announce(_) =>
    case Place(_) =>
    case _ =>
  }

  // ---------------------------------------------------------------------------
  // Why a handler ends
  // ---------------------------------------------------------------------------

  /** The step ends handler h. */
  predicate EndsHandler(t: Tunnel, a: Action, h: nat) {
    || a == Refuse(h)
    || (a.Verify? && a.h == h && t.secret != Some(a.provided))
    || a == Bail(h)
    || (a == TakeServer(h) && t.serverSlot.Some?)
    || ((a == Check(h) || a == AfterExpiry(h)) && t.clientReady && t.serverReady)
    || a == Reap(h)
  }

  /** The handler that takes the step, before and after it. */
  predicate Acts(a: Action, h: nat) {
    !a.ForwardingEnds? && a.h == h
  }

  lemma LateActor(t: Tunnel, a: Action)
    requires Can(t, a) && Late(a) && !a.ForwardingEnds?
    ensures a.h in t.handlers && a.h in Do(t, a).handlers
    ensures !Marks(Do(t, a).handlers[a.h].pc) && (Do(t, a).handlers[a.h].pc.Exited? <==> EndsHandler(t, a, a.h))
  {
    match a
    case Expire(_) =>
    case AfterExpiry(_) =>
    case Reap(_) =>
  }

  /** Before its own mark. */
  predicate Marks(pc: Pc) {
    pc.Greeting? || pc.Admitted?
  }

  lemma PairingActor(t: Tunnel, a: Action)
    requires Can(t, a) && Pairs(a) && (t.handlers[a.h].pc.Holding? ==> t.handlers[a.h].hand.Some?)
    ensures a.h in t.handlers && a.h in Do(t, a).handlers
    ensures !Marks(Do(t, a).handlers[a.h].pc) && (Do(t, a).handlers[a.h].pc.Exited? <==> EndsHandler(t, a, a.h))
  {
    match a
    case TakeClient(_) =>
    case TakeServer(_) =>
    case PutBack(_) =>
    case Park(_) =>
    case Check(_) =>
  }

  lemma EarlyActor(t: Tunnel, a: Action)
    requires Can(t, a) && !Late(a) && !Pairs(a)
    ensures a.h in Do(t, a).handlers
    ensures Do(t, a).handlers[a.h].pc.Exited? <==> EndsHandler(t, a, a.h)
    ensures Marks(Do(t, a).handlers[a.h].pc) <==> a.Arrive? || (a.Verify? && t.secret == Some(a.provided))
  {
    match a
    case Arrive(_) =>
    case Refuse(_) =>
    case Verify(_, _) =>
    case Bail(_) =>
    case Mark(_) =>
    case Announce(_) =>
    case Place(_) =>
  }

  /** Everybody else stays, except that a notification wakes those that are parked. */
  lemma OthersStay(t: Tunnel, a: Action, h: nat)
    requires Can(t, a) && h in t.handlers && !Acts(a, h)
    ensures h in Do(t, a).handlers
    ensures Do(t, a).handlers[h] ==
            if a.Announce? && t.handlers[h].pc.Parked? then Handler(Taking(true), t.handlers[h].hand) else t.handlers[h]
  {
    if Late(a) {
      LateOthers(t, a, h);
    } else if Pairs(a) {
      PairingOthers(t, a, h);
    } else {
      EarlyOthers(t, a, h);
    }
  }

  lemma LateOthers(t: Tunnel, a: Action, h: nat)
    requires Can(t, a) && Late(a) && h in t.handlers && !Acts(a, h)
    ensures h in Do(t, a).handlers && Do(t, a).handlers[h] == t.handlers[h]
  {
    match a
    case Expire(_) =>
    case AfterExpiry(_) =>
    case Reap(_) =>
    case ForwardingEnds =>
  }

  lemma PairingOthers(t: Tunnel, a: Action, h: nat)
    requires Can(t, a) && Pairs(a) && h in t.handlers && !Acts(a, h)
    ensures h in Do(t, a).handlers && Do(t, a).handlers[h] == t.handlers[h]
  {
    match a
    case TakeClient(_) =>
    case TakeServer(_) =>
    case PutBack(_) =>
    case Park(_) =>
    case Check(_) =>
  }

  lemma EarlyOthers(t: Tunnel, a: Action, h: nat)
    requires Can(t, a) && !Late(a) && !Pairs(a) && h in t.handlers && !Acts(a, h)
    ensures h in Do(t, a).handlers
    ensures Do(t, a).handlers[h] ==
            if a.Announce? && t.handlers[h].pc.Parked? then Handler(Taking(true), t.handlers[h].hand) else t.handlers[h]
  {
    match a
    case Verify(_, _) =>
    case Announce(_) =>
    case Place(_) =>
    case _ =>
  }

  lemma Actor(t: Tunnel, a: Action)
    requires Can(t, a) && !a.ForwardingEnds? && (a.h in t.handlers ==> HandlerHand(t, a.h))
    ensures a.h in Do(t, a).handlers
    ensures Do(t, a).handlers[a.h].pc.Exited? <==> EndsHandler(t, a, a.h)
    ensures Marks(Do(t, a).handlers[a.h].pc) ==> a.Arrive? || (a.Verify? && t.secret == Some(a.provided))
  {
    if Late(a) {
      LateActor(t, a);
    } else if Pairs(a) {
      PairingActor(t, a);
    } else {
      EarlyActor(t, a);
    }
  }

  predicate HandlerHand(t: Tunnel, h: nat)
    requires h in t.handlers
  {
    t.handlers[h].pc.Holding? ==> t.handlers[h].hand.Some?
  }

  /** Exactly the steps that end a handler: refusal, failure, a pair found, both sides ready, or its own timeout. */
  lemma HandlerEndsIff(t: Tunnel, a: Action, h: nat)
    requires Reachable(t) && Can(t, a) && h in t.handlers && !t.handlers[h].pc.Exited?
    ensures h in Do(t, a).handlers && (Do(t, a).handlers[h].pc.Exited? <==> EndsHandler(t, a, h))
  {
    ReachableInv(t);
    assert HandlerInv(t, h);
    HandlerEnds(t, a, h);
  }

  lemma HandlerEnds(t: Tunnel, a: Action, h: nat)
    requires Can(t, a) && h in t.handlers && !t.handlers[h].pc.Exited? && HandlerHand(t, h)
    ensures h in Do(t, a).handlers && (Do(t, a).handlers[h].pc.Exited? <==> EndsHandler(t, a, h))
  {
    if Acts(a, h) {
      Actor(t, a);
    } else {
      OthersStay(t, a, h);
    }
  }

  /** A notification wakes every handler that is parked, and nothing else does, short of its own timeout. */
  lemma WokenIff(t: Tunnel, a: Action, h: nat)
    requires Can(t, a) && h in t.handlers && t.handlers[h].pc.Parked?
    ensures h in Do(t, a).handlers && (Do(t, a).handlers[h].pc.Parked? <==> !a.Announce? && a != Expire(h))
    ensures a.Announce? ==> Do(t, a).handlers[h].pc == Taking(true)
  {
    if !Acts(a, h) {
      OthersStay(t, a, h);
    }
  }

  function PcAfter(t: Tunnel, a: Action, h: nat): Pc
    requires Can(t, a) && h in Do(t, a).handlers
  {
    Do(t, a).handlers[h].pc
  }

  /**
   How a handler goes on without a pair. The first time it goes to wait without looking at the marks.
   Once woken, it looks at them after every miss, leaves if both sides are ready, and waits again if
   not. Between deciding to wait and being parked there is a step, in which a notification is lost on it.
   */
  lemma WaitLoop(t: Tunnel, h: nat)
    requires h in t.handlers
    ensures t.handlers[h].pc.Taking? && t.clientSlot.None? ==>
              PcAfter(t, TakeClient(h), h) == if t.handlers[h].pc.waiting then Checking else Looping
    ensures t.handlers[h].pc.Returning? ==> PcAfter(t, PutBack(h), h) == if t.handlers[h].pc.waiting then Checking else Looping
    ensures t.handlers[h].pc.Checking? ==> PcAfter(t, Check(h), h) == if t.clientReady && t.serverReady then Exited else Looping
    ensures t.handlers[h].pc.Looping? ==> PcAfter(t, Park(h), h) == Parked
  {
  }

  /** The marks say who has come so far: a side is marked ready by its own handler only, once past its greeting. */
  ghost predicate MarkInv(t: Tunnel) {
    && 0 in t.handlers
    && (t.clientReady ==> !t.handlers[0].pc.Greeting? && !t.handlers[0].pc.Admitted?)
    && (t.serverReady ==>
          t.admitted.Some? && t.admitted.value in t.handlers
          && !t.handlers[t.admitted.value].pc.Greeting? && !t.handlers[t.admitted.value].pc.Admitted?)
  }

  predicate HasEnded(t: Tunnel, h: Option<nat>) {
    h.Some? && h.value in t.handlers && t.handlers[h.value].pc.Exited?
  }

  /** A handler that has ended before both sides were ready has given the tunnel up. */
  ghost predicate EndInv(t: Tunnel) {
    && 0 in t.handlers
    && (t.handlers[0].pc.Exited? && !FullyReady(t) ==> !t.inMap)
    && (forall h :: h in t.handlers && h != 0 && t.handlers[h].pc.Exited? && t.admitted != Some(h) ==> !t.inMap)
    && (HasEnded(t, t.admitted) && t.serverReady && !t.clientReady ==> !t.inMap)
  }

  lemma FlagStep(t: Tunnel, a: Action)
    requires Can(t, a)
    ensures Do(t, a).clientReady <==> t.clientReady || a == Mark(0)
    ensures Do(t, a).serverReady <==> t.serverReady || (a.Mark? && a.h != 0)
    ensures Do(t, a).admitted == if a.Verify? && t.secret == Some(a.provided) then Some(a.h) else t.admitted
  {
    match a
    case Verify(_, _) =>
    case Mark(_) =>
    case Place(_) =>
    case TakeClient(_) =>
    case TakeServer(_) =>
    case Expire(_) =>
    case Reap(_) =>
    case _ =>
  }

  /** A handler past its mark stays past it, and a mark takes it there. */
  lemma PastMark(t: Tunnel, a: Action, h: nat)
    requires Can(t, a) && h in t.handlers && HandlerHand(t, h) && (!Marks(t.handlers[h].pc) || a == Mark(h))
    ensures h in Do(t, a).handlers && !Marks(Do(t, a).handlers[h].pc)
  {
    if Acts(a, h) {
      Actor(t, a);
    } else {
      OthersStay(t, a, h);
    }
  }

  lemma MarkStep(t: Tunnel, a: Action)
    requires Inv(t) && MarkInv(t) && Can(t, a)
    ensures MarkInv(Do(t, a))
  {
    assert HandlerInv(t, 0);
    FlagStep(t, a);
    HandlerStays(t, a, 0);
    if Do(t, a).clientReady {
      PastMark(t, a, 0);
    }
    if Do(t, a).serverReady {
      var h := if a.Mark? && a.h != 0 then a.h else t.admitted.value;
      assert HandlerInv(t, h);
      PastMark(t, a, h);
    }
  }

  lemma EndStep(t: Tunnel, a: Action)
    requires Inv(t) && MarkInv(t) && EndInv(t) && Can(t, a)
    ensures EndInv(Do(t, a))
  {
    HandlerStays(t, a, 0);
    MapStep(t, a);
    FlagStep(t, a);
    forall h | h in Do(t, a).handlers && Do(t, a).handlers[h].pc.Exited? && Do(t, a).inMap
      ensures h == 0 ==> FullyReady(Do(t, a))
      ensures h != 0 ==> Do(t, a).admitted == Some(h) && (Do(t, a).serverReady ==> Do(t, a).clientReady)
    {
      EndedWhileKept(t, a, h);
    }
  }

  /** In a tunnel that is kept, a handler ends, or has ended, only with both sides ready, or as a server that failed before its mark. */
  lemma EndedWhileKept(t: Tunnel, a: Action, h: nat)
    requires Inv(t) && MarkInv(t) && EndInv(t) && Can(t, a)
    requires h in Do(t, a).handlers && Do(t, a).handlers[h].pc.Exited? && Do(t, a).inMap
    ensures h == 0 ==> FullyReady(Do(t, a))
    ensures h != 0 ==> Do(t, a).admitted == Some(h) && (Do(t, a).serverReady ==> Do(t, a).clientReady)
  {
    MapStep(t, a);
    FlagStep(t, a);
    if h in t.handlers {
      assert HandlerInv(t, h) && ReadyInv(t, h);
    }
    if Acts(a, h) {
      Actor(t, a);
    } else {
      assert h in t.handlers;
      OthersStay(t, a, h);
    }
  }

  lemma {:induction false} RunKeeps(t: Tunnel, actions: seq<Action>)
    requires Inv(t) && MarkInv(t) && EndInv(t) && Exec(t, actions).Some?
    ensures MarkInv(Exec(t, actions).value) && EndInv(Exec(t, actions).value)
    decreases |actions|
  {
    if actions != [] {
      var n := |actions| - 1;
      RunKeeps(t, actions[..n]);
      RunInv(t, actions[..n]);
      MarkStep(Exec(t, actions[..n]).value, actions[n]);
      EndStep(Exec(t, actions[..n]).value, actions[n]);
    }
  }

  /**
   In every reachable state: a connect handler that has ended before both sides were ready, a tunnel
   handler that was turned away, or one that was ready and ended without a client, has taken the tunnel
   out of the map; and each side is marked ready only by its own handler.
   */
  lemma EndedTunnelIsOut(t: Tunnel, h: nat)
    requires Reachable(t) && h in t.handlers && t.handlers[h].pc.Exited?
    ensures h == 0 && !(t.clientReady && t.serverReady) ==> !t.inMap
    ensures h != 0 && t.admitted != Some(h) ==> !t.inMap
    ensures t.admitted == Some(h) && t.serverReady && !t.clientReady ==> !t.inMap
  {
    var secret, actions :| Exec(Init(secret), actions) == Some(t);
    InitInv(secret);
    RunKeeps(Init(secret), actions);
  }

  /** A side is marked ready only when its own handler has gone past its mark. */
  lemma ReadyMeansMarked(t: Tunnel)
    requires Reachable(t)
    ensures MarkInv(t)
  {
    var secret, actions :| Exec(Init(secret), actions) == Some(t);
    InitInv(secret);
    RunKeeps(Init(secret), actions);
  }

  // ---------------------------------------------------------------------------
  // A timeout at the wrong moment
  // ---------------------------------------------------------------------------

  lemma ServerPasses(secret: nat) returns (actions: seq<Action>, t: Tunnel)
    ensures Exec(Init(secret), actions) == Some(t)
    ensures t == Tunnel(true, None, false, false, None, None, map[0 := Handler(Admitted, None), 1 := Handler(Admitted, None)],
                        [], {}, map[0 := Own, 1 := Own], Some(1))
  {
    actions, t := Extend(Init(secret), [], Init(secret), Arrive(1));
    actions, t := Extend(Init(secret), actions, t, Verify(1, secret));
  }

  lemma ServerAnnounced(secret: nat) returns (actions: seq<Action>, t: Tunnel)
    ensures Exec(Init(secret), actions) == Some(t)
    ensures t == Tunnel(true, None, false, true, None, None, map[0 := Handler(Admitted, None), 1 := Handler(Announced, None)],
                        [], {}, map[0 := Own, 1 := Own], Some(1))
  {
    actions, t := ServerPasses(secret);
    actions, t := Extend(Init(secret), actions, t, Mark(1));
    actions, t := Extend(Init(secret), actions, t, Announce(1));
  }

  lemma ServerWaits(secret: nat) returns (actions: seq<Action>, t: Tunnel)
    ensures Exec(Init(secret), actions) == Some(t)
    ensures t == Tunnel(true, None, false, true, None, Some(1), map[0 := Handler(Admitted, None), 1 := Handler(Taking(false), None)],
                        [], {}, map[0 := Own, 1 := InServerSlot], Some(1))
  {
    actions, t := ServerAnnounced(secret);
    actions, t := Extend(Init(secret), actions, t, Place(1));
    actions, t := Extend(Init(secret), actions, t, Announce(1));
  }

  lemma ServerParked(secret: nat) returns (actions: seq<Action>, t: Tunnel)
    ensures Exec(Init(secret), actions) == Some(t)
    ensures t == Tunnel(true, None, false, true, None, Some(1), map[0 := Handler(Admitted, None), 1 := Handler(Parked, None)],
                        [], {}, map[0 := Own, 1 := InServerSlot], Some(1))
  {
    actions, t := ServerWaits(secret);
    actions, t := Extend(Init(secret), actions, t, TakeClient(1));
    actions, t := Extend(Init(secret), actions, t, Park(1));
  }

  lemma ClientAnnounced(secret: nat) returns (actions: seq<Action>, t: Tunnel)
    ensures Exec(Init(secret), actions) == Some(t)
    ensures t == Ready(None, Some(1), Handler(Announced, None), Handler(Taking(true), None), Own, InServerSlot)
  {
    actions, t := ServerParked(secret);
    actions, t := Extend(Init(secret), actions, t, Mark(0));
    actions, t := Extend(Init(secret), actions, t, Announce(0));
  }

  lemma ServerWoken(secret: nat) returns (actions: seq<Action>, t: Tunnel)
    ensures Exec(Init(secret), actions) == Some(t)
    ensures t == Ready(Some(0), Some(1), Handler(Placed, None), Handler(Taking(true), None), InClientSlot, InServerSlot)
  {
    actions, t := ClientAnnounced(secret);
    actions, t := Extend(Init(secret), actions, t, Place(0));
  }

  /**
   A timeout that comes between the two locks of taking the pair closes the client's socket, although
   both sides are ready and both sockets are there; the tunnel stays in the map.
   */
  lemma TimeoutClosesClient(secret: nat) returns (t: Tunnel)
    ensures Reachable(t) && t.clientReady && t.serverReady && t.inMap && t.forwarders == []
    ensures 0 in t.closed && t.serverSlot == Some(1)
  {
    var actions;
    actions, t := ServerWoken(secret);
    actions, t := Extend(Init(secret), actions, t, TakeClient(1));
    assert t.handlers[1].pc == Holding(true);
    actions, t := Extend(Init(secret), actions, t, Expire(1));
  }
}
