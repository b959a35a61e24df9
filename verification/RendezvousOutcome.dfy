/**
 Whether a tunnel can still be paired. The rendezvous is not guaranteed to happen; this module
 decides, for every reachable state, whether some continuation still starts the forwarder.
 */
module RendezvousOutcome {
  import opened Basics
  import opened Rendezvous

  ghost predicate SomeGreeting(t: Tunnel) {
    exists g :: g in t.handlers && t.handlers[g].pc.Greeting?
  }

  ghost predicate SomeTaking(t: Tunnel) {
    exists h :: h in t.handlers && t.handlers[h].pc.Taking?
  }

  ghost predicate SomePlaced(t: Tunnel) {
    exists h :: h in t.handlers && t.handlers[h].pc.Placed?
  }

  ghost predicate SomeHoldingPair(t: Tunnel) {
    t.serverSlot.Some? && exists h :: h in t.handlers && t.handlers[h].pc.Holding?
  }

  /** Neither socket is closed, or the server's can still come: the secret is unspent and somebody may present it. */
  ghost predicate Alive(t: Tunnel) {
    && 0 !in t.closed
    && match t.admitted
       case None => t.inMap || SomeGreeting(t)
       case Some(s) => s !in t.closed
  }

  predicate EarlyHandler(t: Tunnel, h: nat) {
    h in t.handlers && Early(t.handlers[h].pc)
  }

  /** Some handler has yet to look for the pair, or is about to complete it. */
  ghost predicate LookToCome(t: Tunnel) {
    || EarlyHandler(t, 0) || t.admitted.None? || EarlyHandler(t, t.admitted.value)
    || SomePlaced(t) || SomeTaking(t) || SomeHoldingPair(t)
  }

  ghost predicate CanPair(t: Tunnel) {
    Alive(t) && LookToCome(t)
  }

  // ---------------------------------------------------------------------------
  // While the condition holds, some step leads closer to the pair
  // ---------------------------------------------------------------------------

  function Todo(pc: Pc): nat {
    if pc.Admitted? then 3 else if pc.Marked? then 2 else if pc.Announced? then 1 else 0
  }

  ghost function ServerTodo(t: Tunnel): nat {
    match t.admitted
    case None => if SomeGreeting(t) then 4 else 5
    case Some(s) => if s in t.handlers then Todo(t.handlers[s].pc) else 0
  }

  function ClientTodo(t: Tunnel): nat {
    if 0 in t.handlers then Todo(t.handlers[0].pc) else 0
  }

  /** A client in a hand that is about to find no server has two steps back to its slot. */
  predicate InHandAs(t: Tunnel, returning: bool) {
    && 0 in t.place && t.place[0].InHand? && t.place[0].h in t.handlers
    && if returning then t.handlers[t.place[0].h].pc.Returning? else t.handlers[t.place[0].h].pc.Holding?
  }

  function HandTodo(t: Tunnel): nat {
    if InHandAs(t, true) then 1 else if InHandAs(t, false) && t.serverSlot.None? then 2 else 0
  }

  ghost function LookTodo(t: Tunnel): nat {
    if InHandAs(t, false) then 0 else if SomeTaking(t) then 1 else 2
  }

  ghost predicate Closer(t': Tunnel, t: Tunnel) {
    || ServerTodo(t') < ServerTodo(t)
    || (ServerTodo(t') == ServerTodo(t) &&
        (|| ClientTodo(t') < ClientTodo(t)
         || (ClientTodo(t') == ClientTodo(t) &&
             (HandTodo(t') < HandTodo(t) || (HandTodo(t') == HandTodo(t) && LookTodo(t') < LookTodo(t))))))
  }

  /** The state a step away is paired, or can still pair and is closer to it. */
  ghost predicate Advances(t: Tunnel, a: Action) {
    Can(t, a) && (Do(t, a).forwarders != [] || (CanPair(Do(t, a)) && Closer(Do(t, a), t)))
  }

  /** A step of handler h leaves the others where they are, except that it may wake those that are parked. */
  ghost predicate OthersStay(t: Tunnel, t': Tunnel, h: nat) {
    && t'.handlers.Keys == t.handlers.Keys
    && forall g :: g in t.handlers && g != h ==>
         t'.handlers[g].pc == t.handlers[g].pc || (t.handlers[g].pc.Parked? && t'.handlers[g].pc.Taking?)
  }

  lemma OthersKeep(t: Tunnel, t': Tunnel, h: nat)
    requires OthersStay(t, t', h) && h in t.handlers && !t.handlers[h].pc.Greeting? && !t'.handlers[h].pc.Greeting?
    ensures SomeGreeting(t) <==> SomeGreeting(t')
    ensures SomePlaced(t) && !t.handlers[h].pc.Placed? ==> SomePlaced(t')
    ensures SomeTaking(t) && !t.handlers[h].pc.Taking? ==> SomeTaking(t')
  {
    if g :| g in t.handlers && t.handlers[g].pc.Greeting? {
      assert t'.handlers[g].pc.Greeting?;
    }
    if g :| g in t.handlers && t.handlers[g].pc.Placed? && g != h {
      assert t'.handlers[g].pc.Placed?;
    }
    if g :| g in t.handlers && t.handlers[g].pc.Taking? && g != h {
      assert t'.handlers[g].pc.Taking?;
    }
  }

  lemma OnlyHolder(t: Tunnel)
    requires Inv(t)
    ensures forall g :: g in t.handlers && t.handlers[g].pc.Holding? ==> t.place[0] == InHand(g)
  {
    forall g | g in t.handlers && t.handlers[g].pc.Holding? ensures t.place[0] == InHand(g) {
      assert HandlerInv(t, g);
    }
  }

  lemma TakeServerMisses(t: Tunnel, h: nat)
    requires PlaceInv(t) && HandlerInv(t, 0) && CanPair(t) && t.forwarders == [] && t.serverSlot.None?
    requires h in t.handlers && HandlerInv(t, h) && t.place[0] == InHand(h) && t.handlers[h].pc.Holding?
    requires t.admitted.Some? ==> HandlerInv(t, t.admitted.value)
    ensures Advances(t, TakeServer(h))
  {
    OthersKeep(t, Do(t, TakeServer(h)), h);
  }

  /** The handler that has the client in hand completes the pair, or puts the client back. */
  lemma TakeServerAdvances(t: Tunnel, h: nat)
    requires Inv(t) && t.forwarders == [] && CanPair(t) && t.place[0] == InHand(h) && t.handlers[h].pc.Holding?
    ensures Advances(t, TakeServer(h))
  {
    assert HandlerInv(t, h) && HandlerInv(t, 0);
    if t.serverSlot.None? {
      if t.admitted.Some? {
        assert HandlerInv(t, t.admitted.value);
      }
      TakeServerMisses(t, h);
    }
  }

  lemma PutBackAdvances(t: Tunnel, h: nat)
    requires Inv(t) && t.forwarders == [] && CanPair(t) && t.place[0] == InHand(h) && t.handlers[h].pc.Returning?
    ensures Advances(t, PutBack(h))
  {
    assert HandlerInv(t, h) && HandlerInv(t, 0);
    OthersKeep(t, Do(t, PutBack(h)), h);
    OnlyHolder(t);
  }

  /** A handler on its way to placing its socket. */
  lemma MarkAdvances(t: Tunnel, h: nat)
    requires Inv(t) && t.forwarders == [] && CanPair(t) && !t.place[0].InHand?
    requires EarlyHandler(t, h) && (h == 0 || t.admitted == Some(h)) && t.handlers[h].pc.Admitted?
    ensures Advances(t, Mark(h))
  {
    OthersKeep(t, Do(t, Mark(h)), h);
  }

  lemma AnnounceAdvances(t: Tunnel, h: nat)
    requires Inv(t) && t.forwarders == [] && CanPair(t) && !t.place[0].InHand?
    requires EarlyHandler(t, h) && (h == 0 || t.admitted == Some(h)) && t.handlers[h].pc.Marked?
    ensures Advances(t, Announce(h))
  {
    OthersKeep(t, Do(t, Announce(h)), h);
  }

  lemma PlaceAdvances(t: Tunnel, h: nat)
    requires Inv(t) && t.forwarders == [] && CanPair(t) && !t.place[0].InHand?
    requires EarlyHandler(t, h) && (h == 0 || t.admitted == Some(h)) && t.handlers[h].pc.Announced?
    ensures Advances(t, Place(h))
  {
    var t' := Do(t, Place(h));
    OthersKeep(t, t', h);
    assert t'.handlers[h].pc.Placed?;
  }

  lemma VerifyAdvances(t: Tunnel, g: nat)
    requires Inv(t) && t.forwarders == [] && CanPair(t) && t.admitted.None?
    requires g in t.handlers && t.handlers[g].pc.Greeting?
    ensures t.secret.Some? && Advances(t, Verify(g, t.secret.value))
  {
    assert HandlerInv(t, g) && HandlerInv(t, 0);
  }

  lemma ArriveAdvances(t: Tunnel, g: nat)
    requires Inv(t) && t.forwarders == [] && CanPair(t) && t.admitted.None? && !SomeGreeting(t) && g !in t.handlers
    ensures Advances(t, Arrive(g))
  {
    var t' := Do(t, Arrive(g));
    assert t'.handlers[g].pc.Greeting?;
  }

  /** Both sockets are in their slots: take, or first announce. */
  lemma TakeClientAdvances(t: Tunnel, h: nat)
    requires Inv(t) && t.forwarders == [] && CanPair(t) && !t.place[0].InHand?
    requires t.admitted.Some? && !EarlyHandler(t, 0) && !EarlyHandler(t, t.admitted.value)
    requires h in t.handlers && t.handlers[h].pc.Taking?
    ensures Advances(t, TakeClient(h))
  {
    assert HandlerInv(t, 0) && HandlerInv(t, t.admitted.value) && HandlerInv(t, h);
    var t' := Do(t, TakeClient(h));
    assert t'.handlers[h].pc.Holding?;
  }

  lemma LastAnnounceAdvances(t: Tunnel, h: nat)
    requires Inv(t) && t.forwarders == [] && CanPair(t) && !t.place[0].InHand?
    requires t.admitted.Some? && !EarlyHandler(t, 0) && !EarlyHandler(t, t.admitted.value) && !SomeTaking(t)
    requires h in t.handlers && t.handlers[h].pc.Placed?
    ensures Advances(t, Announce(h))
  {
    var t' := Do(t, Announce(h));
    assert t'.handlers[h].pc.Taking?;
  }

  lemma SomeStepAdvances(t: Tunnel) returns (a: Action)
    requires Inv(t) && t.forwarders == [] && CanPair(t)
    ensures Advances(t, a)
  {
    assert HandlerInv(t, 0);
    if t.place[0].InHand? {
      var h := t.place[0].h;
      assert HandlerInv(t, h);
      if t.handlers[h].pc.Holding? {
        TakeServerAdvances(t, h);
        a := TakeServer(h);
      } else {
        PutBackAdvances(t, h);
        a := PutBack(h);
      }
    } else if EarlyHandler(t, 0) {
      a := EarlyAdvances(t, 0);
    } else if t.admitted.None? {
      a := AdmissionAdvances(t);
    } else if EarlyHandler(t, t.admitted.value) {
      assert HandlerInv(t, t.admitted.value);
      a := EarlyAdvances(t, t.admitted.value);
    } else {
      a := LookAdvances(t);
    }
  }

  lemma EarlyAdvances(t: Tunnel, h: nat) returns (a: Action)
    requires Inv(t) && t.forwarders == [] && CanPair(t) && !t.place[0].InHand?
    requires EarlyHandler(t, h) && (h == 0 || t.admitted == Some(h)) && !t.handlers[h].pc.Greeting?
    ensures Advances(t, a)
  {
    if t.handlers[h].pc.Admitted? {
      MarkAdvances(t, h);
      a := Mark(h);
    } else if t.handlers[h].pc.Marked? {
      AnnounceAdvances(t, h);
      a := Announce(h);
    } else {
      PlaceAdvances(t, h);
      a := Place(h);
    }
  }

  lemma AdmissionAdvances(t: Tunnel) returns (a: Action)
    requires Inv(t) && t.forwarders == [] && CanPair(t) && t.admitted.None?
    ensures Advances(t, a)
  {
    if g :| g in t.handlers && t.handlers[g].pc.Greeting? {
      VerifyAdvances(t, g);
      a := Verify(g, t.secret.value);
    } else {
      var g := Above(t.handlers.Keys);
      ArriveAdvances(t, g);
      a := Arrive(g);
    }
  }

  lemma LookAdvances(t: Tunnel) returns (a: Action)
    requires Inv(t) && t.forwarders == [] && CanPair(t) && !t.place[0].InHand?
    requires t.admitted.Some? && !EarlyHandler(t, 0) && !EarlyHandler(t, t.admitted.value)
    ensures Advances(t, a)
  {
    if h :| h in t.handlers && t.handlers[h].pc.Taking? {
      TakeClientAdvances(t, h);
      a := TakeClient(h);
    } else {
      OnlyHolder(t);
      var h :| h in t.handlers && t.handlers[h].pc.Placed?;
      LastAnnounceAdvances(t, h);
      a := Announce(h);
    }
  }

  lemma {:induction false} PairingRun(t: Tunnel) returns (actions: seq<Action>)
    requires Inv(t) && t.forwarders == [] && CanPair(t)
    ensures Exec(t, actions).Some? && Exec(t, actions).value.forwarders != []
    decreases ServerTodo(t), ClientTodo(t), HandTodo(t), LookTodo(t)
  {
    var a := SomeStepAdvances(t);
    var t' := Do(t, a);
    assert [a][..0] == [];
    assert Exec(t, [a]) == Some(t');
    if t'.forwarders != [] {
      actions := [a];
    } else {
      InvStep(t, a);
      var rest := PairingRun(t');
      actions := [a] + rest;
      ExecJoin(t, [a], rest);
    }
  }

  lemma {:induction false} ExecJoin(t: Tunnel, a: seq<Action>, b: seq<Action>)
    requires Exec(t, a).Some?
    ensures Exec(t, a + b) == Exec(Exec(t, a).value, b)
    decreases |b|
  {
    if b == [] {
      assert a + b == a;
    } else {
      var n := |b| - 1;
      assert (a + b)[..|a + b| - 1] == a + b[..n];
      ExecJoin(t, a, b[..n]);
    }
  }

  // ---------------------------------------------------------------------------
  // Once the condition fails, it fails for good
  // ---------------------------------------------------------------------------

  lemma ClosedGrows(t: Tunnel, a: Action)
    requires Can(t, a)
    ensures t.closed <= Do(t, a).closed && (Do(t, a).inMap ==> t.inMap)
  {
    match a
    case Arrive(_) =>
    case Refuse(_) =>
    case Verify(_, _) =>
    case Bail(_) =>
    case Place(_) =>
    case TakeClient(_) =>
    case TakeServer(_) =>
    case PutBack(_) =>
    case Expire(_) =>
    case Reap(_) =>
    case _ =>
  }

  lemma AdmittedStays(t: Tunnel, a: Action)
    requires Can(t, a) && !a.Verify?
    ensures Do(t, a).admitted == t.admitted
  {
    match a
    case Place(_) =>
    case TakeClient(_) =>
    case TakeServer(_) =>
    case PutBack(_) =>
    case Expire(_) =>
    case Reap(_) =>
    case _ =>
  }

  lemma GreetingBefore(t: Tunnel, a: Action)
    requires Can(t, a) && !a.Arrive? && SomeGreeting(Do(t, a))
    ensures SomeGreeting(t)
  {
    var g :| g in Do(t, a).handlers && Do(t, a).handlers[g].pc.Greeting?;
    GreetingStays(t, a, g);
  }

  lemma GreetingStays(t: Tunnel, a: Action, g: nat)
    requires Can(t, a) && !a.Arrive? && g in Do(t, a).handlers && Do(t, a).handlers[g].pc.Greeting?
    ensures g in t.handlers && t.handlers[g].pc.Greeting?
  {
    if a.Announce? || a.TakeClient? || a.TakeServer? || a.PutBack? || a.Expire? {
      LaterGreetingStays(t, a, g);
    } else {
      if a.ForwardingEnds? {
      } else if g == a.h {
        EarlierActorMoves(t, a);
      } else {
        EarlierOthersStay(t, a, g);
      }
    }
  }

  lemma EarlierActorMoves(t: Tunnel, a: Action)
    requires Can(t, a) && !a.ForwardingEnds? && !a.Arrive?
    requires !a.Announce? && !a.TakeClient? && !a.TakeServer? && !a.PutBack? && !a.Expire?
    ensures a.h in Do(t, a).handlers && !Do(t, a).handlers[a.h].pc.Greeting?
  {
    match a
    case Refuse(_) =>
    case Verify(_, _) =>
    case Bail(_) =>
    case Place(_) =>
    case Reap(_) =>
    case _ =>
  }

  lemma EarlierOthersStay(t: Tunnel, a: Action, g: nat)
    requires Can(t, a) && !a.ForwardingEnds? && !a.Arrive? && g != a.h && g in Do(t, a).handlers
    requires !a.Announce? && !a.TakeClient? && !a.TakeServer? && !a.PutBack? && !a.Expire?
    ensures g in t.handlers && Do(t, a).handlers[g] == t.handlers[g]
  {
    match a
    case Verify(_, _) => assert Do(t, a).handlers == t.handlers[a.h := Do(t, a).handlers[a.h]];
    case Place(_) => assert Do(t, a).handlers == t.handlers[a.h := Handler(Placed, t.handlers[a.h].hand)];
    case Reap(_) => assert Do(t, a).handlers == t.handlers[a.h := Handler(Exited, t.handlers[a.h].hand)];
    case _ =>
  }

  lemma LaterGreetingStays(t: Tunnel, a: Action, g: nat)
    requires a.Announce? || a.TakeClient? || a.TakeServer? || a.PutBack? || a.Expire?
    requires Can(t, a) && g in Do(t, a).handlers && Do(t, a).handlers[g].pc.Greeting?
    ensures g in t.handlers && t.handlers[g].pc.Greeting?
  {
    match a
    case Announce(_) =>
    case TakeClient(_) =>
    case TakeServer(_) =>
    case PutBack(_) =>
    case Expire(_) =>
  }

  lemma AliveBefore(t: Tunnel, a: Action)
    requires Can(t, a) && (t.admitted.Some? ==> t.secret.None?) && Alive(Do(t, a))
    ensures Alive(t)
  {
    ClosedGrows(t, a);
    if a.Verify? {
      assert t.handlers[a.h].pc.Greeting?;
    } else {
      AdmittedStays(t, a);
      if !a.Arrive? && SomeGreeting(Do(t, a)) {
        GreetingBefore(t, a);
      }
    }
  }

  /** The acting handler is early only if it is the connect handler or the admitted one. */
  lemma EarlyActor(t: Tunnel, h: nat)
    requires Inv(t) && h in t.handlers && Early(t.handlers[h].pc) && !t.handlers[h].pc.Greeting?
    ensures LookToCome(t)
  {
    assert HandlerInv(t, h);
  }

  lemma LookBefore(t: Tunnel, a: Action)
    requires Inv(t) && Can(t, a) && LookToCome(Do(t, a))
    ensures LookToCome(t)
  {
    match a
    case Arrive(_) => ArriveLooks(t, a);
    case Refuse(_) => GreetingLooks(t, a);
    case Verify(_, _) => GreetingLooks(t, a);
    case Bail(h) => EarlyActor(t, h);
    case Mark(h) => EarlyActor(t, h);
    case Announce(h) =>
      if t.handlers[h].pc.Marked? {
        EarlyActor(t, h);
      } else {
        assert SomePlaced(t);
      }
    case Place(h) => EarlyActor(t, h);
    case TakeClient(h) => assert SomeTaking(t);
    case ForwardingEnds =>
    case _ => LateLooks(t, a);
  }

  lemma ArriveLooks(t: Tunnel, a: Action)
    requires a.Arrive? && Can(t, a) && LookToCome(Do(t, a)) && (t.admitted.Some? ==> t.admitted.value in t.handlers)
    requires 0 in t.handlers
    ensures LookToCome(t)
  {
  }

  lemma GreetingLooks(t: Tunnel, a: Action)
    requires (a.Refuse? || a.Verify?) && Inv(t) && Can(t, a) && LookToCome(Do(t, a))
    ensures LookToCome(t)
  {
    assert HandlerInv(t, a.h) && HandlerInv(t, 0);
  }

  /** A handler that moves on without placing or taking gives nobody a look. */
  lemma MovingOn(t: Tunnel, t': Tunnel, h: nat)
    requires t'.admitted == t.admitted && (t'.serverSlot.Some? ==> t.serverSlot.Some?)
    requires t'.handlers.Keys == t.handlers.Keys && forall g :: g in t.handlers && g != h ==> t'.handlers[g].pc == t.handlers[g].pc
    requires h in t'.handlers
    requires var pc := t'.handlers[h].pc; !Early(pc) && !pc.Placed? && !pc.Taking? && !pc.Holding?
    requires LookToCome(t')
    ensures LookToCome(t)
  {
    if g :| g in t'.handlers && (t'.handlers[g].pc.Placed? || t'.handlers[g].pc.Taking? || t'.handlers[g].pc.Holding?) {
      assert t.handlers[g].pc == t'.handlers[g].pc;
    }
  }

  /** Steps of a handler that has looked: none of them leads back to looking. */
  lemma LateLooks(t: Tunnel, a: Action)
    requires a.TakeServer? || a.PutBack? || a.Park? || a.Check? || a.Expire? || a.AfterExpiry? || a.Reap?
    requires Can(t, a) && LookToCome(Do(t, a))
    ensures LookToCome(t)
  {
    if a.TakeServer? {
      TakeServerLooks(t, a.h);
    } else if a.PutBack? {
      PutBackLooks(t, a.h);
    } else if a.Expire? {
      ExpireLooks(t, a.h);
    } else if a.Reap? {
      ReapLooks(t, a.h);
    } else {
      MovingOn(t, Do(t, a), a.h);
    }
  }

  lemma TakeServerLooks(t: Tunnel, h: nat)
    requires Can(t, TakeServer(h)) && LookToCome(Do(t, TakeServer(h)))
    ensures LookToCome(t)
  {
    MovingOn(t, Do(t, TakeServer(h)), h);
  }

  lemma PutBackLooks(t: Tunnel, h: nat)
    requires Can(t, PutBack(h)) && LookToCome(Do(t, PutBack(h)))
    ensures LookToCome(t)
  {
    MovingOn(t, Do(t, PutBack(h)), h);
  }

  lemma ExpireLooks(t: Tunnel, h: nat)
    requires Can(t, Expire(h)) && LookToCome(Do(t, Expire(h)))
    ensures LookToCome(t)
  {
    MovingOn(t, Do(t, Expire(h)), h);
  }

  lemma ReapLooks(t: Tunnel, h: nat)
    requires Can(t, Reap(h)) && LookToCome(Do(t, Reap(h)))
    ensures LookToCome(t)
  {
    MovingOn(t, Do(t, Reap(h)), h);
  }

  lemma OnlyTakingPairs(t: Tunnel, a: Action)
    requires Can(t, a) && !a.TakeServer?
    ensures Do(t, a).forwarders == t.forwarders
  {
    match a
    case Verify(_, _) =>
    case Place(_) =>
    case TakeClient(_) =>
    case PutBack(_) =>
    case Expire(_) =>
    case Reap(_) =>
    case _ =>
  }

  lemma PairBefore(t: Tunnel, h: nat)
    requires Inv(t) && Can(t, TakeServer(h)) && t.forwarders == [] && Do(t, TakeServer(h)).forwarders != []
    ensures CanPair(t)
  {
    assert HandlerInv(t, h) && HandlerInv(t, 0) && HandlerInv(t, t.admitted.value);
    assert SomeHoldingPair(t);
  }

  lemma {:induction false} NeverPairs(t: Tunnel, actions: seq<Action>)
    requires Inv(t) && t.forwarders == [] && !CanPair(t) && Exec(t, actions).Some?
    ensures Exec(t, actions).value.forwarders == [] && !CanPair(Exec(t, actions).value)
    decreases |actions|
  {
    if actions != [] {
      var n := |actions| - 1;
      NeverPairs(t, actions[..n]);
      RunInv(t, actions[..n]);
      NothingRevives(Exec(t, actions[..n]).value, actions[n]);
    }
  }

  lemma NothingRevives(t: Tunnel, a: Action)
    requires Inv(t) && Can(t, a) && t.forwarders == [] && !CanPair(t)
    ensures Do(t, a).forwarders == [] && !CanPair(Do(t, a))
  {
    if Do(t, a).forwarders != [] {
      if !a.TakeServer? {
        OnlyTakingPairs(t, a);
      } else {
        PairBefore(t, a.h);
      }
    }
    if CanPair(Do(t, a)) {
      AliveBefore(t, a);
      LookBefore(t, a);
    }
  }

  // ---------------------------------------------------------------------------
  // The exact condition
  // ---------------------------------------------------------------------------

  ghost predicate CanStillPair(t: Tunnel) {
    exists actions :: Exec(t, actions).Some? && Exec(t, actions).value.forwarders != []
  }

  /**
   A tunnel that has not been paired can still be paired if and only if neither socket is gone
   for good and some handler has yet to look for the pair. Nothing in the program restores the
   condition once it fails.
   */
  lemma PairsIff(t: Tunnel)
    requires Reachable(t) && t.forwarders == []
    ensures CanStillPair(t) <==> CanPair(t)
  {
    ReachableInv(t);
    if CanPair(t) {
      var actions := PairingRun(t);
    } else {
      forall actions | Exec(t, actions).Some? ensures Exec(t, actions).value.forwarders == [] {
        NeverPairs(t, actions);
      }
    }
  }

  /** With both sockets in their slots, that is whether some handler is between placing and taking. */
  lemma FullSlotsPairIff(t: Tunnel)
    requires Reachable(t) && t.clientSlot == Some(0) && t.serverSlot.Some?
    ensures CanStillPair(t) <==> exists h :: h in t.handlers && (t.handlers[h].pc.Placed? || t.handlers[h].pc.Taking?)
  {
    ReachableInv(t);
    assert HandlerInv(t, 0) && HandlerInv(t, t.admitted.value);
    OnlyHolder(t);
    PairsIff(t);
    if h :| h in t.handlers && (t.handlers[h].pc.Placed? || t.handlers[h].pc.Taking?) {
      assert SomePlaced(t) || SomeTaking(t);
    }
  }
}
