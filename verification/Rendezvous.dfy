/**
 The rendezvous of one relay tunnel: the connect handler brings the client's socket, any
 number of tunnel handlers bring server sockets, and whoever finds both sockets starts the
 forwarder. Each lock acquisition, notification and timeout is a step of its own.

 Handlers and their sockets share numbers; number 0 is the connect handler and the client.
 */
module Rendezvous {
  import opened Basics

  datatype Pc =
    | Greeting                // tunnel handler: found the tunnel, secret not yet checked
    | Admitted                // may send tunnel_ready; still holds its own socket
    | Marked                  // readiness recorded
    | Announced               // waiters notified of it
    | Placed                  // own socket put into its slot
    | Taking(waiting: bool)   // about to lock the client slot; `waiting` inside the timed wait loop
    | Holding(waiting: bool)  // has the client socket in hand, about to lock the server slot
    | Returning(waiting: bool) // found no server socket, about to put the client socket back
    | Looping                 // about to wait for a notification
    | Parked                  // waiting for a notification
    | Checking                // woken without a pair, about to look at the readiness marks
    | Expired                 // the wait timed out, about to look at the readiness marks
    | Reaping                 // not ready in time, about to take its own socket out of the slot
    | Exited

  datatype Handler = Handler(pc: Pc, hand: Option<nat>)

  /** Where a socket is; bookkeeping that the invariant ties to the actual state. */
  datatype Place = Own | InClientSlot | InServerSlot | InHand(h: nat) | Forwarded | Closed

  datatype Tunnel = Tunnel(
    inMap: bool,
    secret: Option<nat>,
    clientReady: bool,
    serverReady: bool,
    clientSlot: Option<nat>,
    serverSlot: Option<nat>,
    handlers: map<nat, Handler>,
    forwarders: seq<(nat, nat)>,
    closed: set<nat>,
    place: map<nat, Place>,
    admitted: Option<nat>)     // the tunnel handler that spent the secret

  predicate FullyReady(t: Tunnel) {
    t.clientReady && t.serverReady
  }

  /** A new tunnel, known to the map, whose connect handler is about to wait for the client. */
  function Init(secret: nat): Tunnel {
    Tunnel(true, Some(secret), false, false, None, None, map[0 := Handler(Admitted, None)], [], {}, map[0 := Own], None)
  }

  // ---------------------------------------------------------------------------
  // Steps
  // ---------------------------------------------------------------------------

  datatype Action =
    | Arrive(h: nat)                    // a tunnel handler looks the tunnel up
    | Refuse(h: nat)                    // its role or token is missing
    | Verify(h: nat, provided: nat)
    | Bail(h: nat)                      // its socket fails before tunnel_ready
    | Mark(h: nat)
    | Announce(h: nat)                  // notify_waiters
    | Place(h: nat)
    | TakeClient(h: nat)
    | TakeServer(h: nat)
    | PutBack(h: nat)
    | Park(h: nat)
    | Check(h: nat)
    | Expire(h: nat)                    // the timeout cancels the wait wherever it stands
    | AfterExpiry(h: nat)
    | Reap(h: nat)
    | ForwardingEnds

  predicate Waits(pc: Pc) {
    || pc.Looping? || pc.Parked? || pc.Checking?
    || (pc.Taking? && pc.waiting) || (pc.Holding? && pc.waiting) || (pc.Returning? && pc.waiting)
  }

  predicate Can(t: Tunnel, a: Action) {
    match a
    case Arrive(h) => t.inMap && h !in t.handlers
    case Refuse(h) => h in t.handlers && t.handlers[h].pc.Greeting?
    case Verify(h, _) => h in t.handlers && t.handlers[h].pc.Greeting?
    case Bail(h) => h in t.handlers && t.handlers[h].pc.Admitted?
    case Mark(h) => h in t.handlers && t.handlers[h].pc.Admitted?
    case Announce(h) => h in t.handlers && (t.handlers[h].pc.Marked? || t.handlers[h].pc.Placed?)
    case Place(h) => h in t.handlers && t.handlers[h].pc.Announced?
    case TakeClient(h) => h in t.handlers && t.handlers[h].pc.Taking?
    case TakeServer(h) => h in t.handlers && t.handlers[h].pc.Holding?
    case PutBack(h) => h in t.handlers && t.handlers[h].pc.Returning?
    case Park(h) => h in t.handlers && t.handlers[h].pc.Looping?
    case Check(h) => h in t.handlers && t.handlers[h].pc.Checking?
    case Expire(h) => h in t.handlers && Waits(t.handlers[h].pc)
    case AfterExpiry(h) => h in t.handlers && t.handlers[h].pc.Expired?
    case Reap(h) => h in t.handlers && t.handlers[h].pc.Reaping?
    case ForwardingEnds => t.forwarders != []
  }

  function At(t: Tunnel, h: nat, pc: Pc): Tunnel
    requires h in t.handlers
  {
    t.(handlers := t.handlers[h := Handler(pc, t.handlers[h].hand)])
  }

  /** What a handler does after finding no pair. */
  function Missed(waiting: bool): Pc {
    if waiting then Checking else Looping
  }

  /** notify_waiters wakes the handlers that are parked now, and stores no permit for others. */
  function WakeAll(handlers: map<nat, Handler>): map<nat, Handler> {
    map h | h in handlers ::
      if handlers[h].pc.Parked? then Handler(Taking(true), handlers[h].hand) else handlers[h]
  }

  function Discard(t: Tunnel, h: nat): Tunnel {
    t.(closed := t.closed + {h}, place := t.place[h := Closed])
  }

  /** The right secret admits once and is consumed; a wrong one closes the socket and removes the tunnel. */
  function DoVerify(t: Tunnel, h: nat, provided: nat): Tunnel
    requires h in t.handlers
  {
    if t.secret == Some(provided) then At(t, h, Admitted).(secret := None, admitted := Some(h))
    else Discard(At(t, h, Exited), h).(inMap := false)
  }

  /** The connect handler fills the client slot, a tunnel handler the server slot, whatever was there. */
  function DoPlace(t: Tunnel, h: nat): Tunnel
    requires h in t.handlers
  {
    if h == 0 then At(t, h, Placed).(clientSlot := Some(h), place := t.place[h := InClientSlot])
    else At(t, h, Placed).(serverSlot := Some(h), place := t.place[h := InServerSlot])
  }

  function DoTakeClient(t: Tunnel, h: nat): Tunnel
    requires h in t.handlers && t.handlers[h].pc.Taking?
  {
    var w := t.handlers[h].pc.waiting;
    match t.clientSlot
    case None => At(t, h, Missed(w))
    case Some(x) =>
      t.(clientSlot := None, place := t.place[x := InHand(h)],
         handlers := t.handlers[h := Handler(Holding(w), Some(x))])
  }

  function DoTakeServer(t: Tunnel, h: nat): Tunnel
    requires h in t.handlers && t.handlers[h].pc.Holding?
  {
    match (t.serverSlot, t.handlers[h].hand)
    case (Some(y), Some(x)) =>
      t.(serverSlot := None, forwarders := t.forwarders + [(x, y)],
         place := t.place[x := Forwarded][y := Forwarded],
         handlers := t.handlers[h := Handler(Exited, None)])
    case _ => At(t, h, Returning(t.handlers[h].pc.waiting))
  }

  function DoPutBack(t: Tunnel, h: nat): Tunnel
    requires h in t.handlers && t.handlers[h].pc.Returning?
  {
    t.(clientSlot := t.handlers[h].hand,
       place := if t.handlers[h].hand.Some? then t.place[t.handlers[h].hand.value := InClientSlot] else t.place,
       handlers := t.handlers[h := Handler(Missed(t.handlers[h].pc.waiting), None)])
  }

  /** Cancelling the wait drops whatever the handler has in hand. */
  function DoExpire(t: Tunnel, h: nat): Tunnel
    requires h in t.handlers
  {
    var t' := t.(handlers := t.handlers[h := Handler(Expired, None)]);
    if t.handlers[h].hand.Some? then Discard(t', t.handlers[h].hand.value) else t'
  }

  function DoReap(t: Tunnel, h: nat): Tunnel
    requires h in t.handlers
  {
    var t' := At(t, h, Exited).(inMap := false);
    if h == 0 then
      if t.clientSlot.Some? then Discard(t', t.clientSlot.value).(clientSlot := None) else t'
    else
      if t.serverSlot.Some? then Discard(t', t.serverSlot.value).(serverSlot := None) else t'
  }

  function Do(t: Tunnel, a: Action): Tunnel
    requires Can(t, a)
  {
    match a
    case Arrive(h) => t.(handlers := t.handlers[h := Handler(Greeting, None)], place := t.place[h := Own])
    case Refuse(h) => Discard(At(t, h, Exited), h).(inMap := false)
    case Verify(h, provided) => DoVerify(t, h, provided)
    case Bail(h) => Discard(At(t, h, Exited), h).(inMap := t.inMap && h != 0)
    case Mark(h) => At(t, h, Marked).(clientReady := t.clientReady || h == 0, serverReady := t.serverReady || h != 0)
    case Announce(h) =>
      var t' := t.(handlers := WakeAll(t.handlers));
      At(t', h, if t.handlers[h].pc.Marked? then Announced else Taking(false))
    case Place(h) => DoPlace(t, h)
    case TakeClient(h) => DoTakeClient(t, h)
    case TakeServer(h) => DoTakeServer(t, h)
    case PutBack(h) => DoPutBack(t, h)
    case Park(h) => At(t, h, Parked)
    case Check(h) => At(t, h, if FullyReady(t) then Exited else Looping)
    case Expire(h) => DoExpire(t, h)
    case AfterExpiry(h) => At(t, h, if FullyReady(t) then Exited else Reaping)
    case Reap(h) => DoReap(t, h)
    case ForwardingEnds => t.(inMap := false)
  }

  function Then(t: Option<Tunnel>, a: Action): Option<Tunnel> {
    if t.Some? && Can(t.value, a) then Some(Do(t.value, a)) else None
  }

  function Exec(t: Tunnel, actions: seq<Action>): Option<Tunnel> {
    if actions == [] then Some(t)
    else Then(Exec(t, actions[..|actions| - 1]), actions[|actions| - 1])
  }

  ghost predicate Reachable(t: Tunnel) {
    exists secret, actions :: Exec(Init(secret), actions) == Some(t)
  }

  // ---------------------------------------------------------------------------
  // Invariant
  // ---------------------------------------------------------------------------

  predicate Early(pc: Pc) {
    pc.Greeting? || pc.Admitted? || pc.Marked? || pc.Announced?
  }

  /** The slots, the forwarder and the closed sockets are what the places say. */
  ghost predicate PlaceInv(t: Tunnel) {
    && 0 in t.handlers && t.place.Keys == t.handlers.Keys
    && t.clientSlot == (if t.place[0].InClientSlot? then Some(0) else None)
    && (t.serverSlot.Some? ==>
          t.serverSlot == t.admitted && t.serverSlot.value in t.place && t.place[t.serverSlot.value].InServerSlot?)
    && (t.forwarders != [] <==> t.place[0].Forwarded?)
    && (forall h :: h in t.closed ==> h in t.place)
    && (t.place[0].InHand? ==> t.place[0].h in t.handlers)
    && (t.admitted.Some? <==> t.secret.None?)
    && (t.admitted.Some? ==> t.admitted.value != 0 && t.admitted.value in t.handlers)
    && (t.forwarders != [] ==>
          t.admitted.Some? && t.forwarders == [(0, t.admitted.value)] && t.place[t.admitted.value].Forwarded?)
  }

  predicate Paired(p: Place) {
    p.InServerSlot? || p.Forwarded?
  }

  /** Handler h: its socket's place, its hand and its program counter agree. */
  ghost predicate HandlerInv(t: Tunnel, h: nat)
    requires 0 in t.place && h in t.handlers && h in t.place
  {
    var pc, hand := t.handlers[h].pc, t.handlers[h].hand;
    && (Early(pc) <==> t.place[h].Own?)
    && (h in t.closed <==> t.place[h].Closed?)
    && (hand.Some? <==> t.place[0] == InHand(h))
    && (hand.Some? ==> hand.value == 0)
    && (hand.Some? <==> pc.Holding? || pc.Returning?)
    && (t.place[h].InServerSlot? ==> t.serverSlot == Some(h))
    && (h == 0 ==> !t.place[h].InServerSlot? && !pc.Greeting?)
    && (h != 0 && (Paired(t.place[h]) || (!pc.Greeting? && !pc.Exited?)) ==> t.admitted == Some(h))
    && (h != 0 ==> !t.place[h].InClientSlot? && !t.place[h].InHand? && !pc.Returning?)
    && (h != 0 && pc.Holding? ==> t.place[h].InServerSlot?)
    && (h != 0 && !Early(pc) && !pc.Exited? ==> Paired(t.place[h]))
    && (t.place[h].Forwarded? ==> t.forwarders != [])
    && (t.admitted == Some(h) ==> !pc.Greeting?)
  }

  /** Readiness precedes placing, and a handler that leaves its socket in a slot saw both marks. */
  ghost predicate ReadyInv(t: Tunnel, h: nat)
    requires h in t.handlers && h in t.place
  {
    var pc := t.handlers[h].pc;
    && ((!pc.Greeting? && !pc.Admitted? && !pc.Exited?) || (!t.place[h].Own? && !t.place[h].Closed?) ==>
          if h == 0 then t.clientReady else t.serverReady)
    && (pc.Exited? && (t.place[h].InClientSlot? || t.place[h].InServerSlot?) ==> FullyReady(t))
  }

  ghost predicate Inv(t: Tunnel) {
    && PlaceInv(t)
    && (forall h :: h in t.handlers ==> HandlerInv(t, h))
    && (forall h :: h in t.handlers ==> ReadyInv(t, h))
  }

  lemma InitInv(secret: nat)
    ensures Inv(Init(secret))
  {
  }

  // ---------------------------------------------------------------------------
  // Every step keeps the invariant
  // ---------------------------------------------------------------------------

  /** What a step may rely on: the invariant at the acting handler and at the connect handler. */
  ghost predicate Local(t: Tunnel, a: Action) {
    && PlaceInv(t)
    && HandlerInv(t, 0) && ReadyInv(t, 0)
    && (!a.ForwardingEnds? && a.h in t.handlers ==> HandlerInv(t, a.h) && ReadyInv(t, a.h))
    && (t.admitted.Some? ==> HandlerInv(t, t.admitted.value))
  }

  /** The invariant around one step, seen from an arbitrary handler h. */
  ghost predicate Before(t: Tunnel, a: Action, h: nat) {
    && Local(t, a) && Can(t, a) && h in Do(t, a).handlers
    && (h in t.handlers ==> HandlerInv(t, h) && ReadyInv(t, h))
  }

  ghost predicate After(t: Tunnel, a: Action, h: nat)
    requires Can(t, a) && h in Do(t, a).handlers
  {
    PlaceInv(Do(t, a)) && HandlerInv(Do(t, a), h) && ReadyInv(Do(t, a), h)
  }

  lemma RefuseKeeps(t: Tunnel, g: nat, h: nat)
    requires Before(t, Refuse(g), h)
    ensures After(t, Refuse(g), h)
  {
  }

  lemma BailKeeps(t: Tunnel, g: nat, h: nat)
    requires Before(t, Bail(g), h)
    ensures After(t, Bail(g), h)
  {
  }

  lemma MarkKeeps(t: Tunnel, g: nat, h: nat)
    requires Before(t, Mark(g), h)
    ensures After(t, Mark(g), h)
  {
  }

  lemma AnnounceKeeps(t: Tunnel, g: nat, h: nat)
    requires Before(t, Announce(g), h)
    ensures After(t, Announce(g), h)
  {
  }

  lemma PlaceClientKeeps(t: Tunnel, h: nat)
    requires Before(t, Place(0), h)
    ensures After(t, Place(0), h)
  {
  }

  lemma PlaceServerKeeps(t: Tunnel, g: nat, h: nat)
    requires Before(t, Place(g), h) && g != 0
    ensures After(t, Place(g), h)
  {
  }

  lemma TakeClientKeeps(t: Tunnel, g: nat, h: nat)
    requires Before(t, TakeClient(g), h)
    ensures After(t, TakeClient(g), h)
  {
    if t.clientSlot.Some? {
      assert t.clientSlot.value == 0;
      assert t.place[0].InClientSlot?;
    } else {
    }
  }

  lemma TakeServerKeeps(t: Tunnel, g: nat, h: nat)
    requires Before(t, TakeServer(g), h)
    ensures After(t, TakeServer(g), h)
  {
    assert t.handlers[g].hand == Some(0) && t.forwarders == [];
    if t.serverSlot.Some? {
      assert t.serverSlot == t.admitted;
    } else {
    }
  }

  lemma PutBackKeeps(t: Tunnel, g: nat, h: nat)
    requires Before(t, PutBack(g), h)
    ensures After(t, PutBack(g), h)
  {
  }

  lemma ParkKeeps(t: Tunnel, g: nat, h: nat)
    requires Before(t, Park(g), h)
    ensures After(t, Park(g), h)
  {
  }

  lemma CheckKeeps(t: Tunnel, g: nat, h: nat)
    requires Before(t, Check(g), h)
    ensures After(t, Check(g), h)
  {
  }

  lemma ExpireKeepsHolding(t: Tunnel, g: nat, h: nat)
    requires Before(t, Expire(g), h) && t.handlers[g].hand.Some?
    ensures After(t, Expire(g), h)
  {
    assert t.handlers[g].hand.value == 0;
    assert t.place[0] == InHand(g) && t.forwarders == [];
    var t' := Do(t, Expire(g));
    assert t'.place == t.place[0 := Closed] && t'.closed == t.closed + {0};
    if h == 0 {
    } else if h == g {
    } else {
      assert t'.handlers[h] == t.handlers[h] && t'.place[h] == t.place[h];
    }
  }

  lemma ExpireKeeps(t: Tunnel, g: nat, h: nat)
    requires Before(t, Expire(g), h)
    ensures After(t, Expire(g), h)
  {
    if t.handlers[g].hand.Some? {
      ExpireKeepsHolding(t, g, h);
    }
  }

  lemma AfterExpiryKeeps(t: Tunnel, g: nat, h: nat)
    requires Before(t, AfterExpiry(g), h)
    ensures After(t, AfterExpiry(g), h)
  {
  }

  lemma ReapClientKeeps(t: Tunnel, h: nat)
    requires Before(t, Reap(0), h)
    ensures After(t, Reap(0), h)
  {
    assert t.clientSlot.Some? ==> t.clientSlot.value == 0;
  }

  lemma ReapServerKeeps(t: Tunnel, g: nat, h: nat)
    requires Before(t, Reap(g), h) && g != 0
    ensures After(t, Reap(g), h)
  {
    assert t.serverSlot.Some? ==> t.serverSlot.value == g;
  }

  lemma ArriveKeeps(t: Tunnel, g: nat, h: nat)
    requires Before(t, Arrive(g), h)
    ensures After(t, Arrive(g), h)
  {
  }

  lemma VerifyKeeps(t: Tunnel, g: nat, provided: nat, h: nat)
    requires Before(t, Verify(g, provided), h)
    ensures After(t, Verify(g, provided), h)
  {
    if t.secret == Some(provided) {
    } else {
    }
  }

  /** Up to placing the socket. */
  lemma EarlyStepKeeps(t: Tunnel, a: Action, h: nat)
    requires Before(t, a, h)
    requires a.Arrive? || a.Refuse? || a.Verify? || a.Bail? || a.Mark? || a.Announce? || a.Place?
    ensures After(t, a, h)
  {
    match a
    case Arrive(g) => ArriveKeeps(t, g, h);
    case Refuse(g) => RefuseKeeps(t, g, h);
    case Verify(g, provided) => VerifyKeeps(t, g, provided, h);
    case Bail(g) => BailKeeps(t, g, h);
    case Mark(g) => MarkKeeps(t, g, h);
    case Announce(g) => AnnounceKeeps(t, g, h);
    case Place(g) => if g == 0 { PlaceClientKeeps(t, h); } else { PlaceServerKeeps(t, g, h); }
  }

  predicate Late(a: Action) {
    a.Expire? || a.AfterExpiry? || a.Reap? || a.ForwardingEnds?
  }

  /** From the timeout on. */
  lemma LateStepKeeps(t: Tunnel, a: Action, h: nat)
    requires Before(t, a, h) && Late(a)
    ensures After(t, a, h)
  {
    match a
    case Expire(g) => ExpireKeeps(t, g, h);
    case AfterExpiry(g) => AfterExpiryKeeps(t, g, h);
    case Reap(g) => if g == 0 { ReapClientKeeps(t, h); } else { ReapServerKeeps(t, g, h); }
    case ForwardingEnds => EndKeeps(t, h);
  }

  lemma EndKeeps(t: Tunnel, h: nat)
    requires Before(t, ForwardingEnds, h)
    ensures After(t, ForwardingEnds, h)
  {
  }

  predicate Pairs(a: Action) {
    a.TakeClient? || a.TakeServer? || a.PutBack? || a.Park? || a.Check?
  }

  /** Looking for the pair. */
  lemma PairingStepKeeps(t: Tunnel, a: Action, h: nat)
    requires Before(t, a, h) && Pairs(a)
    ensures After(t, a, h)
  {
    match a
    case TakeClient(g) => TakeClientKeeps(t, g, h);
    case TakeServer(g) => TakeServerKeeps(t, g, h);
    case PutBack(g) => PutBackKeeps(t, g, h);
    case Park(g) => ParkKeeps(t, g, h);
    case Check(g) => CheckKeeps(t, g, h);
  }

  lemma StepKeeps(t: Tunnel, a: Action, h: nat)
    requires Before(t, a, h)
    ensures After(t, a, h)
  {
    if Late(a) {
      LateStepKeeps(t, a, h);
    } else if Pairs(a) {
      PairingStepKeeps(t, a, h);
    } else {
      EarlyStepKeeps(t, a, h);
    }
  }

  lemma InvStep(t: Tunnel, a: Action)
    requires Inv(t) && Can(t, a)
    ensures Inv(Do(t, a))
  {
    assert Local(t, a);
    HandlerStays(t, a, 0);
    StepKeeps(t, a, 0);
    forall h | h in Do(t, a).handlers ensures HandlerInv(Do(t, a), h) && ReadyInv(Do(t, a), h) {
      StepKeeps(t, a, h);
    }
  }

  lemma HandlerStays(t: Tunnel, a: Action, h: nat)
    requires Can(t, a) && h in t.handlers
    ensures h in Do(t, a).handlers
  {
    if a.Announce? || a.TakeClient? || a.TakeServer? || a.PutBack? || a.Expire? {
      HandlerStaysLater(t, a, h);
    } else {
      match a
      case Arrive(_) =>
      case Refuse(_) =>
      case Verify(_, _) =>
      case Bail(_) =>
      case Place(_) =>
      case Reap(_) =>
      case _ =>
    }
  }

  lemma HandlerStaysLater(t: Tunnel, a: Action, h: nat)
    requires a.Announce? || a.TakeClient? || a.TakeServer? || a.PutBack? || a.Expire?
    requires Can(t, a) && h in t.handlers
    ensures h in Do(t, a).handlers
  {
    match a
    case Announce(_) =>
    case TakeClient(_) =>
    case TakeServer(_) =>
    case PutBack(_) =>
    case Expire(_) =>
  }

  lemma {:induction false} RunInv(t: Tunnel, actions: seq<Action>)
    requires Inv(t) && Exec(t, actions).Some?
    ensures Inv(Exec(t, actions).value)
    decreases |actions|
  {
    if actions != [] {
      var n := |actions| - 1;
      RunInv(t, actions[..n]);
      InvStep(Exec(t, actions[..n]).value, actions[n]);
    }
  }

  lemma ReachableInv(t: Tunnel)
    requires Reachable(t)
    ensures Inv(t)
  {
    var secret, actions :| Exec(Init(secret), actions) == Some(t);
    InitInv(secret);
    RunInv(Init(secret), actions);
  }

  // ---------------------------------------------------------------------------
  // Conservation
  // ---------------------------------------------------------------------------

  predicate WithItsHandler(t: Tunnel, x: nat) {
    x in t.handlers && Early(t.handlers[x].pc)
  }

  ghost predicate InSomeHand(t: Tunnel, x: nat) {
    exists h :: h in t.handlers && t.handlers[h].hand == Some(x)
  }

  ghost predicate InForwarder(t: Tunnel, x: nat) {
    exists k :: 0 <= k < |t.forwarders| && (t.forwarders[k].0 == x || t.forwarders[k].1 == x)
  }

  /** In how many places socket x is: with its handler, in a slot, in a hand, in a forwarder, closed. */
  ghost function Places(t: Tunnel, x: nat): nat {
    (if WithItsHandler(t, x) then 1 else 0) + (if t.clientSlot == Some(x) then 1 else 0)
    + (if t.serverSlot == Some(x) then 1 else 0) + (if InSomeHand(t, x) then 1 else 0)
    + (if InForwarder(t, x) then 1 else 0) + (if x in t.closed then 1 else 0)
  }

  /** In every interleaving, cancellations included, each socket is in exactly one place, and in one hand at most. */
  lemma SocketsAreConserved(t: Tunnel, x: nat)
    requires Reachable(t) && x in t.handlers
    ensures Places(t, x) == 1
    ensures forall g, h ::
              g in t.handlers && h in t.handlers && t.handlers[g].hand == Some(x) && t.handlers[h].hand == Some(x) ==> g == h
  {
    ReachableInv(t);
    assert HandlerInv(t, x) && HandlerInv(t, 0);
    if h :| h in t.handlers && t.handlers[h].hand == Some(x) {
      assert HandlerInv(t, h);
    }
    match t.place[x]
    case InHand(h) => assert HandlerInv(t, h) && t.handlers[h].hand == Some(x);
    case Forwarded => assert t.forwarders[0].0 == x || t.forwarders[0].1 == x;
    case _ =>
  }

  /** Neither placing a socket nor putting one back ever overwrites another. */
  lemma SlotsAreNeverOverwritten(t: Tunnel, h: nat)
    requires Reachable(t)
    ensures Can(t, PutBack(h)) ==> t.clientSlot.None? && t.handlers[h].hand.Some?
    ensures Can(t, Place(h)) ==> if h == 0 then t.clientSlot.None? else t.serverSlot.None?
  {
    ReachableInv(t);
    if h in t.handlers {
      assert HandlerInv(t, h) && HandlerInv(t, 0);
    }
  }

  /**
   At most one forwarder starts per tunnel. It joins the client with the one handler that
   spent the secret, and both sides had signalled readiness.
   */
  lemma OneForwarder(t: Tunnel)
    requires Reachable(t)
    ensures |t.forwarders| <= 1
    ensures t.forwarders != [] ==>
              && FullyReady(t) && t.secret.None?
              && t.admitted.Some? && t.forwarders[0] == (0, t.admitted.value) && t.admitted.value != 0
  {
    ReachableInv(t);
    if t.forwarders != [] {
      assert ReadyInv(t, 0) && HandlerInv(t, t.admitted.value) && ReadyInv(t, t.admitted.value);
    }
  }

  /** Action k of a run presents the right secret while it is unspent. */
  ghost predicate AdmitsAt(start: Tunnel, actions: seq<Action>, k: nat) {
    && k < |actions| && actions[k].Verify?
    && Exec(start, actions[..k]).Some?
    && Exec(start, actions[..k]).value.secret == Some(actions[k].provided)
  }

  lemma SecretStaysSpent(t: Tunnel, a: Action)
    requires Can(t, a)
    ensures t.secret.None? ==> Do(t, a).secret.None?
    ensures a.Verify? && t.secret == Some(a.provided) ==> Do(t, a).secret.None?
  {
    match a
    case Verify(_, _) =>
    case Place(_) =>
    case TakeClient(_) =>
    case TakeServer(_) =>
    case PutBack(_) =>
    case Expire(_) =>
    case Reap(_) =>
    case _ =>
  }

  lemma LastStep(t: Tunnel, actions: seq<Action>, k: nat)
    requires 0 < k <= |actions| && Exec(t, actions[..k]).Some?
    ensures Exec(t, actions[..k - 1]).Some? && Can(Exec(t, actions[..k - 1]).value, actions[k - 1])
    ensures Exec(t, actions[..k]).value == Do(Exec(t, actions[..k - 1]).value, actions[k - 1])
  {
    assert actions[..k][..k - 1] == actions[..k - 1];
  }

  lemma SpentStep(start: Tunnel, actions: seq<Action>, k: nat)
    requires 0 < k <= |actions| && Exec(start, actions[..k]).Some?
    ensures Exec(start, actions[..k - 1]).Some?
    ensures Exec(start, actions[..k - 1]).value.secret.None? || AdmitsAt(start, actions, k - 1) ==>
              Exec(start, actions[..k]).value.secret.None?
  {
    LastStep(start, actions, k);
    SecretStaysSpent(Exec(start, actions[..k - 1]).value, actions[k - 1]);
  }

  lemma {:induction false} SpentAfter(start: Tunnel, actions: seq<Action>, i: nat, k: nat)
    requires AdmitsAt(start, actions, i) && i < k <= |actions| && Exec(start, actions[..k]).Some?
    ensures Exec(start, actions[..k]).value.secret.None?
    decreases k
  {
    SpentStep(start, actions, k);
    if i < k - 1 {
      SpentAfter(start, actions, i, k - 1);
    }
  }

  /** Over a whole run, whatever became of the handlers, the secret is accepted at most once. */
  lemma SecretAdmitsOne(start: Tunnel, actions: seq<Action>, i: nat, k: nat)
    requires AdmitsAt(start, actions, i) && AdmitsAt(start, actions, k)
    ensures i == k
  {
    if i < k {
      SpentAfter(start, actions, i, k);
    } else if k < i {
      SpentAfter(start, actions, k, i);
    }
  }

  /** Only one handler at a time is past the secret. */
  lemma AdmittedIsAlone(t: Tunnel, g: nat, h: nat)
    requires Reachable(t) && g in t.handlers && h in t.handlers && g != 0 && h != 0
    requires !t.handlers[g].pc.Greeting? && !t.handlers[g].pc.Exited?
    requires !t.handlers[h].pc.Greeting? && !t.handlers[h].pc.Exited?
    ensures g == h && t.secret.None?
  {
    ReachableInv(t);
    assert HandlerInv(t, g) && HandlerInv(t, h);
  }

  /**
   A handler that looks for the peer and misses it, although it was attached, misses it only
   because the peer is in another handler's hand, already forwarded, or already closed; and a
   handler that holds the client misses an attached server only if that server was closed.
   */
  lemma MissIsExplained(t: Tunnel, h: nat)
    requires Reachable(t)
    ensures 0 in t.handlers
    ensures Can(t, TakeClient(h)) && t.clientSlot.None? && !Early(t.handlers[0].pc) ==>
              || (exists g :: g in t.handlers && g != h && t.handlers[g].hand == Some(0))
              || InForwarder(t, 0) || 0 in t.closed
    ensures Can(t, TakeServer(h)) && t.serverSlot.None? ==>
              h == 0 && (t.admitted.Some? ==>
                           var s := t.admitted.value;
                           s in t.handlers && (Early(t.handlers[s].pc) || s in t.closed))
  {
    ReachableInv(t);
    assert HandlerInv(t, 0);
    if Can(t, TakeClient(h)) && t.clientSlot.None? && !Early(t.handlers[0].pc) {
      assert HandlerInv(t, h);
      match t.place[0]
      case InHand(g) => assert HandlerInv(t, g) && t.handlers[g].hand == Some(0);
      case Forwarded => assert t.forwarders[0].0 == 0;
      case _ =>
    }
    if Can(t, TakeServer(h)) && t.serverSlot.None? {
      assert HandlerInv(t, h);
      if t.admitted.Some? {
        assert HandlerInv(t, t.admitted.value);
      }
    }
  }

  // ---------------------------------------------------------------------------
  // Stranded sockets
  // ---------------------------------------------------------------------------

  /** A handler that has left while its socket sits in a slot had seen both readiness marks. */
  lemma OnlyReadyTunnelsStrand(t: Tunnel, h: nat)
    requires Reachable(t) && h in t.handlers && t.handlers[h].pc.Exited?
    requires t.clientSlot == Some(h) || t.serverSlot == Some(h)
    ensures FullyReady(t)
  {
    ReachableInv(t);
    assert HandlerInv(t, h) && ReadyInv(t, h);
  }

  /** Both sockets in their slots, no forwarder, and both handlers gone. */
  predicate Stranded(t: Tunnel) {
    && t.clientSlot == Some(0) && t.serverSlot.Some? && t.serverSlot == t.admitted
    && t.forwarders == [] && t.secret.None?
    && t.serverSlot.value in t.handlers && t.handlers[t.serverSlot.value].pc.Exited?
    && 0 in t.handlers && t.handlers[0].pc.Exited?
    && forall h :: h in t.handlers ==> t.handlers[h].pc.Greeting? || t.handlers[h].pc.Exited?
  }

  lemma StrandedStep(t: Tunnel, a: Action)
    requires Stranded(t) && Can(t, a)
    ensures Stranded(Do(t, a))
  {
  }

  /** Nothing that can still happen pairs or closes the sockets of a stranded tunnel. */
  lemma {:induction false} StrandedForever(t: Tunnel, actions: seq<Action>)
    requires Stranded(t) && Exec(t, actions).Some?
    ensures Stranded(Exec(t, actions).value)
    decreases |actions|
  {
    if actions != [] {
      var n := |actions| - 1;
      StrandedForever(t, actions[..n]);
      StrandedStep(Exec(t, actions[..n]).value, actions[n]);
    }
  }

  /** Appends one step to a run. */
  lemma Extend(start: Tunnel, actions: seq<Action>, t: Tunnel, a: Action) returns (actions': seq<Action>, t': Tunnel)
    requires Exec(start, actions) == Some(t) && Can(t, a)
    ensures t' == Do(t, a) && Exec(start, actions') == Some(t')
  {
    actions', t' := actions + [a], Do(t, a);
    assert actions'[..|actions|] == actions;
  }

  /** The tunnel in the run below, after the secret was spent and both marks were set. */
  function Ready(clientSlot: Option<nat>, serverSlot: Option<nat>, client: Handler, server: Handler, p: Place, q: Place): Tunnel {
    Tunnel(true, None, true, true, clientSlot, serverSlot, map[0 := client, 1 := server], [], {}, map[0 := p, 1 := q], Some(1))
  }

  lemma ServerAdmitted(secret: nat) returns (actions: seq<Action>, t: Tunnel)
    ensures Exec(Init(secret), actions) == Some(t)
    ensures t == Tunnel(true, None, true, false, None, None, map[0 := Handler(Announced, None), 1 := Handler(Admitted, None)],
                        [], {}, map[0 := Own, 1 := Own], Some(1))
  {
    var start := Init(secret);
    actions, t := Extend(start, [], start, Mark(0));
    actions, t := Extend(start, actions, t, Announce(0));
    actions, t := Extend(start, actions, t, Arrive(1));
    actions, t := Extend(start, actions, t, Verify(1, secret));
  }

  /** Both sides have signalled readiness. */
  lemma BothReady(secret: nat) returns (actions: seq<Action>, t: Tunnel)
    ensures Exec(Init(secret), actions) == Some(t)
    ensures t == Ready(None, None, Handler(Announced, None), Handler(Announced, None), Own, Own)
  {
    var start := Init(secret);
    actions, t := ServerAdmitted(secret);
    actions, t := Extend(start, actions, t, Mark(1));
    actions, t := Extend(start, actions, t, Announce(1));
  }

  lemma ClientPlaced(secret: nat) returns (actions: seq<Action>, t: Tunnel)
    ensures Exec(Init(secret), actions) == Some(t)
    ensures t == Ready(Some(0), None, Handler(Taking(false), None), Handler(Announced, None), InClientSlot, Own)
  {
    actions, t := BothReady(secret);
    actions, t := Extend(Init(secret), actions, t, Place(0));
    actions, t := Extend(Init(secret), actions, t, Announce(0));
  }

  lemma TakesClient()
    ensures var t := Ready(Some(0), None, Handler(Taking(false), None), Handler(Announced, None), InClientSlot, Own);
            && Can(t, TakeClient(0))
            && Do(t, TakeClient(0)) == Ready(None, None, Handler(Holding(false), Some(0)), Handler(Announced, None), InHand(0), Own)
  {
  }

  /** The connect handler has the client's socket in hand and has found no server. */
  lemma ClientInHand(secret: nat) returns (actions: seq<Action>, t: Tunnel)
    ensures Exec(Init(secret), actions) == Some(t)
    ensures t == Ready(None, None, Handler(Returning(false), Some(0)), Handler(Announced, None), InHand(0), Own)
  {
    actions, t := ClientPlaced(secret);
    TakesClient();
    actions, t := Extend(Init(secret), actions, t, TakeClient(0));
    actions, t := Extend(Init(secret), actions, t, TakeServer(0));
  }

  lemma AnnouncesServer()
    ensures var t := Ready(None, Some(1), Handler(Returning(false), Some(0)), Handler(Placed, None), InHand(0), InServerSlot);
            && Can(t, Announce(1))
            && Do(t, Announce(1)) ==
               Ready(None, Some(1), Handler(Returning(false), Some(0)), Handler(Taking(false), None), InHand(0), InServerSlot)
  {
    var t := Ready(None, Some(1), Handler(Returning(false), Some(0)), Handler(Placed, None), InHand(0), InServerSlot);
    assert WakeAll(t.handlers) == t.handlers;
  }

  lemma PlacesServer()
    ensures var t := Ready(None, None, Handler(Returning(false), Some(0)), Handler(Announced, None), InHand(0), Own);
            && Can(t, Place(1))
            && Do(t, Place(1)) ==
               Ready(None, Some(1), Handler(Returning(false), Some(0)), Handler(Placed, None), InHand(0), InServerSlot)
  {
  }

  /** The tunnel handler places its socket, and its notification finds nobody waiting. */
  lemma ServerPlaced(secret: nat) returns (actions: seq<Action>, t: Tunnel)
    ensures Exec(Init(secret), actions) == Some(t)
    ensures t == Ready(None, Some(1), Handler(Returning(false), Some(0)), Handler(Taking(false), None), InHand(0), InServerSlot)
  {
    actions, t := ClientInHand(secret);
    PlacesServer();
    actions, t := Extend(Init(secret), actions, t, Place(1));
    AnnouncesServer();
    actions, t := Extend(Init(secret), actions, t, Announce(1));
  }

  lemma FindsNoClient()
    ensures var t := Ready(None, Some(1), Handler(Returning(false), Some(0)), Handler(Taking(false), None), InHand(0), InServerSlot);
            && Can(t, TakeClient(1))
            && Do(t, TakeClient(1)) ==
               Ready(None, Some(1), Handler(Returning(false), Some(0)), Handler(Looping, None), InHand(0), InServerSlot)
  {
  }

  lemma PutsClientBack()
    ensures var t := Ready(None, Some(1), Handler(Returning(false), Some(0)), Handler(Looping, None), InHand(0), InServerSlot);
            && Can(t, PutBack(0))
            && Do(t, PutBack(0)) == Ready(Some(0), Some(1), Handler(Looping, None), Handler(Looping, None), InClientSlot, InServerSlot)
  {
  }

  /** It finds no client, because the client's socket is in the other handler's hand. */
  lemma ServerMisses(secret: nat) returns (actions: seq<Action>, t: Tunnel)
    ensures Exec(Init(secret), actions) == Some(t)
    ensures t == Ready(Some(0), Some(1), Handler(Looping, None), Handler(Looping, None), InClientSlot, InServerSlot)
  {
    actions, t := ServerPlaced(secret);
    FindsNoClient();
    actions, t := Extend(Init(secret), actions, t, TakeClient(1));
    PutsClientBack();
    actions, t := Extend(Init(secret), actions, t, PutBack(0));
  }

  /** Both slots are full, and both handlers wait for a notification that has been and gone. */
  lemma BothParked(secret: nat) returns (actions: seq<Action>, t: Tunnel)
    ensures Exec(Init(secret), actions) == Some(t)
    ensures t == Ready(Some(0), Some(1), Handler(Parked, None), Handler(Parked, None), InClientSlot, InServerSlot)
  {
    actions, t := ServerMisses(secret);
    actions, t := Extend(Init(secret), actions, t, Park(0));
    actions, t := Extend(Init(secret), actions, t, Park(1));
  }

  /**
   The rendezvous can miss: a run that strands both sockets of a fully ready tunnel, which
   stays in the relay's map.
   */
  lemma StrandingIsReachable(secret: nat) returns (t: Tunnel)
    ensures Reachable(t) && Stranded(t) && FullyReady(t) && t.inMap
  {
    var start := Init(secret);
    var actions;
    actions, t := BothParked(secret);
    actions, t := Extend(start, actions, t, Expire(0));
    actions, t := Extend(start, actions, t, Expire(1));
    actions, t := Extend(start, actions, t, AfterExpiry(0));
    actions, t := Extend(start, actions, t, AfterExpiry(1));
  }
}
