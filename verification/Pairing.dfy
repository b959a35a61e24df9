/**
 Pairing requests and their approval. Approving crosses two stores: the request is looked up
 under one lock, the client is added under another, and the request is marked approved under
 the first again. Rejections, polls, new requests and the clock come in between.
 */
module Pairing {
  import opened Basics

  datatype Status = Pending | Approved | Rejected | Timeout

  /** `certificate` stands for the certificate and for the fingerprint computed from it. */
  datatype Request = Request(certificate: nat, expiresAt: int, status: Status, clientId: Option<nat>)

  type Requests = map<nat, Request>

  datatype Error = NotFound | HasExpired | NotPending

  predicate IsExpired(r: Request, now: int) {
    now > r.expiresAt
  }

  predicate IsPending(r: Request, now: int) {
    r.status.Pending? && !IsExpired(r, now)
  }

  // ---------------------------------------------------------------------------
  // The request table
  // ---------------------------------------------------------------------------

  /** Requests that are still pending but too old are forgotten. */
  function Cleanup(m: Requests, now: int): Requests {
    map id | id in m && (!IsExpired(m[id], now) || !m[id].status.Pending?) :: m[id]
  }

  function Created(m: Requests, id: nat, certificate: nat, timeout: int, now: int): Requests {
    Cleanup(m, now)[id := Request(certificate, now + timeout, Pending, None)]
  }

  /** Looking at an expired request marks it timed out, whatever its status was. */
  function Looked(m: Requests, id: nat, now: int): Requests {
    if id in m && IsExpired(m[id], now) then m[id := m[id].(status := Timeout)] else m
  }

  /** The table after approve_request, and its answer. */
  function Approve(m: Requests, id: nat, client: nat, now: int): (Requests, Result<(), Error>) {
    if id !in m then (m, Err(NotFound))
    else if IsExpired(m[id], now) then (m[id := m[id].(status := Timeout)], Err(HasExpired))
    else if !m[id].status.Pending? then (m, Err(NotPending))
    else (m[id := m[id].(status := Approved, clientId := Some(client))], Ok(()))
  }

  function Reject(m: Requests, id: nat): (Requests, Result<(), Error>) {
    if id !in m then (m, Err(NotFound))
    else if !m[id].status.Pending? then (m, Err(NotPending))
    else (m[id := m[id].(status := Rejected)], Ok(()))
  }

  /** The only ways a request may change. */
  predicate Evolves(r: Request, r': Request) {
    && r'.certificate == r.certificate && r'.expiresAt == r.expiresAt
    && (r'.clientId == r.clientId || (r.clientId.None? && r.status.Pending? && r'.status.Approved?))
    && (r'.status == r.status
        || r.status.Pending?
        || (r'.status.Timeout? && (r.status.Approved? || r.status.Rejected?)))
  }

  /** The manager object; the clock is read by the caller. */
  class PairingRequestManager {
    var requests: Requests

    constructor ()
      ensures requests == map[]
    {
      requests := map[];
    }

    method CreateRequest(id: nat, certificate: nat, timeout: int, now: int)
      modifies this
      ensures requests == Created(old(requests), id, certificate, timeout, now)
      ensures id in requests && requests[id] == Request(certificate, now + timeout, Pending, None)
      ensures forall k :: k != id ==>
                (k in requests <==> k in old(requests) && !(old(requests)[k].status.Pending? && now > old(requests)[k].expiresAt))
      ensures forall k :: k != id && k in requests ==> requests[k] == old(requests)[k]
    {
      var request := Request(certificate, now + timeout, Pending, None);
      requests := map k | k in requests && (!IsExpired(requests[k], now) || !requests[k].status.Pending?) :: requests[k];
      requests := requests[id := request];
    }

    method GetRequest(id: nat, now: int) returns (r: Option<Request>)
      modifies this
      ensures requests == Looked(old(requests), id, now)
      ensures r == if id in requests then Some(requests[id]) else None
      ensures r.Some? && now > r.value.expiresAt ==> r.value.status.Timeout?
      ensures r.Some? && now <= r.value.expiresAt ==> r.value == old(requests)[id]
      ensures requests.Keys == old(requests).Keys && forall k :: k in requests && k != id ==> requests[k] == old(requests)[k]
    {
      if id in requests && IsExpired(requests[id], now) {
        requests := requests[id := requests[id].(status := Timeout)];
      }
      r := if id in requests then Some(requests[id]) else None;
    }

    method ApproveRequest(id: nat, client: nat, now: int) returns (r: Result<(), Error>)
      modifies this
      ensures (requests, r) == Approve(old(requests), id, client, now)
      ensures r.Ok? <==> id in old(requests) && old(requests)[id].status.Pending? && now <= old(requests)[id].expiresAt
      ensures r.Ok? ==> requests[id].status.Approved? && requests[id].clientId == Some(client)
      ensures r == Err(NotFound) <==> id !in old(requests)
      ensures r == Err(HasExpired) <==> id in old(requests) && now > old(requests)[id].expiresAt
      ensures r == Err(HasExpired) ==> requests[id] == old(requests)[id].(status := Timeout)
      ensures r == Err(NotPending) ==> requests == old(requests)
      ensures r.Err? && id in requests ==> requests[id].clientId == old(requests)[id].clientId
      ensures requests.Keys == old(requests).Keys && forall k :: k in requests && k != id ==> requests[k] == old(requests)[k]
    {
      if id !in requests {
        return Err(NotFound);
      }
      if IsExpired(requests[id], now) {
        requests := requests[id := requests[id].(status := Timeout)];
        return Err(HasExpired);
      }
      if !requests[id].status.Pending? {
        return Err(NotPending);
      }
      requests := requests[id := requests[id].(status := Approved, clientId := Some(client))];
      return Ok(());
    }

    method RejectRequest(id: nat) returns (r: Result<(), Error>)
      modifies this
      ensures (requests, r) == Reject(old(requests), id)
      ensures r.Ok? <==> id in old(requests) && old(requests)[id].status.Pending?
      ensures r.Ok? ==> requests[id] == old(requests)[id].(status := Rejected)
      ensures r.Err? ==> requests == old(requests) && (r == Err(NotFound) <==> id !in old(requests))
      ensures requests.Keys == old(requests).Keys && forall k :: k in requests && k != id ==> requests[k] == old(requests)[k]
    {
      if id !in requests {
        return Err(NotFound);
      }
      if !requests[id].status.Pending? {
        return Err(NotPending);
      }
      requests := requests[id := requests[id].(status := Rejected)];
      return Ok(());
    }
  }

  // ---------------------------------------------------------------------------
  // Approval across the two stores, as a step system
  // ---------------------------------------------------------------------------

  /** A stored client; `origin` is the pairing request it was added for, if any. */
  datatype Entry = Entry(id: nat, certificate: nat, origin: Option<nat>)

  /** The approval under way; there is one at a time, since it holds the client store's lock. */
  datatype Approval =
    | NoApproval
    | Checking(request: nat, found: Request)
    | Adding(request: nat, certificate: nat)
    | Finishing(request: nat, client: nat)

  datatype State = State(
    now: int,
    requests: Requests,
    issued: set<nat>,         // request ids handed out
    clients: seq<Entry>,
    approval: Approval)

  function Init(now: int): State {
    State(now, map[], {}, [], NoApproval)
  }

  datatype Action =
    | Tick(seconds: nat)
    | Create(id: nat, certificate: nat, timeout: int)
    | Poll(id: nat)
    | ListPending
    | RejectOne(id: nat)
    | Enrol(client: nat, certificate: nat)   // another way into the client store
    | Begin(id: nat)                         // approve: lock the client store, look the request up
    | Check                                  // approve: is the copy that was looked up still pending?
    | AddClient(client: nat)
    | Finish

  predicate Can(s: State, a: Action) {
    match a
    case Create(id, _, _) => id !in s.issued
    case Enrol(c, _) => s.approval.NoApproval? && forall k :: 0 <= k < |s.clients| ==> s.clients[k].id != c
    case Begin(_) => s.approval.NoApproval?
    case Check => s.approval.Checking?
    case AddClient(c) => s.approval.Adding? && forall k :: 0 <= k < |s.clients| ==> s.clients[k].id != c
    case Finish => s.approval.Finishing?
    case _ => true
  }

  function DoBegin(s: State, id: nat): State {
    var m := Looked(s.requests, id, s.now);
    s.(requests := m,
       approval := if id in m then Checking(id, m[id]) else NoApproval)
  }

  function Do(s: State, a: Action): State
    requires Can(s, a)
  {
    match a
    case Tick(d) => s.(now := s.now + d)
    case Create(id, cert, timeout) =>
      s.(requests := Created(s.requests, id, cert, timeout, s.now), issued := s.issued + {id})
    case Poll(id) => s.(requests := Looked(s.requests, id, s.now))
    case ListPending => s.(requests := Cleanup(s.requests, s.now))
    case RejectOne(id) => s.(requests := Reject(s.requests, id).0)
    case Enrol(c, cert) => s.(clients := s.clients + [Entry(c, cert, None)])
    case Begin(id) => DoBegin(s, id)
    case Check =>
      var (r, found) := (s.approval.request, s.approval.found);
      s.(approval := if IsPending(found, s.now) then Adding(r, found.certificate) else NoApproval)
    case AddClient(c) =>
      s.(clients := s.clients + [Entry(c, s.approval.certificate, Some(s.approval.request))],
         approval := Finishing(s.approval.request, c))
    case Finish =>
      s.(requests := Approve(s.requests, s.approval.request, s.approval.client, s.now).0, approval := NoApproval)
  }

  function Exec(s: State, actions: seq<Action>): Option<State> {
    if actions == [] then Some(s)
    else
      var t := Exec(s, actions[..|actions| - 1]);
      if t.Some? && Can(t.value, actions[|actions| - 1]) then Some(Do(t.value, actions[|actions| - 1])) else None
  }

  ghost predicate Reachable(s: State) {
    exists now, actions :: Exec(Init(now), actions) == Some(s)
  }

  predicate HasEntry(s: State, r: nat) {
    exists k :: 0 <= k < |s.clients| && s.clients[k].origin == Some(r)
  }

  /** The approval under way agrees with the stores. */
  ghost predicate ApprovalInv(s: State) {
    match s.approval
    case NoApproval => true
    case Checking(r, found) =>
      found.status.Pending? ==>
        && r in s.issued && !HasEntry(s, r)
        && (r in s.requests ==> s.requests[r].certificate == found.certificate && s.requests[r].clientId.None?)
    case Adding(r, cert) =>
      && r in s.issued && !HasEntry(s, r)
      && (r in s.requests ==> s.requests[r].certificate == cert && s.requests[r].clientId.None?)
    case Finishing(r, c) =>
      && r in s.issued && |s.clients| > 0 && s.clients[|s.clients| - 1].id == c
      && s.clients[|s.clients| - 1].origin == Some(r)
      && (r in s.requests ==> s.requests[r].certificate == s.clients[|s.clients| - 1].certificate && s.requests[r].clientId.None?)
  }

  /** A request that has a client is no longer pending, unless its approval is being finished. */
  ghost predicate EntryInv(s: State) {
    && (forall k :: 0 <= k < |s.clients| && s.clients[k].origin.Some? ==> s.clients[k].origin.value in s.issued)
    && (forall k, l :: 0 <= k < l < |s.clients| && s.clients[k].origin.Some? ==> s.clients[k].origin != s.clients[l].origin)
    && (forall k, l :: 0 <= k < l < |s.clients| ==> s.clients[k].id != s.clients[l].id)
    && (forall k :: 0 <= k < |s.clients| && s.clients[k].origin.Some? && s.clients[k].origin.value in s.requests ==>
          !s.requests[s.clients[k].origin.value].status.Pending?
          || (s.approval.Finishing? && Some(s.approval.request) == s.clients[k].origin))
  }

  ghost predicate RequestInv(s: State) {
    && (forall r :: r in s.requests ==> r in s.issued)
    && (forall r :: r in s.requests && s.requests[r].status.Approved? ==> s.requests[r].clientId.Some?)
    && (forall r :: r in s.requests && s.requests[r].status.Pending? ==> s.requests[r].clientId.None?)
    && (forall r :: r in s.requests && s.requests[r].clientId.Some? ==> Named(s, r, s.requests[r].clientId.value))
  }

  /** Some stored client has this id, this request's certificate, and came from this request. */
  ghost predicate Named(s: State, r: nat, c: nat)
    requires r in s.requests
  {
    exists k :: 0 <= k < |s.clients| && s.clients[k] == Entry(c, s.requests[r].certificate, Some(r))
  }

  ghost predicate Inv(s: State) {
    ApprovalInv(s) && EntryInv(s) && RequestInv(s)
  }

  // ---------------------------------------------------------------------------
  // Every step keeps the invariant
  // ---------------------------------------------------------------------------

  /** Over every step, a request that survives it evolves as allowed, and approval comes in time. */
  lemma RequestsEvolve(s: State, a: Action, r: nat)
    requires RequestInv(s) && Can(s, a) && r in s.requests && r in Do(s, a).requests
    ensures Evolves(s.requests[r], Do(s, a).requests[r])
    ensures !s.requests[r].status.Approved? && Do(s, a).requests[r].status.Approved? ==>
              a.Finish? && s.approval.request == r && s.now <= s.requests[r].expiresAt
  {
  }

  /** Steps that leave the client store alone. */
  lemma TableStepKeeps(s: State, a: Action)
    requires Inv(s) && Can(s, a) && (a.Tick? || a.Create? || a.Poll? || a.ListPending? || a.RejectOne?)
    ensures Inv(Do(s, a))
  {
    var t := Do(s, a);
    assert t.clients == s.clients && t.approval == s.approval;
    forall r | r in t.requests && t.requests[r].clientId.Some?
      ensures Named(t, r, t.requests[r].clientId.value)
    {
      assert Named(s, r, s.requests[r].clientId.value);
    }
  }

  lemma BeginKeeps(s: State, a: Action)
    requires Inv(s) && Can(s, a) && (a.Begin? || a.Check?)
    ensures Inv(Do(s, a))
  {
    var t := Do(s, a);
    forall r | r in t.requests && t.requests[r].clientId.Some?
      ensures Named(t, r, t.requests[r].clientId.value)
    {
      assert Named(s, r, s.requests[r].clientId.value);
    }
  }

  lemma StoreStepKeeps(s: State, a: Action)
    requires Inv(s) && Can(s, a) && (a.Enrol? || a.AddClient?)
    ensures Inv(Do(s, a))
  {
    var t := Do(s, a);
    forall r | r in t.requests && t.requests[r].clientId.Some?
      ensures Named(t, r, t.requests[r].clientId.value)
    {
      assert Named(s, r, s.requests[r].clientId.value);
      var k :| 0 <= k < |s.clients| && s.clients[k] == Entry(t.requests[r].clientId.value, s.requests[r].certificate, Some(r));
      assert t.clients[k] == s.clients[k];
    }
  }

  lemma FinishNames(s: State, r: nat)
    requires Inv(s) && s.approval.Finishing? && r in Do(s, Finish).requests && Do(s, Finish).requests[r].clientId.Some?
    ensures Named(Do(s, Finish), r, Do(s, Finish).requests[r].clientId.value)
  {
    var t := Do(s, Finish);
    if s.requests[r].clientId.Some? {
      assert Named(s, r, s.requests[r].clientId.value);
    } else {
      var k := |s.clients| - 1;
      assert t.clients[k] == Entry(t.requests[r].clientId.value, t.requests[r].certificate, Some(r));
    }
  }

  /** Whatever the answer, the request is no longer pending. */
  lemma FinishKeepsEntries(s: State)
    requires EntryInv(s) && s.approval.Finishing?
    ensures EntryInv(Do(s, Finish))
  {
    var t := Do(s, Finish);
    forall r | r in t.requests ensures r in s.requests && (t.requests[r].status.Pending? ==> s.requests[r].status.Pending?) {
    }
    assert s.approval.request in t.requests ==> !t.requests[s.approval.request].status.Pending?;
  }

  lemma FinishKeeps(s: State)
    requires Inv(s) && s.approval.Finishing?
    ensures Inv(Do(s, Finish))
  {
    var t := Do(s, Finish);
    FinishKeepsEntries(s);
    forall r | r in t.requests && t.requests[r].clientId.Some?
      ensures Named(t, r, t.requests[r].clientId.value)
    {
      FinishNames(s, r);
    }
  }

  lemma InvStep(s: State, a: Action)
    requires Inv(s) && Can(s, a)
    ensures Inv(Do(s, a))
  {
    match a
    case Begin(_) => BeginKeeps(s, a);
    case Check => BeginKeeps(s, a);
    case Enrol(_, _) => StoreStepKeeps(s, a);
    case AddClient(_) => StoreStepKeeps(s, a);
    case Finish => FinishKeeps(s);
    case _ => TableStepKeeps(s, a);
  }

  lemma {:induction false} RunInv(s: State, actions: seq<Action>)
    requires Inv(s) && Exec(s, actions).Some?
    ensures Inv(Exec(s, actions).value)
    decreases |actions|
  {
    if actions != [] {
      RunInv(s, actions[..|actions| - 1]);
      InvStep(Exec(s, actions[..|actions| - 1]).value, actions[|actions| - 1]);
    }
  }

  lemma ReachableInv(s: State)
    requires Reachable(s)
    ensures Inv(s)
  {
    var now, actions :| Exec(Init(now), actions) == Some(s);
    RunInv(Init(now), actions);
  }

  // ---------------------------------------------------------------------------
  // What holds of every run
  // ---------------------------------------------------------------------------

  /** However approvals, rejections, polls and expiry interleave, a request adds at most one client. */
  lemma OneClientPerRequest(s: State, k: nat, l: nat)
    requires Reachable(s) && k < |s.clients| && l < |s.clients|
    requires s.clients[k].origin.Some? && s.clients[k].origin == s.clients[l].origin
    ensures k == l
  {
    ReachableInv(s);
  }

  /** An approved request names the one client that was added for it, with its own certificate. */
  lemma ApprovedNamesItsClient(s: State, r: nat)
    requires Reachable(s) && r in s.requests && s.requests[r].status.Approved?
    ensures s.requests[r].clientId.Some? && Named(s, r, s.requests[r].clientId.value)
  {
    ReachableInv(s);
  }

  /** Whole runs: a request that is still there has evolved by allowed steps only. */
  ghost predicate EvolvesTo(r: Request, r': Request) {
    && r'.certificate == r.certificate && r'.expiresAt == r.expiresAt
    && (r.clientId.Some? || !r.status.Pending? ==> r'.clientId == r.clientId)
    && (r.status.Timeout? ==> r'.status.Timeout?)
    && (r.status.Approved? ==> r'.status.Approved? || r'.status.Timeout?)
    && (r.status.Rejected? ==> r'.status.Rejected? || r'.status.Timeout?)
  }

  lemma {:induction false} RunEvolves(s: State, actions: seq<Action>, r: nat)
    requires Inv(s) && Exec(s, actions).Some? && r in s.requests && r in Exec(s, actions).value.requests
    ensures EvolvesTo(s.requests[r], Exec(s, actions).value.requests[r])
    decreases |actions|
  {
    if actions != [] {
      var before := actions[..|actions| - 1];
      RunInv(s, before);
      var t := Exec(s, before).value;
      assert r in s.issued;
      RunIssued(s, before);
      if r !in t.requests {
        StaysForgotten(t, actions[|actions| - 1], r);
        assert false;
      }
      RunEvolves(s, before, r);
      RequestsEvolve(t, actions[|actions| - 1], r);
    }
  }

  lemma {:induction false} RunIssued(s: State, actions: seq<Action>)
    requires Exec(s, actions).Some?
    ensures s.issued <= Exec(s, actions).value.issued
    decreases |actions|
  {
    if actions != [] {
      RunIssued(s, actions[..|actions| - 1]);
    }
  }

  /** An id that was handed out and is gone never comes back. */
  lemma StaysForgotten(s: State, a: Action, r: nat)
    requires Can(s, a) && r in s.issued && r !in s.requests
    ensures r !in Do(s, a).requests
  {
  }

  /** Listing the pending requests forgets those whose time is over, and nothing else; looking at one marks it. */
  lemma ListingAndPolling(s: State, id: nat)
    ensures var t := Do(s, ListPending);
            && (id in t.requests <==> id in s.requests && !(s.requests[id].status.Pending? && s.now > s.requests[id].expiresAt))
            && (id in t.requests ==> t.requests[id] == s.requests[id])
    ensures var t := Do(s, Poll(id));
            && (id in t.requests <==> id in s.requests)
            && (id in t.requests ==>
                  t.requests[id] == if s.now > s.requests[id].expiresAt then s.requests[id].(status := Timeout) else s.requests[id])
  {
  }

  /**
   An approval goes on to store a client exactly if the request is there and pending when it is looked
   up, and its time is not over when that copy is checked, d seconds later.
   */
  lemma ApprovalProceedsIff(s: State, id: nat, d: nat)
    requires s.approval.NoApproval?
    ensures var t := Do(Do(s, Begin(id)), Tick(d));
            && t.requests == Do(s, Poll(id)).requests && t.clients == s.clients
            && (Can(t, Check) <==> id in s.requests)
            && (Can(t, Check) ==>
                  Do(t, Check).approval ==
                  if s.requests[id].status.Pending? && s.now + d <= s.requests[id].expiresAt
                  then Adding(id, s.requests[id].certificate) else NoApproval)
  {
  }

  // ---------------------------------------------------------------------------
  // Clients without an approval
  // ---------------------------------------------------------------------------

  /**
   The client is stored before the request is approved. The request ends up naming it exactly
   when at that moment the request is still there, still pending and not expired; otherwise
   the client stays in the store although the approval failed.
   */
  lemma ApprovalCompletesIff(s: State)
    requires Reachable(s) && s.approval.Finishing?
    ensures var r, c, t := s.approval.request, s.approval.client, Do(s, Finish);
            && t.clients == s.clients && HasEntry(t, r)
            && ((r in t.requests && t.requests[r].clientId == Some(c)) <==>
                (r in s.requests && IsPending(s.requests[r], s.now)))
  {
    ReachableInv(s);
    assert s.clients[|s.clients| - 1].origin == Some(s.approval.request);
  }

  lemma {:induction false} RunKeepsClients(s: State, actions: seq<Action>)
    requires Exec(s, actions).Some?
    ensures s.clients <= Exec(s, actions).value.clients
    decreases |actions|
  {
    if actions != [] {
      RunKeepsClients(s, actions[..|actions| - 1]);
    }
  }

  /** A client whose approval failed stays in the store, and no request ever names it, in any continuation. */
  lemma OrphanForever(s: State, actions: seq<Action>, q: nat)
    requires Reachable(s) && s.approval.Finishing?
    requires !(s.approval.request in s.requests && IsPending(s.requests[s.approval.request], s.now))
    requires Exec(Do(s, Finish), actions).Some?
    ensures var t := Exec(Do(s, Finish), actions).value;
            && s.clients <= t.clients
            && (q in t.requests ==> t.requests[q].clientId != Some(s.approval.client))
  {
    ReachableInv(s);
    var r, c, u := s.approval.request, s.approval.client, Do(s, Finish);
    InvStep(s, Finish);
    RunInv(u, actions);
    RunKeepsClients(u, actions);
    var t := Exec(u, actions).value;
    if q in t.requests && t.requests[q].clientId == Some(c) {
      assert Named(t, q, c);
      var last := |s.clients| - 1;
      assert t.clients[last] == s.clients[last] && t.clients[last].id == c;
      assert q == r;
      if r in u.requests {
        RunEvolves(u, actions, r);
      } else {
        StaysGone(u, actions, r);
      }
      assert false;
    }
  }

  lemma {:induction false} StaysGone(s: State, actions: seq<Action>, r: nat)
    requires r in s.issued && r !in s.requests && Exec(s, actions).Some?
    ensures r !in Exec(s, actions).value.requests
    decreases |actions|
  {
    if actions != [] {
      var before := actions[..|actions| - 1];
      StaysGone(s, before, r);
      RunIssued(s, before);
      StaysForgotten(Exec(s, before).value, actions[|actions| - 1], r);
    }
  }

  lemma Extend(start: State, actions: seq<Action>, s: State, a: Action) returns (actions': seq<Action>, s': State)
    requires Exec(start, actions) == Some(s) && Can(s, a)
    ensures Exec(start, actions') == Some(s') && s' == Do(s, a)
  {
    actions', s' := actions + [a], Do(s, a);
    assert actions'[..|actions|] == actions;
  }

  lemma ClientStored() returns (actions: seq<Action>, s: State)
    ensures Exec(Init(0), actions) == Some(s)
    ensures s == State(0, map[0 := Request(42, 60, Pending, None)], {0}, [Entry(7, 42, Some(0))], Finishing(0, 7))
  {
    actions, s := [], Init(0);
    actions, s := Extend(Init(0), actions, s, Create(0, 42, 60));
    actions, s := Extend(Init(0), actions, s, Begin(0));
    actions, s := Extend(Init(0), actions, s, Check);
    actions, s := Extend(Init(0), actions, s, AddClient(7));
  }

  /** It does happen: a request rejected between the two steps leaves its client in the store. */
  lemma RejectedRequestKeepsItsClient() returns (s: State)
    ensures Reachable(s) && s.approval.NoApproval?
    ensures 0 in s.requests && s.requests[0].status.Rejected? && s.clients == [Entry(7, 42, Some(0))]
  {
    var actions, s0 := ClientStored();
    actions, s := Extend(Init(0), actions, s0, RejectOne(0));
    actions, s := Extend(Init(0), actions, s, Finish);
  }
}
