/** The in-memory client registry: who is enrolled, and from which addresses each client was seen. */
module Clients {
  import opened Basics

  const MAX_IP_HISTORY: nat := 100

  datatype Connection = Connection(ip: string, at: int)

  datatype Client = Client(
    id: string,
    name: string,
    fingerprint: string,
    enrolledAt: int,
    lastSeen: int,
    history: seq<Connection>)

  type Registry = seq<Client>

  datatype Error = NotFound

  // ---------------------------------------------------------------------------
  // Registry operations
  // ---------------------------------------------------------------------------

  function Enrolled(id: string, name: string, fingerprint: string, ip: Option<string>, now: int): Client {
    Client(id, name, fingerprint, now, now, if ip.Some? then [Connection(ip.value, now)] else [])
  }

  /** One more sighting: pushed only when the address changed, then cut to the newest entries. */
  function Pushed(history: seq<Connection>, c: Connection): seq<Connection> {
    if history != [] && history[|history| - 1].ip == c.ip then history
    else LastN(history + [c], MAX_IP_HISTORY)
  }

  function Seen(c: Client, ip: Option<string>, now: int): Client {
    c.(lastSeen := now,
       history := if ip.Some? then Pushed(c.history, Connection(ip.value, now)) else c.history)
  }

  /** The position of the first client with this id, or the registry's length. */
  function FirstWith(reg: Registry, id: string): (k: nat)
    ensures k <= |reg| && (k < |reg| ==> reg[k].id == id)
    ensures forall i :: 0 <= i < k ==> reg[i].id != id
  {
    if reg == [] || reg[0].id == id then 0 else 1 + FirstWith(reg[1..], id)
  }

  function Without(reg: Registry, id: string): (r: Registry)
    ensures forall c :: c in r <==> c in reg && c.id != id
  {
    if reg == [] then [] else (if reg[0].id == id then [] else [reg[0]]) + Without(reg[1..], id)
  }

  /** The registry object. The certificate and metadata files it also writes are not modelled. */
  class ClientStore {
    var clients: Registry

    constructor ()
      ensures clients == []
    {
      clients := [];
    }

    method AddClient(id: string, name: string, fingerprint: string, ip: Option<string>, now: int)
      modifies this
      ensures clients == old(clients) + [Enrolled(id, name, fingerprint, ip, now)]
      ensures var c := clients[|old(clients)|];
              && c.id == id && c.name == name && c.fingerprint == fingerprint && c.enrolledAt == c.lastSeen == now
              && c.history == if ip.Some? then [Connection(ip.value, now)] else []
    {
      var history: seq<Connection> := [];
      if ip.Some? {
        history := [Connection(ip.value, now)];
      }
      clients := clients + [Client(id, name, fingerprint, now, now, history)];
    }

    method RemoveClient(id: string) returns (r: Result<(), Error>)
      modifies this
      ensures clients == Without(old(clients), id)
      ensures r.Ok? <==> exists c :: c in old(clients) && c.id == id
    {
      WithoutLength(clients, id);
      var kept := Without(clients, id);
      r := if |kept| == |clients| then Err(NotFound) else Ok(());
      clients := kept;
    }

    method FindById(id: string) returns (k: nat)
      ensures k == FirstWith(clients, id)
    {
      k := 0;
      while k < |clients| && clients[k].id != id
        invariant k <= |clients| && FirstWith(clients, id) == k + FirstWith(clients[k..], id)
      {
        k := k + 1;
      }
    }

    method UpdateLastSeenWithIp(id: string, ip: Option<string>, now: int) returns (r: Result<(), Error>)
      modifies this
      ensures r.Ok? <==> exists c :: c in old(clients) && c.id == id
      ensures clients == Touched(old(clients), id, ip, now)
    {
      var k := FindById(id);
      if k == |clients| {
        return Err(NotFound);
      }
      var client := clients[k].(lastSeen := now);
      if ip.Some? {
        var h := client.history;
        if h == [] || h[|h| - 1].ip != ip.value {
          h := h + [Connection(ip.value, now)];
          if |h| > MAX_IP_HISTORY {
            h := h[|h| - MAX_IP_HISTORY..];
          }
          client := client.(history := h);
        }
      }
      assert clients[k] in clients;
      clients := clients[k := client];
      return Ok(());
    }
  }

  function Touched(reg: Registry, id: string, ip: Option<string>, now: int): Registry {
    var k := FirstWith(reg, id);
    if k == |reg| then reg else reg[k := Seen(reg[k], ip, now)]
  }

  lemma {:induction false} WithoutLength(reg: Registry, id: string)
    ensures |Without(reg, id)| <= |reg|
    ensures |Without(reg, id)| == |reg| <==> forall c :: c in reg ==> c.id != id
  {
    if reg != [] {
      WithoutLength(reg[1..], id);
      assert forall c :: c in reg <==> c == reg[0] || c in reg[1..];
    }
  }

  // ---------------------------------------------------------------------------
  // Whole runs
  // ---------------------------------------------------------------------------

  datatype Call =
    | Add(id: string, name: string, fingerprint: string, ip: Option<string>, now: int)
    | Remove(id: string)
    | See(id: string, ip: Option<string>, now: int)

  /** The registry after the first `n` calls. */
  function After(calls: seq<Call>, n: nat): Registry
    requires n <= |calls|
  {
    if n == 0 then []
    else
      var reg := After(calls, n - 1);
      match calls[n - 1]
      case Add(id, name, fp, ip, now) => reg + [Enrolled(id, name, fp, ip, now)]
      case Remove(id) => Without(reg, id)
      case See(id, ip, now) => Touched(reg, id, ip, now)
  }

  /** Ids are new when they are given out. */
  ghost predicate FreshIds(calls: seq<Call>) {
    forall i, j :: 0 <= i < j < |calls| && calls[i].Add? && calls[j].Add? ==> calls[i].id != calls[j].id
  }

  /** Every address this client was seen from since it was added, in order. */
  function Sightings(calls: seq<Call>, n: nat, id: string): seq<Connection>
    requires n <= |calls|
  {
    if n == 0 then []
    else if calls[n - 1].id != id || calls[n - 1].Remove? then Sightings(calls, n - 1, id)
    else
      var sight := if calls[n - 1].ip.Some? then [Connection(calls[n - 1].ip.value, calls[n - 1].now)] else [];
      if calls[n - 1].Add? then sight else Sightings(calls, n - 1, id) + sight
  }

  /** When the client was last added or seen, with or without an address; 0 if never. */
  function LastCall(calls: seq<Call>, n: nat, id: string): int
    requires n <= |calls|
  {
    if n == 0 then 0
    else if calls[n - 1].id == id && !calls[n - 1].Remove? then calls[n - 1].now
    else LastCall(calls, n - 1, id)
  }

  /** Reference: keep a sighting when the one just before it was from another address. */
  function Dedup(s: seq<Connection>): seq<Connection> {
    if |s| <= 1 then s
    else Dedup(s[..|s| - 1]) + (if s[|s| - 1].ip == s[|s| - 2].ip then [] else [s[|s| - 1]])
  }

  lemma {:induction false} DedupEnds(s: seq<Connection>)
    requires s != []
    ensures Dedup(s) != [] && Dedup(s)[|Dedup(s)| - 1].ip == s[|s| - 1].ip
  {
    if |s| > 1 {
      DedupEnds(s[..|s| - 1]);
    }
  }

  lemma DedupPush(s: seq<Connection>, c: Connection)
    ensures Dedup(s + [c]) == if s != [] && s[|s| - 1].ip == c.ip then Dedup(s) else Dedup(s) + [c]
  {
    assert (s + [c])[..|s|] == s;
  }

  /** Cutting after every push loses nothing that cutting once at the end would keep. */
  lemma PushKeepsLastN(s: seq<Connection>, c: Connection)
    ensures Pushed(LastN(Dedup(s), MAX_IP_HISTORY), c) == LastN(Dedup(s + [c]), MAX_IP_HISTORY)
  {
    DedupPush(s, c);
    if s != [] {
      DedupEnds(s);
    }
    PushCut(Dedup(s), c);
  }

  lemma PushCut(d: seq<Connection>, c: Connection)
    ensures Pushed(LastN(d, MAX_IP_HISTORY), c) ==
            LastN(if d != [] && d[|d| - 1].ip == c.ip then d else d + [c], MAX_IP_HISTORY)
  {
    LastNPush(d, c, MAX_IP_HISTORY);
  }

  ghost predicate UniqueIds(reg: Registry) {
    forall i, j :: 0 <= i < j < |reg| ==> reg[i].id != reg[j].id
  }

  lemma {:induction false} WithoutKeepsUnique(reg: Registry, id: string)
    requires UniqueIds(reg)
    ensures UniqueIds(Without(reg, id))
  {
    if reg != [] {
      WithoutKeepsUnique(reg[1..], id);
      var rest := Without(reg[1..], id);
      assert forall i :: 0 <= i < |rest| ==> rest[i] in rest;
    }
  }

  lemma KeptFrom(reg: Registry, id: string, k: nat) returns (i: nat)
    requires k < |Without(reg, id)|
    ensures i < |reg| && reg[i] == Without(reg, id)[k] && reg[i].id != id
  {
    assert Without(reg, id)[k] in reg;
    i :| i < |reg| && reg[i] == Without(reg, id)[k];
  }

  lemma CameFrom(calls: seq<Call>, n: nat, k: nat) returns (i: nat)
    requires 0 < n <= |calls| && k < |After(calls, n)|
    ensures var reg, id := After(calls, n - 1), After(calls, n)[k].id;
            (i < |reg| && reg[i].id == id) || (calls[n - 1].Add? && calls[n - 1].id == id)
  {
    i := k;
    if calls[n - 1].Remove? {
      i := KeptFrom(After(calls, n - 1), calls[n - 1].id, k);
    }
  }

  lemma {:induction false} IdsWereAdded(calls: seq<Call>, n: nat, k: nat) returns (j: nat)
    requires n <= |calls| && k < |After(calls, n)|
    ensures j < n && calls[j].Add? && calls[j].id == After(calls, n)[k].id
    decreases n
  {
    var i := CameFrom(calls, n, k);
    if calls[n - 1].Add? && calls[n - 1].id == After(calls, n)[k].id {
      j := n - 1;
    } else {
      j := IdsWereAdded(calls, n - 1, i);
    }
  }

  lemma {:induction false} RunKeepsUnique(calls: seq<Call>, n: nat)
    requires FreshIds(calls) && n <= |calls|
    ensures UniqueIds(After(calls, n))
  {
    if n > 0 {
      RunKeepsUnique(calls, n - 1);
      var reg := After(calls, n - 1);
      match calls[n - 1]
      case Add(id, _, _, _, _) =>
        forall k | 0 <= k < |reg| ensures reg[k].id != id {
          var j := IdsWereAdded(calls, n - 1, k);
        }
      case Remove(id) => WithoutKeepsUnique(reg, id);
      case See(_, _, _) =>
    }
  }

  ghost predicate Exact(calls: seq<Call>, n: nat, c: Client)
    requires n <= |calls|
  {
    && c.history == LastN(Dedup(Sightings(calls, n, c.id)), MAX_IP_HISTORY)
    && c.lastSeen == LastCall(calls, n, c.id)
  }

  lemma OtherCall(calls: seq<Call>, n: nat, c: Client)
    requires 0 < n <= |calls| && (calls[n - 1].id != c.id || calls[n - 1].Remove?) && Exact(calls, n - 1, c)
    ensures Exact(calls, n, c)
  {
  }

  lemma SeeStep(calls: seq<Call>, n: nat, c: Client)
    requires 0 < n <= |calls| && calls[n - 1].See? && calls[n - 1].id == c.id && Exact(calls, n - 1, c)
    ensures Exact(calls, n, Seen(c, calls[n - 1].ip, calls[n - 1].now))
  {
    var before := Sightings(calls, n - 1, c.id);
    if calls[n - 1].ip.Some? {
      PushKeepsLastN(before, Connection(calls[n - 1].ip.value, calls[n - 1].now));
    } else {
      assert before + [] == before;
    }
  }

  /** A client `b` that a call left in the registry, and what became of it. */
  predicate Follows(call: Call, b: Client, c: Client) {
    if call.See? && call.id == b.id then c == Seen(b, call.ip, call.now)
    else c == b && (call.id != c.id || call.Remove?)
  }

  /** A client after a call is the same client before it, or just seen, or just added. */
  lemma ClientStep(calls: seq<Call>, n: nat, k: nat) returns (i: nat)
    requires FreshIds(calls) && 0 < n <= |calls| && k < |After(calls, n)|
    ensures var c, reg, call := After(calls, n)[k], After(calls, n - 1), calls[n - 1];
            if call.Add? && call.id == c.id then c == Enrolled(c.id, call.name, call.fingerprint, call.ip, call.now)
            else i < |reg| && Follows(call, reg[i], c)
  {
    var reg, c := After(calls, n - 1), After(calls, n)[k];
    i := k;
    match calls[n - 1]
    case Add(id, _, _, _, _) =>
      RunKeepsUnique(calls, n);
      assert After(calls, n)[|reg|].id == id;
    case Remove(id) =>
      i := KeptFrom(reg, id, k);
    case See(id, _, _) =>
      RunKeepsUnique(calls, n - 1);
      assert reg[k].id == id ==> FirstWith(reg, id) == k;
  }

  lemma AddStep(calls: seq<Call>, n: nat, c: Client)
    requires 0 < n <= |calls| && calls[n - 1].Add?
    requires var call := calls[n - 1]; c == Enrolled(call.id, call.name, call.fingerprint, call.ip, call.now)
    ensures Exact(calls, n, c)
  {
  }

  lemma StepExact(calls: seq<Call>, n: nat, b: Client, c: Client)
    requires 0 < n <= |calls| && Exact(calls, n - 1, b) && Follows(calls[n - 1], b, c)
    ensures Exact(calls, n, c)
  {
    if calls[n - 1].See? && calls[n - 1].id == b.id {
      SeeStep(calls, n, b);
    } else {
      OtherCall(calls, n, b);
    }
  }

  ghost predicate AllExact(calls: seq<Call>, n: nat)
    requires n <= |calls|
  {
    forall k :: 0 <= k < |After(calls, n)| ==> Exact(calls, n, After(calls, n)[k])
  }

  lemma AllExactStep(calls: seq<Call>, n: nat, k: nat)
    requires FreshIds(calls) && 0 < n <= |calls| && AllExact(calls, n - 1) && k < |After(calls, n)|
    ensures Exact(calls, n, After(calls, n)[k])
  {
    var i := ClientStep(calls, n, k);
    if calls[n - 1].Add? && calls[n - 1].id == After(calls, n)[k].id {
      AddStep(calls, n, After(calls, n)[k]);
    } else {
      StepExact(calls, n, After(calls, n - 1)[i], After(calls, n)[k]);
    }
  }

  lemma {:induction false} RunKeepsExact(calls: seq<Call>, n: nat)
    requires FreshIds(calls) && n <= |calls|
    ensures AllExact(calls, n)
  {
    if n > 0 {
      RunKeepsExact(calls, n - 1);
      forall k | 0 <= k < |After(calls, n)| ensures Exact(calls, n, After(calls, n)[k]) {
        AllExactStep(calls, n, k);
      }
    }
  }

  /** After any run, a client's history is the newest hundred of its deduplicated sightings. */
  lemma HistoryIsTrimmedDedup(calls: seq<Call>, k: nat)
    requires FreshIds(calls) && k < |After(calls, |calls|)|
    ensures var c := After(calls, |calls|)[k];
            && c.history == LastN(Dedup(Sightings(calls, |calls|, c.id)), 100)
            && c.lastSeen == LastCall(calls, |calls|, c.id)
  {
    RunKeepsExact(calls, |calls|);
    assert Exact(calls, |calls|, After(calls, |calls|)[k]);
  }

  /** The client is called what the call that added it said. */
  predicate CalledAs(c: Client, call: Call) {
    call.Add? && c.id == call.id && c.name == call.name && c.fingerprint == call.fingerprint && c.enrolledAt == call.now
  }

  ghost predicate Called(calls: seq<Call>, n: nat, c: Client) {
    exists j :: 0 <= j < n <= |calls| && CalledAs(c, calls[j])
  }

  ghost predicate AllCalled(calls: seq<Call>, n: nat)
    requires n <= |calls|
  {
    forall k :: 0 <= k < |After(calls, n)| ==> Called(calls, n, After(calls, n)[k])
  }

  lemma FollowsKeepsName(calls: seq<Call>, n: nat, b: Client, c: Client)
    requires 0 < n <= |calls| && Called(calls, n - 1, b) && Follows(calls[n - 1], b, c)
    ensures Called(calls, n, c)
  {
    var j :| 0 <= j < n - 1 && CalledAs(b, calls[j]);
    assert CalledAs(c, calls[j]);
  }

  lemma AllCalledStep(calls: seq<Call>, n: nat, k: nat)
    requires FreshIds(calls) && 0 < n <= |calls| && AllCalled(calls, n - 1) && k < |After(calls, n)|
    ensures Called(calls, n, After(calls, n)[k])
  {
    var i := ClientStep(calls, n, k);
    if calls[n - 1].Add? && calls[n - 1].id == After(calls, n)[k].id {
      assert CalledAs(After(calls, n)[k], calls[n - 1]);
    } else {
      FollowsKeepsName(calls, n, After(calls, n - 1)[i], After(calls, n)[k]);
    }
  }

  /** Whatever was seen of it since, a client is called what it was called when it was added. */
  lemma {:induction false} IdentityStays(calls: seq<Call>, n: nat)
    requires FreshIds(calls) && n <= |calls|
    ensures AllCalled(calls, n)
  {
    if n > 0 {
      IdentityStays(calls, n - 1);
      forall k | 0 <= k < |After(calls, n)| ensures Called(calls, n, After(calls, n)[k]) {
        AllCalledStep(calls, n, k);
      }
    }
  }
}
