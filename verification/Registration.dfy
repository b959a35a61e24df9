/**
 The relay's table of registered servers. A server that registers again replaces its entry;
 when a control channel ends, its own handler removes the entry only if it is still current.
 */
module Registration {
  import opened Basics

  /** One write to the table, in the order the write lock was acquired. */
  datatype Write =
    | Upsert(server: nat, registration: nat)
    | End(server: nat, registration: nat)

  type Table = map<nat, nat>

  function Apply(table: Table, w: Write): Table {
    match w
    case Upsert(s, r) => table[s := r]
    case End(s, r) => if s in table && table[s] == r then table - {s} else table
  }

  function After(writes: seq<Write>): Table {
    if writes == [] then map[]
    else Apply(After(writes[..|writes| - 1]), writes[|writes| - 1])
  }

  /** Registration ids are fresh, and a channel ends after it was registered, as its handler's code does it. */
  ghost predicate History(writes: seq<Write>) {
    forall i, j :: 0 <= i < j < |writes| && writes[j].Upsert? ==> writes[i].registration != writes[j].registration
  }

  /** The newest registration of a server, whether or not its channel has ended. */
  function Latest(writes: seq<Write>, server: nat): Option<nat> {
    if writes == [] then None
    else
      var w := writes[|writes| - 1];
      if w.Upsert? && w.server == server then Some(w.registration) else Latest(writes[..|writes| - 1], server)
  }

  lemma {:induction false} LatestIsThere(writes: seq<Write>, server: nat)
    requires Latest(writes, server).Some?
    ensures Upsert(server, Latest(writes, server).value) in writes
    decreases |writes|
  {
    var n := |writes| - 1;
    if writes[n] != Upsert(server, Latest(writes, server).value) {
      LatestIsThere(writes[..n], server);
    }
  }

  /**
   Whatever the interleaving of registrations and endings, a server is in the table exactly
   when its newest registration has not ended, and then with that registration: the late
   cleanup of an old control channel never removes a newer one.
   */
  lemma {:induction false} EntryIsCurrent(writes: seq<Write>, server: nat)
    requires History(writes)
    ensures server in After(writes) <==>
            Latest(writes, server).Some? && End(server, Latest(writes, server).value) !in writes
    ensures server in After(writes) ==> After(writes)[server] == Latest(writes, server).value
    decreases |writes|
  {
    if writes != [] {
      var n := |writes| - 1;
      var before, w := writes[..n], writes[n];
      EntryIsCurrent(before, server);
      assert writes == before + [w];
      if w == Upsert(server, w.registration) {
        assert forall i :: 0 <= i < n ==> before[i].registration != w.registration;
        assert End(server, w.registration) !in before;
      }
    }
  }

  /** The table as the relay keeps it. */
  class ServerTable {
    var entries: Table
    ghost var writes: seq<Write>

    ghost predicate Valid()
      reads this
    {
      entries == After(writes)
    }

    constructor ()
      ensures Valid() && writes == []
    {
      entries, writes := map[], [];
    }

    method UpsertServer(server: nat, registration: nat)
      requires Valid()
      modifies this
      ensures Valid() && writes == old(writes) + [Upsert(server, registration)]
    {
      entries := entries[server := registration];
      writes := writes + [Upsert(server, registration)];
    }

    method RemoveServerIfCurrent(server: nat, registration: nat)
      requires Valid()
      modifies this
      ensures Valid() && writes == old(writes) + [End(server, registration)]
    {
      var shouldRemove := server in entries && entries[server] == registration;
      if shouldRemove {
        entries := entries - {server};
      }
      writes := writes + [End(server, registration)];
    }
  }
}
