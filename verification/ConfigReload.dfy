/**
 Hot reload of the configuration: the watcher swaps the contents under the write lock, then
 increments the version, then broadcasts it, while any number of requests list the contents
 under the read lock and load the version.
 */
module ConfigReload {
  import opened Basics

  datatype Reloader =
    | Idle
    | Swapped             // new contents in place, version not yet incremented
    | Bumped(version: nat) // version incremented, not yet broadcast

  datatype Reader =
    | Holding(generation: nat)                              // has the read lock, contents read
    | Answered(generation: nat, version: nat, heard: nat)   // returned both; `heard` notices had been sent

  /** Generation n of the contents is what reload n put in place; the first is number 1, like the version. */
  datatype State = State(
    generation: nat,
    version: nat,
    reloader: Reloader,
    notices: seq<nat>,
    readers: map<nat, Reader>)

  function Init(): State {
    State(1, 1, Idle, [], map[])
  }

  datatype Action = Lock(r: nat) | Load(r: nat) | Swap | Bump | Notify

  predicate Can(s: State, a: Action) {
    match a
    case Lock(r) => r !in s.readers
    case Load(r) => r in s.readers && s.readers[r].Holding?
    case Swap => s.reloader.Idle? && forall r :: r in s.readers ==> !s.readers[r].Holding?
    case Bump => s.reloader.Swapped?
    case Notify => s.reloader.Bumped?
  }

  function Do(s: State, a: Action): State
    requires Can(s, a)
  {
    match a
    case Lock(r) => s.(readers := s.readers[r := Holding(s.generation)])
    case Load(r) => s.(readers := s.readers[r := Answered(s.readers[r].generation, s.version, |s.notices|)])
    case Swap => s.(generation := s.generation + 1, reloader := Swapped)
    case Bump => s.(version := s.version + 1, reloader := Bumped(s.version + 1))
    case Notify => s.(notices := s.notices + [s.reloader.version], reloader := Idle)
  }

  function Exec(s: State, actions: seq<Action>): Option<State> {
    if actions == [] then Some(s)
    else
      var t := Exec(s, actions[..|actions| - 1]);
      if t.Some? && Can(t.value, actions[|actions| - 1]) then Some(Do(t.value, actions[|actions| - 1])) else None
  }

  ghost predicate Reachable(s: State) {
    exists actions :: Exec(Init(), actions) == Some(s)
  }

  ghost predicate Inv(s: State) {
    && s.generation == s.version + (if s.reloader.Swapped? then 1 else 0)
    && (s.reloader.Bumped? ==> s.reloader.version == s.version)
    && |s.notices| + 1 == s.version - (if s.reloader.Bumped? then 1 else 0)
    && (forall k :: 0 <= k < |s.notices| ==> s.notices[k] == k + 2)
    && (forall r :: r in s.readers && s.readers[r].Holding? ==> s.readers[r].generation == s.generation)
    && (forall r :: r in s.readers && s.readers[r].Answered? ==> AnswerInv(s, s.readers[r]))
  }

  /** An answer is current or one behind, and when behind, the notice that corrects it is sent or owed. */
  ghost predicate AnswerInv(s: State, a: Reader)
    requires a.Answered?
  {
    && (a.version == a.generation || a.version + 1 == a.generation)
    && a.heard <= |s.notices|
    && (a.version + 1 == a.generation ==>
          && a.heard + 2 == a.generation
          && (a.heard == |s.notices| ==> s.generation == a.generation && !s.reloader.Idle?))
  }

  lemma InvStep(s: State, a: Action)
    requires Inv(s) && Can(s, a)
    ensures Inv(Do(s, a))
  {
  }

  lemma {:induction false} RunInv(s: State, actions: seq<Action>)
    requires Inv(s) && Exec(s, actions).Some?
    ensures Inv(Exec(s, actions).value)
    decreases |actions|
  {
    if actions != [] {
      RunInv(s, actions[..|actions| - 1]);
      InvStep(Exec(s, actions[..|actions| - 1]).value, actions[|actions| - 1]);
    }
  }

  /**
   In every interleaving of the reloader with any readers: the version a client is given never
   runs ahead of the contents it was listed, and lags by at most one; and if it lags, the very
   next notice after the answer carries the newer version, and until it is sent the reloader
   can do nothing but send it.
   */
  lemma VersionNeverRunsAhead(s: State, r: nat)
    requires Reachable(s) && r in s.readers && s.readers[r].Answered?
    ensures var a := s.readers[r];
            && a.version <= a.generation <= a.version + 1
            && (a.version < a.generation ==>
                  if |s.notices| > a.heard then s.notices[a.heard] == a.generation
                  else s.generation == a.generation && !Can(s, Swap))
  {
    var actions :| Exec(Init(), actions) == Some(s);
    RunInv(Init(), actions);
    assert AnswerInv(s, s.readers[r]);
  }

  /** The versions broadcast are 2, 3, 4, ... without gap or repetition. */
  lemma NoticesAreConsecutive(s: State, k: nat)
    requires Reachable(s) && k < |s.notices|
    ensures s.notices[k] == k + 2 <= s.version
  {
    var actions :| Exec(Init(), actions) == Some(s);
    RunInv(Init(), actions);
  }

  /** It does lag: a listing between the swap and the increment answers with the new contents and the old version. */
  lemma AnswerCanLag() returns (s: State)
    ensures Reachable(s) && 0 in s.readers && s.readers[0] == Answered(2, 1, 0) && s.notices == []
  {
    var actions := [Swap, Lock(0), Load(0)];
    assert actions[..2] == [Swap, Lock(0)] && actions[..2][..1] == [Swap] && actions[..2][..1][..0] == [];
    assert Exec(Init(), [Swap]) == Some(Do(Init(), Swap));
    assert Exec(Init(), [Swap, Lock(0)]) == Some(Do(Do(Init(), Swap), Lock(0)));
    s := Do(Do(Do(Init(), Swap), Lock(0)), Load(0));
    assert Exec(Init(), actions) == Some(s);
  }
}
