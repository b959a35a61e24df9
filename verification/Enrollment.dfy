/** One-time enrolment tokens: issued with a deadline, consumed at most once, forgotten once expired. */
module Enrollment {
  import opened Basics

  datatype Token = Token(expiresAt: int, used: bool)

  type Tokens = map<string, Token>

  datatype Error = Invalid | AlreadyUsed | Expired

  predicate IsExpired(t: Token, now: int) {
    now > t.expiresAt
  }

  /** The table after a new token is issued at `created` and the table is swept at `swept`. */
  function Issue(m: Tokens, token: string, ttl: nat, created: int, swept: int): Tokens {
    var issued := m[token := Token(created + ttl, false)];
    map k | k in issued && !IsExpired(issued[k], swept) :: issued[k]
  }

  /** The table after an attempt to use a token, and the answer. */
  function Consume(m: Tokens, token: string, now: int): (Tokens, Result<(), Error>) {
    if token !in m then (m, Err(Invalid))
    else if m[token].used then (m, Err(AlreadyUsed))
    else if IsExpired(m[token], now) then (m - {token}, Err(Expired))
    else (m[token := m[token].(used := true)], Ok(()))
  }

  // ---------------------------------------------------------------------------
  // Whole runs
  // ---------------------------------------------------------------------------

  datatype Call =
    | Generate(token: string, created: int, swept: int)
    | Validate(token: string, now: int)

  /** The table after the first `n` calls. */
  function Table(ttl: nat, calls: seq<Call>, n: nat): Tokens
    requires n <= |calls|
  {
    if n == 0 then map[]
    else
      match calls[n - 1]
      case Generate(t, created, swept) => Issue(Table(ttl, calls, n - 1), t, ttl, created, swept)
      case Validate(t, now) => Consume(Table(ttl, calls, n - 1), t, now).0
  }

  predicate Accepted(ttl: nat, calls: seq<Call>, i: nat)
    requires i < |calls|
  {
    calls[i].Validate? && Consume(Table(ttl, calls, i), calls[i].token, calls[i].now).1.Ok?
  }

  /** No token string is issued twice. */
  ghost predicate FreshTokens(calls: seq<Call>) {
    forall i, j :: 0 <= i < j < |calls| && calls[i].Generate? && calls[j].Generate? ==> calls[i].token != calls[j].token
  }

  function Start(c: Call): int {
    if c.Generate? then c.created else c.now
  }

  function End(c: Call): int {
    if c.Generate? then c.swept else c.now
  }

  /** The clock never runs backwards. */
  ghost predicate Monotone(calls: seq<Call>) {
    && (forall i :: 0 <= i < |calls| ==> Start(calls[i]) <= End(calls[i]))
    && (forall i, j :: 0 <= i < j < |calls| ==> End(calls[i]) <= Start(calls[j]))
  }

  ghost predicate IssuedAt(calls: seq<Call>, j: nat, token: string) {
    j < |calls| && calls[j].Generate? && calls[j].token == token
  }

  ghost predicate Spent(ttl: nat, calls: seq<Call>, n: nat, token: string)
    requires n <= |calls|
  {
    exists k :: 0 <= k < n && Accepted(ttl, calls, k) && calls[k].token == token
  }

  lemma {:induction false} NeverIssued(ttl: nat, calls: seq<Call>, n: nat, token: string)
    requires n <= |calls| && forall j :: 0 <= j < n ==> !IssuedAt(calls, j, token)
    ensures token !in Table(ttl, calls, n)
  {
    if n > 0 {
      NeverIssued(ttl, calls, n - 1, token);
      assert !IssuedAt(calls, n - 1, token);
    }
  }

  /** A token that is in the table carries its deadline, and is marked exactly when it was accepted. */
  lemma {:induction false} Held(ttl: nat, calls: seq<Call>, n: nat, j: nat, token: string)
    requires FreshTokens(calls) && j < n <= |calls| && IssuedAt(calls, j, token)
    ensures var m := Table(ttl, calls, n);
            token in m ==> m[token].expiresAt == calls[j].created + ttl && (m[token].used <==> Spent(ttl, calls, n, token))
  {
    if n == j + 1 {
      forall k | 0 <= k < n && Accepted(ttl, calls, k) ensures calls[k].token != token {
        NeverIssued(ttl, calls, k, token);
      }
    } else {
      Held(ttl, calls, n - 1, j, token);
      assert calls[n - 1].Generate? ==> calls[n - 1].token != token;
      assert Spent(ttl, calls, n, token) <==>
             Spent(ttl, calls, n - 1, token) || (Accepted(ttl, calls, n - 1) && calls[n - 1].token == token);
    }
  }

  /** A token leaves the table only after its deadline. */
  lemma {:induction false} GoneMeansLate(ttl: nat, calls: seq<Call>, n: nat, j: nat, token: string)
    requires FreshTokens(calls) && Monotone(calls) && j < n <= |calls| && IssuedAt(calls, j, token)
    ensures token !in Table(ttl, calls, n) ==> calls[j].created + ttl < End(calls[n - 1])
  {
    if n > j + 1 {
      Held(ttl, calls, n - 1, j, token);
      GoneMeansLate(ttl, calls, n - 1, j, token);
    }
  }

  /** Whatever the clock does, a token is accepted at most once. */
  lemma AcceptedAtMostOnce(ttl: nat, calls: seq<Call>, i: nat, k: nat)
    requires FreshTokens(calls) && i < |calls| && k < |calls|
    requires Accepted(ttl, calls, i) && Accepted(ttl, calls, k) && calls[i].token == calls[k].token
    ensures i == k
  {
    if i < k {
      NotAcceptedAgain(ttl, calls, i, k);
    } else if k < i {
      NotAcceptedAgain(ttl, calls, k, i);
    }
  }

  lemma NotAcceptedAgain(ttl: nat, calls: seq<Call>, i: nat, k: nat)
    requires FreshTokens(calls) && i < k < |calls|
    requires Accepted(ttl, calls, i) && calls[k].token == calls[i].token
    ensures !Accepted(ttl, calls, k)
  {
    var token := calls[i].token;
    if forall j :: 0 <= j < i ==> !IssuedAt(calls, j, token) {
      NeverIssued(ttl, calls, i, token);
      assert false;
    }
    var j: nat :| j < i && IssuedAt(calls, j, token);
    Held(ttl, calls, k, j, token);
    assert Spent(ttl, calls, k, token);
  }

  /**
   With a clock that never runs backwards, a call is accepted exactly when its token was issued
   before, the deadline has not passed, and no earlier call was accepted for it.
   */
  lemma AcceptedIff(ttl: nat, calls: seq<Call>, i: nat)
    requires FreshTokens(calls) && Monotone(calls) && i < |calls| && calls[i].Validate?
    ensures Accepted(ttl, calls, i) <==>
            && (exists j :: 0 <= j < i && IssuedAt(calls, j, calls[i].token) && calls[i].now <= calls[j].created + ttl)
            && (forall k :: 0 <= k < i && Accepted(ttl, calls, k) ==> calls[k].token != calls[i].token)
  {
    var token := calls[i].token;
    if j: nat :| j < i && IssuedAt(calls, j, token) {
      Held(ttl, calls, i, j, token);
      GoneMeansLate(ttl, calls, i, j, token);
      assert End(calls[i - 1]) <= Start(calls[i]);
    } else {
      NeverIssued(ttl, calls, i, token);
    }
  }

  // ---------------------------------------------------------------------------
  // The manager object
  // ---------------------------------------------------------------------------

  lemma {:induction false} TablePrefix(ttl: nat, calls: seq<Call>, c: Call, n: nat)
    requires n <= |calls|
    ensures Table(ttl, calls + [c], n) == Table(ttl, calls, n)
  {
    if n > 0 {
      TablePrefix(ttl, calls, c, n - 1);
    }
  }

  lemma SpentPrefix(ttl: nat, calls: seq<Call>, c: Call, token: string)
    ensures Spent(ttl, calls + [c], |calls|, token) <==> Spent(ttl, calls, |calls|, token)
  {
    forall k | 0 <= k < |calls| ensures Accepted(ttl, calls + [c], k) == Accepted(ttl, calls, k) {
      TablePrefix(ttl, calls, c, k);
    }
  }

  /** The deadline and the mark of a token in the table, in terms of the calls made so far. */
  lemma HeldNow(ttl: nat, calls: seq<Call>, token: string)
    requires FreshTokens(calls) && token in Table(ttl, calls, |calls|)
    ensures var m := Table(ttl, calls, |calls|);
            && m[token].used == Spent(ttl, calls, |calls|, token)
            && exists j: nat :: IssuedAt(calls, j, token) && m[token].expiresAt == calls[j].created + ttl
  {
    if forall j :: 0 <= j < |calls| ==> !IssuedAt(calls, j, token) {
      NeverIssued(ttl, calls, |calls|, token);
      assert false;
    }
    var j: nat :| j < |calls| && IssuedAt(calls, j, token);
    Held(ttl, calls, |calls|, j, token);
  }

  lemma AcceptedNext(ttl: nat, before: seq<Call>, token: string, now: int)
    requires FreshTokens(before + [Validate(token, now)]) && Monotone(before + [Validate(token, now)])
    ensures Accepted(ttl, before + [Validate(token, now)], |before|) <==>
            && (exists j: nat :: IssuedAt(before, j, token) && now <= before[j].created + ttl)
            && !Spent(ttl, before, |before|, token)
  {
    var all := before + [Validate(token, now)];
    AcceptedIff(ttl, all, |before|);
    SpentPrefix(ttl, before, Validate(token, now), token);
    forall j: nat | j < |before| ensures IssuedAt(all, j, token) == IssuedAt(before, j, token) && all[j] == before[j] {
    }
  }

  /** The manager object; token strings and clock readings come from the caller. */
  class EnrollmentTokenManager {
    var tokens: Tokens
    const ttl: nat
    ghost var calls: seq<Call>

    ghost predicate Valid()
      reads this
    {
      tokens == Table(ttl, calls, |calls|)
    }

    constructor (ttl: nat)
      ensures Valid() && tokens == map[] && calls == [] && this.ttl == ttl
    {
      tokens, calls := map[], [];
      this.ttl := ttl;
    }

    /** A new token, usable unless the sweep already finds it expired; the sweep takes the expired ones and no other. */
    method GenerateToken(token: string, created: int, swept: int)
      requires Valid()
      modifies this
      ensures Valid() && calls == old(calls) + [Generate(token, created, swept)]
      ensures token in tokens <==> swept <= created + ttl
      ensures token in tokens ==> !tokens[token].used && tokens[token].expiresAt == created + ttl
      ensures forall k :: k != token ==> (k in tokens <==> k in old(tokens) && swept <= old(tokens)[k].expiresAt)
      ensures forall k :: k != token && k in tokens ==> tokens[k] == old(tokens)[k]
    {
      TablePrefix(ttl, calls, Generate(token, created, swept), |calls|);
      tokens := tokens[token := Token(created + ttl, false)];
      tokens := map k | k in tokens && !IsExpired(tokens[k], swept) :: tokens[k];
      calls := calls + [Generate(token, created, swept)];
    }

    /**
     Provided that token strings are never reused: a token is accepted at most once, each refusal
     tells the truth about the calls made before, and with a clock that never runs backwards a
     token is accepted exactly when it was issued, is within its lifetime and was not accepted before.
     */
    method ValidateAndConsume(token: string, now: int) returns (r: Result<(), Error>)
      requires Valid()
      modifies this
      ensures Valid() && calls == old(calls) + [Validate(token, now)]
      ensures r.Ok? <==> Accepted(ttl, calls, |calls| - 1)
      ensures r == Err(Invalid) <==> token !in old(tokens)
      ensures token in old(tokens) ==>
                && (r == Err(AlreadyUsed) <==> old(tokens)[token].used)
                && (r == Err(Expired) <==> !old(tokens)[token].used && now > old(tokens)[token].expiresAt)
      ensures tokens == match r
                        case Ok(_) => old(tokens)[token := Token(old(tokens)[token].expiresAt, true)]
                        case Err(Expired) => old(tokens) - {token}
                        case Err(_) => old(tokens)
      ensures FreshTokens(calls) && r.Ok? ==> !Spent(ttl, old(calls), |old(calls)|, token)
      ensures FreshTokens(calls) && r == Err(AlreadyUsed) ==> Spent(ttl, old(calls), |old(calls)|, token)
      ensures FreshTokens(calls) && r == Err(Expired) ==>
                exists j: nat :: IssuedAt(old(calls), j, token) && now > old(calls)[j].created + ttl
      ensures FreshTokens(calls) && Monotone(calls) ==>
                (r.Ok? <==>
                 && (exists j: nat :: IssuedAt(old(calls), j, token) && now <= old(calls)[j].created + ttl)
                 && !Spent(ttl, old(calls), |old(calls)|, token))
    {
      ghost var before, call := calls, Validate(token, now);
      Explain(before, token, now);
      TablePrefix(ttl, before, call, |before|);
      calls := calls + [call];
      if token !in tokens {
        return Err(Invalid);
      }
      if tokens[token].used {
        return Err(AlreadyUsed);
      }
      if IsExpired(tokens[token], now) {
        tokens := tokens - {token};
        return Err(Expired);
      }
      tokens := tokens[token := tokens[token].(used := true)];
      return Ok(());
    }

    lemma Explain(before: seq<Call>, token: string, now: int)
      ensures var m, all := Table(ttl, before, |before|), before + [Validate(token, now)];
              FreshTokens(all) ==>
                && (token in m ==>
                      && m[token].used == Spent(ttl, before, |before|, token)
                      && exists j: nat :: IssuedAt(before, j, token) && m[token].expiresAt == before[j].created + ttl)
                && (Monotone(all) ==>
                      (Accepted(ttl, all, |before|) <==>
                       && (exists j: nat :: IssuedAt(before, j, token) && now <= before[j].created + ttl)
                       && !Spent(ttl, before, |before|, token)))
    {
      var call := Validate(token, now);
      var all := before + [call];
      if FreshTokens(all) {
        assert forall j :: 0 <= j < |before| ==> all[j] == before[j];
        assert FreshTokens(before);
        if token in Table(ttl, before, |before|) {
          HeldNow(ttl, before, token);
        }
        if Monotone(all) {
          AcceptedNext(ttl, before, token, now);
        }
      }
    }
  }
}
