/**
 * Refresh-token rotation. A refresh reads its token and later, in a transaction, conditionally revokes it and
 * issues the successor; between the two any other request may run. The machine is at that grain.
 */
module Sessions {
  import opened Results

  type TokenId = nat
  type UserId = nat
  type RequestId = nat

  const REFRESH_TOKEN_TTL_MS: nat := 30 * 24 * 60 * 60 * 1000

  /** `chain` is the token of the login, `parent` the token this one replaced; both are history. */
  datatype Token = Token(user: UserId, expiresAt: nat, revoked: bool, chain: TokenId, parent: Option<TokenId>)

  /** A refresh between two of its statements. */
  datatype Phase = HasRead(token: TokenId, user: UserId) | MustRevoke(user: UserId)

  datatype Sessions = Sessions(tokens: map<TokenId, Token>, inFlight: map<RequestId, Phase>)

  datatype Step =
    | Login(user: UserId, issued: TokenId, now: nat)
    | Read(request: RequestId, token: TokenId, now: nat, userAllowed: bool)
    | Rotate(request: RequestId, issued: TokenId, now: nat)
    | RevokeAll(request: RequestId)                          // the answer to a reuse or a lost race
    | Logout(token: TokenId)
    | PasswordChanged(user: UserId)                          // change or reset: revokes every session
    | Abandon(request: RequestId)                            // the process dies

  function Revoked(tokens: map<TokenId, Token>, user: UserId): map<TokenId, Token> {
    map t | t in tokens :: if tokens[t].user == user then tokens[t].(revoked := true) else tokens[t]
  }

  function Rotated(tokens: map<TokenId, Token>, t: TokenId, issued: TokenId, now: nat): map<TokenId, Token>
    requires t in tokens
  {
    var old' := tokens[t];
    var successor := Token(old'.user, now + REFRESH_TOKEN_TTL_MS, false, old'.chain, Some(t));
    tokens[t := old'.(revoked := true)][issued := successor]
  }

  function Next(q: Sessions, s: Step): Sessions {
    match s
    case Login(user, issued, now) =>
      if issued in q.tokens then q
      else q.(tokens := q.tokens[issued := Token(user, now + REFRESH_TOKEN_TTL_MS, false, issued, None)])
    case Read(r, t, now, userAllowed) =>
      if r in q.inFlight || t !in q.tokens || q.tokens[t].expiresAt <= now || !userAllowed then q
      else if q.tokens[t].revoked then q.(inFlight := q.inFlight[r := MustRevoke(q.tokens[t].user)])
      else q.(inFlight := q.inFlight[r := HasRead(t, q.tokens[t].user)])
    case Rotate(r, issued, now) =>
      if r !in q.inFlight || !q.inFlight[r].HasRead? || issued in q.tokens then q
      else
        var t := q.inFlight[r].token;
        if t !in q.tokens || q.tokens[t].revoked then q.(inFlight := q.inFlight[r := MustRevoke(q.inFlight[r].user)])
        else Sessions(Rotated(q.tokens, t, issued, now), q.inFlight - {r})
    case RevokeAll(r) =>
      if r !in q.inFlight || !q.inFlight[r].MustRevoke? then q
      else Sessions(Revoked(q.tokens, q.inFlight[r].user), q.inFlight - {r})
    case Logout(t) => if t in q.tokens then q.(tokens := q.tokens[t := q.tokens[t].(revoked := true)]) else q
    case PasswordChanged(user) => q.(tokens := Revoked(q.tokens, user))
    case Abandon(r) => q.(inFlight := q.inFlight - {r})
  }

  function Run(q: Sessions, steps: seq<Step>): Sessions {
    if steps == [] then q else Next(Run(q, steps[..|steps| - 1]), steps[|steps| - 1])
  }

  // ---------------------------------------------------------------- chains

  /** The chain is the user's own, and a replaced token is revoked and in the chain of its successor. */
  ghost predicate TokenOk(tokens: map<TokenId, Token>, t: TokenId) {
    t in tokens
    && var k := tokens[t];
    k.chain in tokens && tokens[k.chain].user == k.user
    && (k.parent.Some? ==>
          k.parent.value in tokens
          && var p := tokens[k.parent.value]; p.revoked && p.chain == k.chain && p.user == k.user)
  }

  ghost predicate TokensOk(tokens: map<TokenId, Token>) {
    forall t {:trigger TokenOk(tokens, t)} :: t in tokens ==> TokenOk(tokens, t)
  }

  ghost predicate OneSuccessor(tokens: map<TokenId, Token>) {
    forall a, b :: a in tokens && b in tokens && a != b && tokens[a].parent.Some?
      ==> tokens[a].parent != tokens[b].parent
  }

  ghost predicate OneLivePerChain(tokens: map<TokenId, Token>) {
    forall a, b :: a in tokens && b in tokens && a != b && !tokens[a].revoked && !tokens[b].revoked
      ==> tokens[a].chain != tokens[b].chain
  }

  ghost predicate PhaseOk(tokens: map<TokenId, Token>, p: Phase) {
    p.HasRead? ==> p.token in tokens && tokens[p.token].user == p.user
  }

  ghost predicate InFlightOk(q: Sessions) {
    forall r :: r in q.inFlight ==> PhaseOk(q.tokens, q.inFlight[r])
  }

  ghost predicate Inv(q: Sessions) {
    TokensOk(q.tokens) && OneSuccessor(q.tokens) && OneLivePerChain(q.tokens) && InFlightOk(q)
  }

  /** Revoking tokens, and nothing else. */
  ghost predicate OnlyRevokes(m: map<TokenId, Token>, n: map<TokenId, Token>) {
    n.Keys == m.Keys && forall t :: t in m ==> n[t] == m[t] || n[t] == m[t].(revoked := true)
  }

  lemma RevokingKeepsTokens(m: map<TokenId, Token>, n: map<TokenId, Token>)
    requires TokensOk(m) && OneSuccessor(m) && OneLivePerChain(m) && OnlyRevokes(m, n)
    ensures TokensOk(n) && OneSuccessor(n) && OneLivePerChain(n)
  {
    SameLineage(m, n);
    forall t | t in n ensures TokenOk(n, t) { assert TokenOk(m, t) && Lineage(m[t], n[t]); }
    forall a, b | a in n && b in n && a != b && n[a].parent.Some? ensures n[a].parent != n[b].parent {
      assert Lineage(m[a], n[a]) && Lineage(m[b], n[b]);
    }
    forall a, b | a in n && b in n && a != b && !n[a].revoked && !n[b].revoked ensures n[a].chain != n[b].chain {
      assert Lineage(m[a], n[a]) && Lineage(m[b], n[b]);
    }
  }

  predicate Lineage(k: Token, k': Token) {
    k'.user == k.user && k'.chain == k.chain && k'.parent == k.parent && (k.revoked ==> k'.revoked)
  }

  lemma SameLineage(m: map<TokenId, Token>, n: map<TokenId, Token>)
    requires OnlyRevokes(m, n)
    ensures forall t {:trigger Lineage(m[t], n[t])} :: t in m ==> Lineage(m[t], n[t])
  {
  }

  /** A login's token starts its own chain; a successor continues the chain of a revoked token without successor. */
  ghost predicate Fits(m: map<TokenId, Token>, issued: TokenId, k: Token) {
    issued !in m && !k.revoked
    && if k.parent.None? then k.chain == issued
       else k.parent.value in m && m[k.parent.value].revoked && m[k.parent.value].chain == k.chain
            && m[k.parent.value].user == k.user
            && forall t :: t in m ==> m[t].parent != k.parent && (m[t].revoked || m[t].chain != k.chain)
  }

  lemma NewTokenKeepsTokens(m: map<TokenId, Token>, issued: TokenId, k: Token)
    requires TokensOk(m) && OneSuccessor(m) && OneLivePerChain(m) && Fits(m, issued, k)
    ensures var n := m[issued := k]; TokensOk(n) && OneSuccessor(n) && OneLivePerChain(n)
  {
    NewTokenKeepsLineage(m, issued, k);
    NewTokenIsTheLiveOne(m, issued, k);
  }

  lemma NewTokenKeepsLineage(m: map<TokenId, Token>, issued: TokenId, k: Token)
    requires TokensOk(m) && Fits(m, issued, k)
    ensures TokensOk(m[issued := k])
  {
    var n := m[issued := k];
    forall t | t in m ensures TokenOk(n, t) { assert TokenOk(m, t); }
    if k.parent.Some? { assert TokenOk(m, k.parent.value); }
    assert TokenOk(n, issued);
  }

  lemma NewTokenIsTheLiveOne(m: map<TokenId, Token>, issued: TokenId, k: Token)
    requires TokensOk(m) && OneSuccessor(m) && OneLivePerChain(m) && Fits(m, issued, k)
    ensures OneSuccessor(m[issued := k]) && OneLivePerChain(m[issued := k])
  {
    forall t | t in m ensures m[t].chain != issued { assert TokenOk(m, t); }
  }

  lemma RotationKeepsTokens(m: map<TokenId, Token>, t: TokenId, issued: TokenId, now: nat)
    requires TokensOk(m) && OneSuccessor(m) && OneLivePerChain(m)
    requires t in m && !m[t].revoked && issued !in m
    ensures var n := Rotated(m, t, issued, now); TokensOk(n) && OneSuccessor(n) && OneLivePerChain(n)
  {
    var revoked := m[t := m[t].(revoked := true)];
    RevokingKeepsTokens(m, revoked);
    forall x | x in revoked
      ensures revoked[x].parent != Some(t) && (revoked[x].revoked || revoked[x].chain != m[t].chain)
    {
      assert TokenOk(m, x); // t is live, so nothing has replaced it yet, and it is the live one of its chain
    }
    NewTokenKeepsTokens(revoked, issued, Token(m[t].user, now + REFRESH_TOKEN_TTL_MS, false, m[t].chain, Some(t)));
  }

  lemma StepKeepsTokens(q: Sessions, s: Step)
    requires Inv(q)
    ensures var n := Next(q, s).tokens; TokensOk(n) && OneSuccessor(n) && OneLivePerChain(n)
  {
    var n := Next(q, s).tokens;
    match s
    case Login(user, issued, now) =>
      if issued !in q.tokens {
        NewTokenKeepsTokens(q.tokens, issued, Token(user, now + REFRESH_TOKEN_TTL_MS, false, issued, None));
      }
    case Rotate(r, issued, now) =>
      if n != q.tokens { RotationKeepsTokens(q.tokens, q.inFlight[r].token, issued, now); }
    case _ => RevokingKeepsTokens(q.tokens, n);
  }

  lemma StepKeepsInFlight(q: Sessions, s: Step)
    requires InFlightOk(q)
    ensures InFlightOk(Next(q, s))
  {
    var n := Next(q, s);
    forall r | r in n.inFlight ensures PhaseOk(n.tokens, n.inFlight[r]) {
      if r in q.inFlight { assert PhaseOk(q.tokens, q.inFlight[r]); }
    }
  }

  lemma StepKeepsInv(q: Sessions, s: Step)
    requires Inv(q)
    ensures Inv(Next(q, s))
  {
    StepKeepsTokens(q, s);
    StepKeepsInFlight(q, s);
  }

  /** In every interleaving each token has at most one successor and each login's chain at most one live token. */
  lemma {:induction false} RotationIsLinear(q: Sessions, steps: seq<Step>)
    requires Inv(q)
    ensures Inv(Run(q, steps))
    ensures OneSuccessor(Run(q, steps).tokens) && OneLivePerChain(Run(q, steps).tokens)
  {
    if steps != [] {
      RotationIsLinear(q, steps[..|steps| - 1]);
      StepKeepsInv(Run(q, steps[..|steps| - 1]), steps[|steps| - 1]);
    }
  }

  // ---------------------------------------------------------------- what each step does

  /** A login opens a chain of its own for 30 days. */
  lemma LoginDoes(q: Sessions, user: UserId, issued: TokenId, now: nat)
    requires issued !in q.tokens
    ensures Next(q, Login(user, issued, now))
            == q.(tokens := q.tokens[issued := Token(user, now + 2_592_000_000, false, issued, None)])
  {
  }

  /** Presenting a token: refused when unknown, expired or barred, else held for rotation or as a reuse. */
  lemma ReadDoes(q: Sessions, r: RequestId, t: TokenId, now: nat, userAllowed: bool)
    requires r !in q.inFlight
    ensures var n := Next(q, Read(r, t, now, userAllowed));
            n.tokens == q.tokens
            && if t !in q.tokens || now >= q.tokens[t].expiresAt || !userAllowed then n.inFlight == q.inFlight
               else n.inFlight == q.inFlight[r := if q.tokens[t].revoked then MustRevoke(q.tokens[t].user)
                                                  else HasRead(t, q.tokens[t].user)]
  {
  }

  /** A rotation replaces a token that is still live, for another 30 days, and else turns to revoking. */
  lemma RotateDoes(q: Sessions, r: RequestId, issued: TokenId, now: nat)
    requires r in q.inFlight && q.inFlight[r].HasRead? && issued !in q.tokens && q.inFlight[r].token in q.tokens
    ensures var n, t := Next(q, Rotate(r, issued, now)), q.inFlight[r].token;
            if q.tokens[t].revoked then n == q.(inFlight := q.inFlight[r := MustRevoke(q.inFlight[r].user)])
            else
              var k := q.tokens[t];
              n.inFlight == q.inFlight - {r} && n.tokens.Keys == q.tokens.Keys + {issued}
              && n.tokens[issued] == Token(k.user, now + 2_592_000_000, false, k.chain, Some(t))
              && n.tokens[t] == k.(revoked := true)
              && forall x :: x in q.tokens && x != t ==> n.tokens[x] == q.tokens[x]
  {
  }

  /** The presented token is revoked, and no other. */
  lemma LogoutDoes(q: Sessions, t: TokenId)
    ensures var n := Next(q, Logout(t));
            n.inFlight == q.inFlight && n.tokens.Keys == q.tokens.Keys
            && forall x :: x in q.tokens ==>
                 n.tokens[x] == if x == t then q.tokens[x].(revoked := true) else q.tokens[x]
  {
  }

  /** Every token of the user is revoked, and nobody else's. */
  lemma RevokeAllDoes(q: Sessions, s: Step, user: UserId)
    requires RevokesAll(q, s, user)
    ensures var n := Next(q, s);
            n.tokens.Keys == q.tokens.Keys
            && forall x :: x in q.tokens ==>
                 n.tokens[x] == if q.tokens[x].user == user then q.tokens[x].(revoked := true) else q.tokens[x]
    ensures Next(q, s).inFlight == if s.RevokeAll? then q.inFlight - {s.request} else q.inFlight
  {
  }

  /** A token that was signed out is never accepted again: no refresh can hold it, and none that holds it rotates it. */
  lemma SignedOutTokenIsDead(q: Sessions, t: TokenId, steps: seq<Step>, r: RequestId, issued: TokenId, now: nat,
                             userAllowed: bool)
    requires t in q.tokens
    ensures var later := Run(Next(q, Logout(t)), steps);
            t in later.tokens && later.tokens[t].revoked
            && (r !in later.inFlight ==>
                  var read := Next(later, Read(r, t, now, userAllowed));
                  read.tokens == later.tokens && (r in read.inFlight ==> !read.inFlight[r].HasRead?))
            && (r in later.inFlight && later.inFlight[r].HasRead? && later.inFlight[r].token == t ==>
                  Next(later, Rotate(r, issued, now)).tokens == later.tokens)
  {
    RevocationIsPermanent(Next(q, Logout(t)), steps, t);
  }

  // ---------------------------------------------------------------- revocation

  lemma StepKeepsRevoked(q: Sessions, s: Step, t: TokenId)
    requires t in q.tokens && q.tokens[t].revoked
    ensures t in Next(q, s).tokens && Next(q, s).tokens[t] == q.tokens[t]
    ensures forall f :: f in Next(q, s).tokens && Next(q, s).tokens[f].parent == Some(t) ==>
              f in q.tokens && q.tokens[f].parent == Some(t)
  {
  }

  /** Revocation is permanent, and a revoked token never gets a successor. */
  lemma {:induction false} RevocationIsPermanent(q: Sessions, steps: seq<Step>, t: TokenId)
    requires t in q.tokens && q.tokens[t].revoked
    ensures t in Run(q, steps).tokens && Run(q, steps).tokens[t].revoked
    ensures forall f :: f in Run(q, steps).tokens && Run(q, steps).tokens[f].parent == Some(t) ==>
              f in q.tokens && q.tokens[f].parent == Some(t)
  {
    if steps != [] {
      RevocationIsPermanent(q, steps[..|steps| - 1], t);
      StepKeepsRevoked(Run(q, steps[..|steps| - 1]), steps[|steps| - 1], t);
    }
  }

  /**
   * A refresh whose token is revoked after it read it never succeeds: whatever runs in between, its conditional
   * update matches no row, no token is issued, and it goes on to revoke every session of the user.
   */
  lemma RevokedReadNeverRotates(q: Sessions, r: RequestId, steps: seq<Step>, issued: TokenId, now: nat)
    requires r in q.inFlight && q.inFlight[r].HasRead?
    requires q.inFlight[r].token in q.tokens && q.tokens[q.inFlight[r].token].revoked
    ensures var user, later := q.inFlight[r].user, Run(q, steps);
            r in later.inFlight && later.inFlight[r] == q.inFlight[r] && issued !in later.tokens ==>
              Next(later, Rotate(r, issued, now)) == later.(inFlight := later.inFlight[r := MustRevoke(user)])
  {
    RevocationIsPermanent(q, steps, q.inFlight[r].token);
  }

  /** The step revokes every session of the user: a new password, or the answer to a reuse or a lost race. */
  predicate RevokesAll(q: Sessions, s: Step, user: UserId) {
    s == PasswordChanged(user)
    || (s.RevokeAll? && s.request in q.inFlight && q.inFlight[s.request] == MustRevoke(user))
  }

  /** So a refresh that read its token before all sessions of its user were revoked never succeeds afterwards. */
  lemma ReadBeforeRevokeAllNeverRotates(q: Sessions, r: RequestId, s: Step, steps: seq<Step>, issued: TokenId, now: nat)
    requires Inv(q) && r in q.inFlight && q.inFlight[r].HasRead? && RevokesAll(q, s, q.inFlight[r].user)
    ensures var user, later := q.inFlight[r].user, Run(Next(q, s), steps);
            r in later.inFlight && later.inFlight[r] == q.inFlight[r] && issued !in later.tokens ==>
              Next(later, Rotate(r, issued, now)) == later.(inFlight := later.inFlight[r := MustRevoke(user)])
  {
    assert PhaseOk(q.tokens, q.inFlight[r]);
    RevokedReadNeverRotates(Next(q, s), r, steps, issued, now);
  }

  ghost predicate SignedOut(q: Sessions, user: UserId) {
    forall t :: t in q.tokens && q.tokens[t].user == user ==> q.tokens[t].revoked
  }

  lemma StepKeepsSignedOut(q: Sessions, s: Step, user: UserId)
    requires SignedOut(q, user) && !(s.Login? && s.user == user)
    ensures SignedOut(Next(q, s), user)
  {
  }

  /** Once every session of a user is revoked, only a new login opens one: no refresh in flight can. */
  lemma {:induction false} OnlyLoginSignsIn(q: Sessions, steps: seq<Step>, user: UserId)
    requires SignedOut(q, user)
    requires forall i :: 0 <= i < |steps| ==> !(steps[i].Login? && steps[i].user == user)
    ensures SignedOut(Run(q, steps), user)
  {
    if steps != [] {
      OnlyLoginSignsIn(q, steps[..|steps| - 1], user);
      StepKeepsSignedOut(Run(q, steps[..|steps| - 1]), steps[|steps| - 1], user);
    }
  }

  /**
   * Reuse detection: presenting a token that was already replaced or revoked, unexpired and for a user in good
   * standing, ends every session of that user once the request runs its next statement.
   */
  lemma ReuseEndsAllSessions(q: Sessions, r: RequestId, t: TokenId, now: nat)
    requires r !in q.inFlight && t in q.tokens && q.tokens[t].revoked && now < q.tokens[t].expiresAt
    ensures var read := Next(q, Read(r, t, now, true));
            read.tokens == q.tokens && SignedOut(Next(read, RevokeAll(r)), q.tokens[t].user)
  {
  }

  /** An undisturbed refresh replaces the live token of its chain by the issued one. */
  lemma RefreshHandsOver(q: Sessions, r: RequestId, t: TokenId, issued: TokenId, now: nat)
    requires Inv(q) && r !in q.inFlight && t in q.tokens && !q.tokens[t].revoked && now < q.tokens[t].expiresAt
    requires issued !in q.tokens
    ensures var n := Next(Next(q, Read(r, t, now, true)), Rotate(r, issued, now));
            n.inFlight == q.inFlight && n.tokens[t].revoked && n.tokens[issued].parent == Some(t)
            && forall x :: x in n.tokens && !n.tokens[x].revoked && n.tokens[x].chain == q.tokens[t].chain
                <==> x == issued
  {
    var n := Next(Next(q, Read(r, t, now, true)), Rotate(r, issued, now));
    assert n.tokens == Rotated(q.tokens, t, issued, now);
    assert OneLivePerChain(n.tokens) by { RotationKeepsTokens(q.tokens, t, issued, now); }
    assert n.inFlight == q.inFlight;
    assert issued in n.tokens && !n.tokens[issued].revoked && n.tokens[issued].chain == q.tokens[t].chain;
  }

  // ---------------------------------------------------------------- the service

  datatype RefreshResult = Issued(token: TokenId) | Unauthorized | Barred

  class SessionStore {
    var tokens: map<TokenId, Token>

    /** The table while no refresh is in flight. */
    ghost function View(): Sessions
      reads this
    {
      Sessions(tokens, map[])
    }

    constructor ()
      ensures View() == Sessions(map[], map[]) && Inv(View())
    {
      tokens := map[];
    }

    /** `issued` is random, hence new; `parent` is the token being rotated, None for a login. */
    method IssueTokenPair(user: UserId, issued: TokenId, now: nat, parent: Option<TokenId>)
      requires issued !in tokens && (parent.Some? ==> parent.value in tokens)
      modifies this
      ensures tokens == old(tokens)[issued := Token(user, now + REFRESH_TOKEN_TTL_MS, false,
                                                    if parent.Some? then old(tokens)[parent.value].chain else issued,
                                                    parent)]
    {
      var chain := if parent.Some? then tokens[parent.value].chain else issued;
      tokens := tokens[issued := Token(user, now + REFRESH_TOKEN_TTL_MS, false, chain, parent)];
    }

    method RevokeAllUserSessions(user: UserId)
      requires Inv(View())
      modifies this
      ensures View() == Next(old(View()), PasswordChanged(user)) && SignedOut(View(), user) && Inv(View())
    {
      StepKeepsInv(View(), PasswordChanged(user));
      var todo := set t | t in tokens && tokens[t].user == user;
      ghost var all := todo;
      while todo != {}
        invariant todo <= all && tokens.Keys == old(tokens).Keys
        invariant forall t :: t in tokens ==>
                    tokens[t] == if t in all - todo then old(tokens)[t].(revoked := true) else old(tokens)[t]
      {
        var t :| t in todo;
        tokens := tokens[t := tokens[t].(revoked := true)];
        todo := todo - {t};
      }
      assert tokens == Revoked(old(tokens), user);
    }

    method SignIn(user: UserId, issued: TokenId, now: nat)
      requires Inv(View()) && issued !in tokens
      modifies this
      ensures View() == Next(old(View()), Login(user, issued, now)) && Inv(View())
    {
      StepKeepsInv(View(), Login(user, issued, now));
      IssueTokenPair(user, issued, now, None);
    }

    method SignOut(t: TokenId)
      requires Inv(View())
      modifies this
      ensures View() == Next(old(View()), Logout(t)) && Inv(View())
      ensures tokens == if t in old(tokens) then old(tokens)[t := old(tokens)[t].(revoked := true)] else old(tokens)
    {
      StepKeepsInv(View(), Logout(t));
      if t in tokens && !tokens[t].revoked {
        tokens := tokens[t := tokens[t].(revoked := true)];
      }
    }

    /** The rotation transaction: a conditional revocation, then the successor. */
    method RotateInTransaction(t: TokenId, issued: TokenId, now: nat) returns (ok: bool)
      requires t in tokens && issued !in tokens
      modifies this
      ensures ok <==> !old(tokens)[t].revoked
      ensures tokens == if ok then Rotated(old(tokens), t, issued, now) else old(tokens)
    {
      if tokens[t].revoked { return false; }
      tokens := tokens[t := tokens[t].(revoked := true)];
      IssueTokenPair(tokens[t].user, issued, now, Some(t));
      return true;
    }

    /** A refresh that is not interrupted takes the steps of one request of the machine. */
    method Refresh(t: TokenId, issued: TokenId, now: nat, userAllowed: bool) returns (result: RefreshResult)
      requires Inv(View()) && issued !in tokens
      modifies this
      ensures Inv(View())
      ensures View() == Run(old(View()), [Read(0, t, now, userAllowed), Rotate(0, issued, now), RevokeAll(0)])
      ensures result == if t !in old(tokens) || now >= old(tokens)[t].expiresAt then Unauthorized
                        else if !userAllowed then Barred
                        else if old(tokens)[t].revoked then Unauthorized
                        else Issued(issued)
    {
      ghost var q := View();
      ghost var steps := [Read(0, t, now, userAllowed), Rotate(0, issued, now), RevokeAll(0)];
      RotationIsLinear(q, steps);
      RunThree(q, steps[0], steps[1], steps[2]);
      if t !in tokens || tokens[t].expiresAt <= now { return Unauthorized; }
      if !userAllowed { return Barred; }
      if tokens[t].revoked {
        RevokeAllUserSessions(tokens[t].user);
        return Unauthorized;
      }
      var rotated := RotateInTransaction(t, issued, now);
      return Issued(issued);
    }
  }

  lemma RunThree(q: Sessions, a: Step, b: Step, c: Step)
    ensures Run(q, [a, b, c]) == Next(Next(Next(q, a), b), c)
  {
    assert [a, b, c][..2] == [a, b] && [a, b][..1] == [a] && [a][..0] == [];
    assert Run(q, []) == q && Run(q, [a]) == Next(q, a) && Run(q, [a, b]) == Next(Next(q, a), b);
  }
}
