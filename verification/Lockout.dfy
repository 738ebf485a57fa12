/**
 * The sign-in row of an account: the lockout counter shared by the password and the second factor, and the codes
 * that were used up. Five wrong attempts lock the account for 15 minutes. An accepted password clears the counter
 * even when a second factor is still due, so wrong attempts are bounded per lockout period and accepted password,
 * and by the periods alone only where an accepted password signs in.
 */
module Lockout {
  import opened Results

  const THRESHOLD: nat := 5
  const LOCKOUT_MS: nat := 15 * 60 * 1000
  const TIME_STEP_MS: nat := 30 * 1000
  const TOKEN_TTL_S: nat := 5 * 60

  type RecoveryCode = nat

  /** Names a second-factor token by the second it expires. */
  type Token = nat

  /** The columns of the user row, the recovery codes not used yet, and the tokens handed out, which nothing stores. */
  datatype Account = Account(
    twoFactorOn: bool, failed: nat, lockedUntil: Option<nat>, lastUsedStep: Option<int>,
    recoveryCodes: set<RecoveryCode>, tokens: set<Token>)

  /** The time step the code belongs to, as its distance from the current one, and the recovery code it spells. */
  datatype Code = Code(drift: Option<int>, recovery: Option<RecoveryCode>)

  datatype Attempt = Password(at: nat, isCorrect: bool) | SecondFactor(at: nat, token: Token, code: Code)

  datatype Verdict = NoToken | Locked | Wrong | SecondFactorDue | SignedIn

  // ---------------------------------------------------------------- one attempt

  predicate IsLocked(a: Account, now: nat) {
    a.lockedUntil.Some? && a.lockedUntil.value > now
  }

  function AfterWrong(a: Account, now: nat): Account {
    if a.failed + 1 >= THRESHOLD then a.(failed := 0, lockedUntil := Some(now + LOCKOUT_MS))
    else a.(failed := a.failed + 1)
  }

  function Cleared(a: Account): Account {
    a.(failed := 0, lockedUntil := None)
  }

  function TimeStep(now: nat, drift: int): int {
    now / TIME_STEP_MS + drift
  }

  /** The time step a code signs in with: one later than any used before. */
  predicate StepIsFresh(a: Account, now: nat, c: Code) {
    c.drift.Some? && (a.lastUsedStep.Some? ==> TimeStep(now, c.drift.value) > a.lastUsedStep.value)
  }

  predicate IsRecoveryCode(a: Account, c: Code) {
    c.recovery.Some? && c.recovery.value in a.recoveryCodes
  }

  /** The token an accepted password hands out. */
  function TokenOf(now: nat): Token {
    now / 1000 + TOKEN_TTL_S
  }

  /** The token was handed out for this account and has not expired. */
  predicate TokenIsValid(a: Account, now: nat, token: Token) {
    token in a.tokens && now / 1000 < token
  }

  /** A second factor is only looked at with a valid token, and nothing at all while the account is locked. */
  function Verify(a: Account, t: Attempt): Verdict {
    if t.SecondFactor? && !TokenIsValid(a, t.at, t.token) then NoToken
    else if IsLocked(a, t.at) then Locked
    else
      match t
      case Password(now, isCorrect) => if !isCorrect then Wrong else if a.twoFactorOn then SecondFactorDue else SignedIn
      case SecondFactor(now, _, c) => if StepIsFresh(a, now, c) || IsRecoveryCode(a, c) then SignedIn else Wrong
  }

  function Next(a: Account, t: Attempt): Account {
    match Verify(a, t)
    case NoToken => a
    case Locked => a
    case Wrong => AfterWrong(a, t.at)
    case SecondFactorDue => Cleared(a).(tokens := a.tokens + {TokenOf(t.at)})
    case SignedIn =>
      if t.Password? then Cleared(a)
      else if StepIsFresh(a, t.at, t.code) then Cleared(a).(lastUsedStep := Some(TimeStep(t.at, t.code.drift.value)))
      else Cleared(a).(recoveryCodes := a.recoveryCodes - {t.code.recovery.value})
  }

  class SignIn {
    var twoFactorOn: bool
    var failedLoginAttempts: nat
    var lockedUntil: Option<nat>
    var twoFactorLastUsedStep: Option<int>
    var recoveryCodes: set<RecoveryCode>
    ghost var tokens: set<Token>

    ghost function Row(): Account
      reads this
    {
      Account(twoFactorOn, failedLoginAttempts, lockedUntil, twoFactorLastUsedStep, recoveryCodes, tokens)
    }

    constructor (twoFactorOn: bool, recoveryCodes: set<RecoveryCode>)
      ensures Row() == Account(twoFactorOn, 0, None, None, recoveryCodes, {})
    {
      this.twoFactorOn, this.recoveryCodes, tokens := twoFactorOn, recoveryCodes, {};
      failedLoginAttempts, lockedUntil, twoFactorLastUsedStep := 0, None, None;
    }

    /** A correct password clears the row, when there is something to clear, before the second factor is asked for. */
    method Login(now: nat, passwordIsValid: bool) returns (v: Verdict)
      modifies this
      ensures Row() == Next(old(Row()), Password(now, passwordIsValid))
      ensures v == Verify(old(Row()), Password(now, passwordIsValid))
    {
      if lockedUntil.Some? && lockedUntil.value > now { return Locked; }
      if !passwordIsValid {
        RecordFailure(now);
        return Wrong;
      }
      if failedLoginAttempts > 0 || lockedUntil.Some? {
        failedLoginAttempts, lockedUntil := 0, None;
      }
      if twoFactorOn {
        tokens := tokens + {TokenOf(now)};
        return SecondFactorDue;
      }
      return SignedIn;
    }

    /**
     * The second factor: a time-based code of a step not used before, or else an unused recovery code. The token's
     * signature tells whether it was handed out.
     */
    method VerifyTwoFactorLogin(now: nat, token: Token, isGenuine: bool, code: Code) returns (v: Verdict)
      requires isGenuine <==> token in tokens
      modifies this
      ensures Row() == Next(old(Row()), SecondFactor(now, token, code))
      ensures v == Verify(old(Row()), SecondFactor(now, token, code))
    {
      if !isGenuine || now / 1000 >= token { return NoToken; }
      if lockedUntil.Some? && lockedUntil.value > now { return Locked; }
      var authenticated, usedTimeStep, matchedRecoveryCode := false, None, None;
      if code.drift.Some? {
        var timeStep := now / TIME_STEP_MS + code.drift.value;
        if twoFactorLastUsedStep.None? || timeStep > twoFactorLastUsedStep.value {
          authenticated, usedTimeStep := true, Some(timeStep);
        }
      }
      if !authenticated && code.recovery.Some? && code.recovery.value in recoveryCodes {
        authenticated, matchedRecoveryCode := true, code.recovery;
      }
      if !authenticated {
        RecordFailure(now);
        return Wrong;
      }
      if usedTimeStep.Some? { twoFactorLastUsedStep := usedTimeStep; }
      failedLoginAttempts, lockedUntil := 0, None;
      if matchedRecoveryCode.Some? { recoveryCodes := recoveryCodes - {matchedRecoveryCode.value}; }
      return SignedIn;
    }

    method RecordFailure(now: nat)
      modifies this`failedLoginAttempts, this`lockedUntil
      ensures Row() == AfterWrong(old(Row()), now)
    {
      var attempts := failedLoginAttempts + 1;
      if attempts >= THRESHOLD {
        failedLoginAttempts, lockedUntil := 0, Some(now + LOCKOUT_MS);
      } else {
        failedLoginAttempts := attempts;
      }
    }
  }

  // ---------------------------------------------------------------- what an attempt does

  /** Locked means before the lock ends; until then nothing changes. */
  lemma LockedDoes(a: Account, t: Attempt)
    requires t.Password? || TokenIsValid(a, t.at, t.token)
    ensures Verify(a, t) == Locked <==> a.lockedUntil.Some? && t.at < a.lockedUntil.value
    ensures Verify(a, t) == Locked ==> Next(a, t) == a
  {
  }

  /** The password step on an open account. A correct one clears the counter, and hands out a token for 5 minutes. */
  lemma PasswordDoes(a: Account, now: nat, isCorrect: bool)
    requires !IsLocked(a, now)
    ensures var t := Password(now, isCorrect);
            Verify(a, t) == if !isCorrect then Wrong else if a.twoFactorOn then SecondFactorDue else SignedIn
    ensures var n := Next(a, Password(now, true));
            n == a.(failed := 0, lockedUntil := None, tokens := n.tokens)
            && n.tokens == if a.twoFactorOn then a.tokens + {now / 1000 + 300} else a.tokens
    ensures Next(a, Password(now, false)) == AfterWrong(a, now)
  {
  }

  /** The fifth wrong attempt starts a lock of 15 minutes and a new count; the others count. */
  lemma WrongDoes(a: Account, now: nat)
    ensures a.failed < 4 ==> AfterWrong(a, now) == a.(failed := a.failed + 1)
    ensures a.failed >= 4 ==> AfterWrong(a, now) == a.(failed := 0, lockedUntil := Some(now + 900_000))
    ensures a.failed >= 4 ==> forall later: nat :: IsLocked(AfterWrong(a, now), later) <==> later < now + 900_000
  {
  }

  /**
   * The second factor on an open account. It needs a token that was handed out and is not 5 minutes old; a
   * time-based code signs in exactly when its 30-second step is later than any used before, and uses that step; else
   * an unused recovery code signs in, and is used up; anything else is wrong.
   */
  lemma SecondFactorDoes(a: Account, now: nat, token: Token, code: Code)
    requires !IsLocked(a, now)
    ensures var t := SecondFactor(now, token, code);
            var step := if code.drift.Some? then now / 30_000 + code.drift.value else 0;
            var isLater := code.drift.Some? && (a.lastUsedStep == None || step > a.lastUsedStep.value);
            var spare := code.recovery.Some? && code.recovery.value in a.recoveryCodes;
            if token !in a.tokens || now / 1000 >= token then Verify(a, t) == NoToken && Next(a, t) == a
            else if isLater then
              Verify(a, t) == SignedIn && Next(a, t) == a.(failed := 0, lockedUntil := None, lastUsedStep := Some(step))
            else if spare then
              Verify(a, t) == SignedIn
              && Next(a, t) == a.(failed := 0, lockedUntil := None,
                                  recoveryCodes := a.recoveryCodes - {code.recovery.value})
            else Verify(a, t) == Wrong && Next(a, t) == AfterWrong(a, now)
  {
  }

  // ---------------------------------------------------------------- runs

  function After(a: Account, run: seq<Attempt>): Account
    decreases |run|
  {
    if run == [] then a else After(Next(a, run[0]), run[1..])
  }

  /** How many attempts of the run end in a verdict. */
  function Count(a: Account, run: seq<Attempt>, v: Verdict): nat
    decreases |run|
  {
    if run == [] then 0 else Bit(Verify(a, run[0]) == v) + Count(Next(a, run[0]), run[1..], v)
  }

  /** The clock does not go back, from `from` to `to`. */
  ghost predicate During(run: seq<Attempt>, from: nat, to: nat)
    decreases |run|
  {
    if run == [] then from <= to else from <= run[0].at && During(run[1..], run[0].at, to)
  }

  lemma {:induction false} DuringConcat(a: seq<Attempt>, b: seq<Attempt>, from: nat, mid: nat, to: nat)
    requires During(a, from, mid) && During(b, mid, to)
    ensures During(a + b, from, to)
    decreases |a|
  {
    if a == [] {
      assert a + b == b;
      if b != [] { assert from <= b[0].at; }
    } else {
      assert (a + b)[1..] == a[1..] + b;
      DuringConcat(a[1..], b, a[0].at, mid, to);
    }
  }

  lemma RunOfOne(a: Account, t: Attempt)
    ensures After(a, [t]) == Next(a, t) && forall v :: Count(a, [t], v) == Bit(Verify(a, t) == v)
  {
    assert [t][1..] == [];
  }

  lemma {:induction false} RunConcat(a: Account, first: seq<Attempt>, rest: seq<Attempt>)
    ensures After(a, first + rest) == After(After(a, first), rest)
    ensures forall v :: Count(a, first + rest, v) == Count(a, first, v) + Count(After(a, first), rest, v)
    decreases |first|
  {
    if first == [] {
      assert first + rest == rest;
    } else {
      assert (first + rest)[0] == first[0] && (first + rest)[1..] == first[1..] + rest;
      RunConcat(Next(a, first[0]), first[1..], rest);
    }
  }

  // ---------------------------------------------------------------- the rate bound

  /** When the account is next open, from time t on. */
  function OpenFrom(a: Account, t: nat): nat {
    if IsLocked(a, t) then a.lockedUntil.value else t
  }

  /** What can still be evaluated up to `to`: five per lockout period begun, less the failures counted so far. */
  function Allowance(a: Account, t: nat, to: nat): int {
    var open := OpenFrom(a, t);
    if open > to then 0 else THRESHOLD * ((to - open) / LOCKOUT_MS + 1) - a.failed
  }

  lemma AllowanceShrinks(a: Account, from: nat, t: nat, to: nat)
    requires a.failed < THRESHOLD && from <= t <= to
    ensures Allowance(a, t, to) <= Allowance(a, from, to)
    ensures Allowance(a, t, to) >= 0
  {
    var x, y := OpenFrom(a, from), OpenFrom(a, t);
    if y <= to { DivisionGrows(to - y, to - x); }
  }

  lemma DivisionGrows(x: nat, y: nat)
    requires x <= y
    ensures x / LOCKOUT_MS <= y / LOCKOUT_MS
  {
  }

  lemma OnePeriodLess(x: nat)
    requires x >= LOCKOUT_MS
    ensures (x - LOCKOUT_MS) / LOCKOUT_MS == x / LOCKOUT_MS - 1
  {
  }

  /**
   * A wrong attempt uses up a unit of the allowance, a locked one none. An accepted one gives back the failures
   * counted so far, at most 4.
   */
  lemma AttemptCosts(a: Account, t: Attempt, to: nat)
    requires a.failed < THRESHOLD && t.at <= to
    ensures var v := Verify(a, t);
            Bit(v == Wrong) + Allowance(Next(a, t), t.at, to)
            <= Allowance(a, t.at, to) + 4 * (Bit(v == SecondFactorDue) + Bit(v == SignedIn))
    ensures Next(a, t).failed < THRESHOLD
  {
    if Verify(a, t) == Wrong && a.failed + 1 >= THRESHOLD && t.at + LOCKOUT_MS <= to { OnePeriodLess(to - t.at); }
  }

  /** What is evaluated until `to`, from any row: the allowance, and 4 for every attempt that clears the row. */
  lemma {:induction false} EvaluatedWithinAllowance(a: Account, run: seq<Attempt>, from: nat, to: nat)
    requires a.failed < THRESHOLD && During(run, from, to)
    ensures Count(a, run, Wrong)
            <= Allowance(a, from, to) + 4 * (Count(a, run, SecondFactorDue) + Count(a, run, SignedIn))
    ensures After(a, run).failed < THRESHOLD
    decreases |run|
  {
    if run == [] {
      AllowanceShrinks(a, from, from, to);
    } else {
      var t := run[0];
      DuringEnds(run[1..], t.at, to);
      EvaluatedWithinAllowance(Next(a, t), run[1..], t.at, to);
      AttemptCosts(a, t, to);
      AllowanceShrinks(a, from, t.at, to);
    }
  }

  lemma {:induction false} DuringEnds(run: seq<Attempt>, from: nat, to: nat)
    requires During(run, from, to)
    ensures from <= to
    decreases |run|
  {
    if run != [] { DuringEnds(run[1..], run[0].at, to); }
  }

  /** What the lockout alone allows in a period: five for each lockout period begun. */
  function PlainBound(period: nat): nat {
    THRESHOLD * (period / LOCKOUT_MS + 1)
  }

  /**
   * In any period in which nobody signs in, the wrong passwords and second factors evaluated are at most
   * 5 * (T / 15 min + 1), and 4 more for each password that was accepted while the second factor was still due.
   * The stored counter stays within 0..4.
   */
  lemma WrongAttemptsAreBounded(a: Account, run: seq<Attempt>, from: nat, period: nat)
    requires a.failed < THRESHOLD && During(run, from, from + period) && Count(a, run, SignedIn) == 0
    ensures Count(a, run, Wrong) <= PlainBound(period) + 4 * Count(a, run, SecondFactorDue)
    ensures After(a, run).failed < THRESHOLD
  {
    EvaluatedWithinAllowance(a, run, from, from + period);
    if OpenFrom(a, from) <= from + period { DivisionGrows(from + period - OpenFrom(a, from), period); }
  }

  // ---------------------------------------------------------------- the bound is reached

  const NO_CODE := Code(None, None)

  /** An account with a second factor that is open and has no failures on it. */
  predicate Fresh(a: Account, at: nat) {
    a.twoFactorOn && a.failed == 0 && !IsLocked(a, at)
  }

  /** The attempt is wrong whenever it is looked at: a wrong password, or with a valid token no code at all. */
  predicate Misses(a: Account, t: Attempt) {
    match t
    case Password(_, isCorrect) => !isCorrect
    case SecondFactor(now, token, code) => TokenIsValid(a, now, token) && code == NO_CODE
  }

  function Repeated(t: Attempt, n: nat): seq<Attempt> {
    if n == 0 then [] else [t] + Repeated(t, n - 1)
  }

  lemma {:induction false} RepeatedIsEvaluated(a: Account, t: Attempt, n: nat)
    requires !IsLocked(a, t.at) && Misses(a, t) && a.failed + n <= THRESHOLD && a.failed < THRESHOLD
    ensures var run := Repeated(t, n);
            During(run, t.at, t.at) && Count(a, run, Wrong) == n == |run|
            && Count(a, run, SignedIn) == Count(a, run, SecondFactorDue) == 0
    ensures After(a, Repeated(t, n))
            == if a.failed + n == THRESHOLD then a.(failed := 0, lockedUntil := Some(t.at + LOCKOUT_MS))
               else a.(failed := a.failed + n)
    decreases n
  {
    if n > 0 {
      var run := Repeated(t, n);
      assert run[1..] == Repeated(t, n - 1);
      if a.failed + 1 < THRESHOLD {
        RepeatedIsEvaluated(Next(a, t), t, n - 1);
      } else {
        assert n == 1 && run[1..] == [];
      }
    }
  }

  /** Four wrong attempts and an accepted password, which takes them off the row. */
  function Round(t: Attempt): seq<Attempt> {
    Repeated(t, 4) + [Password(t.at, true)]
  }

  function Rounds(t: Attempt, n: nat): seq<Attempt> {
    if n == 0 then [] else Round(t) + Rounds(t, n - 1)
  }

  lemma OneRound(a: Account, t: Attempt)
    requires Fresh(a, t.at) && Misses(a, t)
    ensures var round := Round(t);
            Fresh(After(a, round), t.at) && Misses(After(a, round), t) && During(round, t.at, t.at) && |round| == 5
            && Count(a, round, Wrong) == 4 && Count(a, round, SecondFactorDue) == 1 && Count(a, round, SignedIn) == 0
  {
    var wrong, right := Repeated(t, 4), Password(t.at, true);
    RepeatedIsEvaluated(a, t, 4);
    RunConcat(a, wrong, [right]);
    RunOfOne(After(a, wrong), right);
    assert [right][1..] == [];
    DuringConcat(wrong, [right], t.at, t.at, t.at);
  }

  lemma {:induction false} RoundsGoOn(a: Account, t: Attempt, n: nat)
    requires Fresh(a, t.at) && Misses(a, t)
    ensures var run := Rounds(t, n);
            Fresh(After(a, run), t.at) && During(run, t.at, t.at) && |run| == 5 * n
            && Count(a, run, Wrong) == 4 * n && Count(a, run, SecondFactorDue) == n && Count(a, run, SignedIn) == 0
    decreases n
  {
    if n > 0 {
      OneRound(a, t);
      RoundsGoOn(After(a, Round(t)), t, n - 1);
      RunConcat(a, Round(t), Rounds(t, n - 1));
      DuringConcat(Round(t), Rounds(t, n - 1), t.at, t.at, t.at);
    }
  }

  /** A password, and with the token it hands out rounds of wrong codes. */
  function PasswordAndCodes(at: nat, n: nat): seq<Attempt> {
    [Password(at, true)] + Rounds(SecondFactor(at, TokenOf(at), NO_CODE), n)
  }

  lemma PasswordAndCodesAreEvaluated(a: Account, at: nat, n: nat)
    requires Fresh(a, at)
    ensures var run := PasswordAndCodes(at, n);
            During(run, at, at) && |run| == 1 + 5 * n
            && Count(a, run, Wrong) == 4 * n && Count(a, run, SecondFactorDue) == n + 1 && Count(a, run, SignedIn) == 0
  {
    var first, t := Password(at, true), SecondFactor(at, TokenOf(at), NO_CODE);
    RunOfOne(a, first);
    RoundsGoOn(Next(a, first), t, n);
    RunConcat(a, [first], Rounds(t, n));
    assert [first][1..] == [];
    DuringConcat([first], Rounds(t, n), at, at, at);
  }

  /**
   * With a second factor, no number of wrong codes is too many: for every n there is a run at a single instant,
   * with the tokens it was handed out, without a sign-in and without a lock, in which more than n wrong codes are
   * evaluated.
   */
  lemma SecondFactorIsNotRateLimited(a: Account, at: nat, n: nat)
    requires Fresh(a, at)
    ensures exists run :: During(run, at, at) && Count(a, run, SignedIn) == 0
                          && Count(a, run, Locked) == Count(a, run, NoToken) == 0 && Count(a, run, Wrong) > n
  {
    var run := PasswordAndCodes(at, n + 1);
    PasswordAndCodesAreEvaluated(a, at, n + 1);
    VerdictsAddUp(a, run);
    assert Count(a, run, Wrong) > n;
  }

  /** Every attempt ends in one verdict. */
  lemma {:induction false} VerdictsAddUp(a: Account, run: seq<Attempt>)
    ensures |run| == Count(a, run, NoToken) + Count(a, run, Locked) + Count(a, run, Wrong)
                     + Count(a, run, SecondFactorDue) + Count(a, run, SignedIn)
    decreases |run|
  {
    if run != [] { VerdictsAddUp(Next(a, run[0]), run[1..]); }
  }

  /** Five wrong passwords at once, as soon as each lock ends, from `at` on. */
  function Bursts(at: nat, n: nat): seq<Attempt>
    decreases n
  {
    if n == 0 then [] else Repeated(Password(at, false), THRESHOLD) + Bursts(at + LOCKOUT_MS, n - 1)
  }

  lemma {:induction false} BurstsAreEvaluated(a: Account, at: nat, n: nat)
    requires a.failed == 0 && !IsLocked(a, at)
    ensures var run := Bursts(at, n + 1);
            During(run, at, at + n * LOCKOUT_MS)
            && Count(a, run, Wrong) == THRESHOLD * (n + 1)
            && Count(a, run, SignedIn) == Count(a, run, SecondFactorDue) == 0
    decreases n
  {
    var burst, rest := Repeated(Password(at, false), THRESHOLD), Bursts(at + LOCKOUT_MS, n);
    RepeatedIsEvaluated(a, Password(at, false), THRESHOLD);
    RunConcat(a, burst, rest);
    if n > 0 {
      BurstsAreEvaluated(After(a, burst), at + LOCKOUT_MS, n - 1);
      assert During(rest, at, at + n * LOCKOUT_MS) by { DuringEarlier(rest, at, at + LOCKOUT_MS, at + n * LOCKOUT_MS); }
    }
    DuringConcat(burst, rest, at, at, at + n * LOCKOUT_MS);
  }

  lemma DuringEarlier(run: seq<Attempt>, earlier: nat, from: nat, to: nat)
    requires During(run, from, to) && earlier <= from
    ensures During(run, earlier, to)
  {
  }

  /** The bound is exact: for any number of periods and any number of accepted passwords, some run reaches it. */
  lemma BoundIsReached(a: Account, at: nat, periods: nat, accepted: nat)
    requires Fresh(a, at)
    ensures exists run :: During(run, at, at + periods * LOCKOUT_MS) && Count(a, run, SignedIn) == 0
              && Count(a, run, SecondFactorDue) == accepted
              && Count(a, run, Wrong) == PlainBound(periods * LOCKOUT_MS) + 4 * accepted
  {
    var rounds, bursts := Rounds(Password(at, false), accepted), Bursts(at, periods + 1);
    RoundsGoOn(a, Password(at, false), accepted);
    BurstsAreEvaluated(After(a, rounds), at, periods);
    RunConcat(a, rounds, bursts);
    DuringConcat(rounds, bursts, at, at, at + periods * LOCKOUT_MS);
    assert PlainBound(periods * LOCKOUT_MS) == THRESHOLD * (periods + 1);
    assert Count(a, rounds + bursts, Wrong) == PlainBound(periods * LOCKOUT_MS) + 4 * accepted;
  }

  /** In every run without a sign-in and with at most `r` accepted passwords the lockout alone bounds the wrong ones. */
  ghost predicate PlainlyBounded(r: nat) {
    forall a: Account, run, from: nat, to: nat ::
      a.failed < THRESHOLD && During(run, from, to) && from <= to
      && Count(a, run, SignedIn) == 0 && Count(a, run, SecondFactorDue) <= r
      ==> Count(a, run, Wrong) <= PlainBound(to - from)
  }

  /** The plain bound is a property of the lockout exactly when no password is accepted on the way. */
  lemma PlainBoundIffNothingIsCleared(r: nat)
    ensures PlainlyBounded(r) <==> r == 0
  {
    if r == 0 {
      forall a: Account, run, from: nat, to: nat |
        a.failed < THRESHOLD && During(run, from, to) && from <= to
        && Count(a, run, SignedIn) == 0 && Count(a, run, SecondFactorDue) <= r
        ensures Count(a, run, Wrong) <= PlainBound(to - from)
      {
        WrongAttemptsAreBounded(a, run, from, to - from);
      }
    } else {
      var a := Account(true, 0, None, None, {}, {});
      BoundIsReached(a, 0, 0, 1);
      var run :| During(run, 0, 0) && Count(a, run, SignedIn) == 0 && Count(a, run, SecondFactorDue) == 1
                 && Count(a, run, Wrong) == PlainBound(0) + 4;
      assert !PlainlyBounded(r);
    }
  }

  /** Without a second factor the plain bound holds: an accepted password is a sign-in. */
  lemma {:induction false} PasswordOnlyNeverWaits(a: Account, run: seq<Attempt>)
    requires !a.twoFactorOn
    ensures Count(a, run, SecondFactorDue) == 0
    decreases |run|
  {
    if run != [] { PasswordOnlyNeverWaits(Next(a, run[0]), run[1..]); }
  }

  lemma PasswordOnlyIsRateLimited(a: Account, run: seq<Attempt>, from: nat, period: nat)
    requires !a.twoFactorOn && a.failed < THRESHOLD
    requires During(run, from, from + period) && Count(a, run, SignedIn) == 0
    ensures Count(a, run, Wrong) <= PlainBound(period)
  {
    PasswordOnlyNeverWaits(a, run);
    WrongAttemptsAreBounded(a, run, from, period);
  }

  /** For every run of the account without a sign-in the lockout alone bounds the wrong attempts. */
  ghost predicate RateLimited(a: Account) {
    forall run, from: nat, to: nat :: During(run, from, to) && from <= to && Count(a, run, SignedIn) == 0
      ==> Count(a, run, Wrong) <= PlainBound(to - from)
  }

  /** The plain bound holds for an account exactly when it has no second factor. */
  lemma RateLimitedIffNoSecondFactor(a: Account)
    requires a.failed < THRESHOLD
    ensures RateLimited(a) <==> !a.twoFactorOn
  {
    if !a.twoFactorOn {
      forall run, from: nat, to: nat | During(run, from, to) && from <= to && Count(a, run, SignedIn) == 0
        ensures Count(a, run, Wrong) <= PlainBound(to - from)
      {
        PasswordOnlyIsRateLimited(a, run, from, to - from);
      }
    } else {
      TooManyAtOnce(a);
      var run :| TooMany(a, run, OpenFrom(a, 0));
      assert !RateLimited(a);
    }
  }

  ghost predicate TooMany(a: Account, run: seq<Attempt>, at: nat) {
    During(run, at, at) && Count(a, run, SignedIn) == 0 && Count(a, run, Wrong) > PlainBound(0)
  }

  /** Once the account is open, an accepted password clears it, and eight wrong codes go through at that instant. */
  lemma TooManyAtOnce(a: Account)
    requires a.failed < THRESHOLD && a.twoFactorOn
    ensures exists run :: TooMany(a, run, OpenFrom(a, 0))
  {
    var at := OpenFrom(a, 0);
    var first := Password(at, true);
    var rest := PasswordAndCodes(at, 2);
    RunOfOne(a, first);
    PasswordAndCodesAreEvaluated(Next(a, first), at, 2);
    RunConcat(a, [first], rest);
    assert [first][1..] == [];
    DuringConcat([first], rest, at, at, at);
    assert TooMany(a, [first] + rest, at);
  }

  // ---------------------------------------------------------------- codes are used once

  /** The time step an attempt signs in with, if it does so with a time-based code. */
  function StepUsed(a: Account, t: Attempt): Option<int> {
    if t.SecondFactor? && Verify(a, t) == SignedIn && StepIsFresh(a, t.at, t.code)
    then Some(TimeStep(t.at, t.code.drift.value)) else None
  }

  lemma StepIsRecorded(a: Account, t: Attempt)
    ensures Next(a, t).lastUsedStep == if StepUsed(a, t).Some? then StepUsed(a, t) else a.lastUsedStep
    ensures StepUsed(a, t).Some? && a.lastUsedStep.Some? ==> StepUsed(a, t).value > a.lastUsedStep.value
  {
  }

  /** The time steps that signed in, in order. */
  function StepsUsed(a: Account, run: seq<Attempt>): seq<int>
    decreases |run|
  {
    if run == [] then []
    else
      var t := run[0];
      (if StepUsed(a, t).Some? then [StepUsed(a, t).value] else [])
      + StepsUsed(Next(a, t), run[1..])
  }

  /** The recovery codes that signed in. */
  function CodesUsed(a: Account, run: seq<Attempt>): seq<RecoveryCode>
    decreases |run|
  {
    if run == [] then []
    else
      var t := run[0];
      (if t.SecondFactor? && Verify(a, t) == SignedIn && !StepIsFresh(a, t.at, t.code)
       then [t.code.recovery.value] else [])
      + CodesUsed(Next(a, t), run[1..])
  }

  ghost predicate IncreasingFrom(steps: seq<int>, last: Option<int>) {
    (forall i, j :: 0 <= i < j < |steps| ==> steps[i] < steps[j])
    && forall i :: 0 <= i < |steps| && last.Some? ==> steps[i] > last.value
  }

  lemma OneMoreStep(step: int, later: seq<int>, last: Option<int>)
    requires IncreasingFrom(later, Some(step)) && (last.Some? ==> step > last.value)
    ensures IncreasingFrom([step] + later, last)
  {
    var all := [step] + later;
    assert forall j :: 0 < j < |all| ==> all[j] == later[j - 1] && all[j] > step;
  }

  /** Each time step signs in at most once, and none that is not later than the last one used. */
  lemma {:induction false} TimeStepsAreUsedOnce(a: Account, run: seq<Attempt>)
    ensures IncreasingFrom(StepsUsed(a, run), a.lastUsedStep)
    decreases |run|
  {
    if run != [] {
      var t := run[0];
      var next := Next(a, t);
      var later := StepsUsed(next, run[1..]);
      TimeStepsAreUsedOnce(next, run[1..]);
      StepIsRecorded(a, t);
      if StepUsed(a, t).Some? {
        OneMoreStep(StepUsed(a, t).value, later, a.lastUsedStep);
      } else {
        assert [] + later == later;
      }
    }
  }

  /** Each recovery code signs in at most once, and only if it was unused at the start. */
  lemma {:induction false} RecoveryCodesAreUsedOnce(a: Account, run: seq<Attempt>)
    ensures var used := CodesUsed(a, run);
            (forall i, j :: 0 <= i < j < |used| ==> used[i] != used[j])
            && (forall i :: 0 <= i < |used| ==> used[i] in a.recoveryCodes)
            && After(a, run).recoveryCodes == a.recoveryCodes - (set c | c in used)
    decreases |run|
  {
    if run != [] { RecoveryCodesAreUsedOnce(Next(a, run[0]), run[1..]); }
  }
}
