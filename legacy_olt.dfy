/** The older OLT client `src/olt.js`: its own token cache and retry loop, the rx
    power tiers of its detail report, the bad-signal sweep, and the guards and
    acknowledgement test of its reboot and rename commands. Logins and API calls are
    scripted outcomes as in `ApiClient`; this copy reads the clock twice per
    attempt. */
module LegacyOlt {
  import opened Wrappers
  import opened Strings
  import opened Wire
  import opened Arrays
  import A = ApiClient

  const LegacyTokenLifetimeMs := 30 * 60 * 1000
  const LegacyRetryDelayMs := 1000
  const LegacyRetriesMessage := "Token authentication failed after multiple retries"

  // ---------------------------------------------------------------- token cache

  /** `!xToken || Date.now() > tokenExpiration`: the boundary instant still counts
      as valid here. */
  predicate NeedsLogin(s: A.Session, now: int) {
    s.token == "" || now > s.expiration
  }

  /** One attempt: the clock reading `ensureValidToken` compares, the reading
      `getToken` takes after the login response, the login outcome (used only if a
      login is made) and the API call's outcome. */
  datatype Attempt = Attempt(checkNow: int, loginNow: int, login: A.LoginOutcome, call: A.CallOutcome)

  /** The effect of `getToken()`: the new session, and the header it returns
      (`None` is `undefined`) or the error it rethrows. */
  datatype LoginStep = LoginStep(session: A.Session, result: Result<Option<string>>)

  /** `getToken()` (src/olt.js:30-66). */
  function LegacyGetTokenStep(s: A.Session, loginNow: int, login: A.LoginOutcome): LoginStep {
    match login
    case LoginThrew(e) => LoginStep(s, Err(Error(e.message)))
    case LoginReturned(h) =>
      if Has(h) then LoginStep(A.Session(h.value, loginNow + LegacyTokenLifetimeMs), Ok(h))
      else LoginStep(s, Ok(h))
  }

  /** A header is stored with an expiration 30 minutes after the time read after
      the response; a missing header is not an error and changes nothing; a
      transport error is rethrown with the same message. */
  lemma LegacyGetTokenOutcomes(s: A.Session, loginNow: int, login: A.LoginOutcome)
    ensures login.LoginReturned? && Has(login.header) ==>
      LegacyGetTokenStep(s, loginNow, login)
        == LoginStep(A.Session(login.header.value, loginNow + A.TokenLifetimeMs), Ok(login.header))
    ensures login.LoginReturned? && !Has(login.header) ==>
      LegacyGetTokenStep(s, loginNow, login) == LoginStep(s, Ok(login.header))
    ensures login.LoginThrew? ==>
      LegacyGetTokenStep(s, loginNow, login) == LoginStep(s, Err(login.error))
  {
  }

  /** `ensureValidToken()` (src/olt.js:68-82): the session afterwards, the token it
      returns (whatever `xToken` then holds) or the login error, and the login made. */
  function EnsureStep(s: A.Session, a: Attempt): A.TokenStep {
    if !NeedsLogin(s, a.checkNow) then A.TokenStep(s, Ok(s.token), [])
    else
      var l := LegacyGetTokenStep(s, a.loginNow, a.login);
      match l.result
      case Err(e) => A.TokenStep(l.session, Err(e), [A.LoginRequest(a.loginNow)])
      case Ok(_) => A.TokenStep(l.session, Ok(l.session.token), [A.LoginRequest(a.loginNow)])
  }

  /** At the instant the token expires this copy still reuses it, while
      `src/utils/api.js` already logs in. */
  lemma BoundaryInstantDiffers(s: A.Session, a: Attempt, login: A.LoginOutcome)
    requires s.token != "" && a.checkNow == s.expiration
    ensures EnsureStep(s, a) == A.TokenStep(s, Ok(s.token), [])
    ensures A.GetTokenStep(s, a.checkNow, login).events == [A.LoginRequest(a.checkNow)]
  {
  }

  /** A login whose reply has no header leaves the old token in place, so the call
      goes out with it, an empty token included. */
  lemma MissingHeaderKeepsOldToken(s: A.Session, a: Attempt)
    requires NeedsLogin(s, a.checkNow) && a.login == A.LoginReturned(None)
    ensures EnsureStep(s, a) == A.TokenStep(s, Ok(s.token), [A.LoginRequest(a.loginNow)])
  {
  }

  /** What `throw lastError` throws: an error, or `undefined` when no attempt ran. */
  datatype Thrown = ThrownError(error: Error) | ThrownUndefined

  datatype Outcome = Resolved(reply: Reply) | Rejected(thrown: Thrown)

  /** The whole of a `handleTokenFailure` call. */
  datatype LegacyRun = LegacyRun(session: A.Session, outcome: Outcome, events: seq<A.Event>)

  function After(events: seq<A.Event>, run: LegacyRun): LegacyRun {
    run.(events := events + run.events)
  }

  /** How one pass of the `for` loop ends: `return result`, the `catch` block
      (which records `lastError`), or the `continue` after a rejected token. */
  datatype LegacyStep =
    | Resolve(session: A.Session, reply: Reply, events: seq<A.Event>)
    | Recorded(session: A.Session, error: Error, events: seq<A.Event>)
    | Skipped(session: A.Session, events: seq<A.Event>)

  /** `xToken = ""; tokenExpiration = 0;` */
  const Cleared := A.Session("", 0)

  /** The `catch` block: record the error; before the last attempt also reset the
      session and wait. */
  function LegacyCaught(s: A.Session, e: Error, events: seq<A.Event>, attempt: int, maxRetries: int): LegacyStep {
    if attempt < maxRetries then Recorded(Cleared, e, events + [A.Wait(LegacyRetryDelayMs)])
    else Recorded(s, e, events)
  }

  /** Attempt number `attempt` (1-based) of the loop body (src/olt.js:89-126). */
  function LegacyAttemptStep(s: A.Session, request: A.Request, a: Attempt, attempt: int, maxRetries: int): LegacyStep {
    var g := EnsureStep(s, a);
    match g.result
    case Err(e) => LegacyCaught(g.session, e, g.events, attempt, maxRetries)
    case Ok(token) =>
      var sent := g.events + [A.Sent(request, token)];
      match a.call
      case CallThrew(e) => LegacyCaught(g.session, e, sent, attempt, maxRetries)
      case CallReturned(r) =>
        if IsTokenRejection(r) then
          if attempt < maxRetries then Skipped(Cleared, sent)
          else LegacyCaught(g.session, Error(LegacyRetriesMessage), sent, attempt, maxRetries)
        else Resolve(g.session, r, sent)
  }

  /** `handleTokenFailure(apiCall, maxRetries)` (src/olt.js:84-131) after `done`
      attempts, with `last` the value of `lastError` so far. */
  function LegacyRetry(s: A.Session, request: A.Request, script: nat -> Attempt, done: nat, maxRetries: int, last: Thrown): LegacyRun
    decreases maxRetries - done
  {
    if done >= maxRetries then LegacyRun(s, Rejected(last), [])
    else
      match LegacyAttemptStep(s, request, script(done), done + 1, maxRetries)
      case Resolve(s', r, evs) => LegacyRun(s', Resolved(r), evs)
      case Recorded(s', e, evs) => After(evs, LegacyRetry(s', request, script, done + 1, maxRetries, ThrownError(e)))
      case Skipped(s', evs) => After(evs, LegacyRetry(s', request, script, done + 1, maxRetries, last))
  }

  lemma LegacyRetryUnfold(s: A.Session, request: A.Request, script: nat -> Attempt, done: nat, maxRetries: int, last: Thrown)
    requires done < maxRetries
    ensures var st := LegacyAttemptStep(s, request, script(done), done + 1, maxRetries);
      LegacyRetry(s, request, script, done, maxRetries, last) ==
        match st
        case Resolve(s', r, evs) => LegacyRun(s', Resolved(r), evs)
        case Recorded(s', e, evs) => After(evs, LegacyRetry(s', request, script, done + 1, maxRetries, ThrownError(e)))
        case Skipped(s', evs) => After(evs, LegacyRetry(s', request, script, done + 1, maxRetries, last))
  {
  }

  lemma AfterTwice(a: seq<A.Event>, b: seq<A.Event>, run: LegacyRun)
    ensures After(a, After(b, run)) == After(a + b, run)
  {
    assert a + (b + run.events) == (a + b) + run.events;
  }

  /** Every failed attempt before the last one resets both the token and its
      expiration, be it a rejected token or a thrown error, so the next attempt
      always logs in (src/olt.js:98-104, 114-122). */
  lemma FailureResetsSession(s: A.Session, request: A.Request, a: Attempt, attempt: int, maxRetries: int)
    requires attempt < maxRetries
    requires !LegacyAttemptStep(s, request, a, attempt, maxRetries).Resolve?
    ensures LegacyAttemptStep(s, request, a, attempt, maxRetries).session == A.Session("", 0)
    ensures forall now :: NeedsLogin(LegacyAttemptStep(s, request, a, attempt, maxRetries).session, now)
  {
  }

  lemma LegacyStepCallCount(s: A.Session, request: A.Request, a: Attempt, attempt: int, maxRetries: int)
    ensures A.CallCount(LegacyAttemptStep(s, request, a, attempt, maxRetries).events) <= 1
  {
    var g := EnsureStep(s, a);
    assert A.CallCount(g.events) == 0;
    if g.result.Ok? {
      var sent := g.events + [A.Sent(request, g.result.value)];
      A.CallCountAppend(g.events, [A.Sent(request, g.result.value)]);
      A.CallCountAppend(sent, [A.Wait(LegacyRetryDelayMs)]);
    } else {
      A.CallCountAppend(g.events, [A.Wait(LegacyRetryDelayMs)]);
    }
  }

  /** At most `maxRetries` API calls are made (src/olt.js:88). */
  lemma {:induction false} LegacyCallsBounded(s: A.Session, request: A.Request, script: nat -> Attempt, done: nat, maxRetries: int, last: Thrown)
    ensures A.CallCount(LegacyRetry(s, request, script, done, maxRetries, last).events)
      <= if done < maxRetries then maxRetries - done else 0
    decreases maxRetries - done
  {
    if done < maxRetries {
      var st := LegacyAttemptStep(s, request, script(done), done + 1, maxRetries);
      LegacyStepCallCount(s, request, script(done), done + 1, maxRetries);
      var next := if st.Recorded? then ThrownError(st.error) else last;
      if !st.Resolve? {
        LegacyCallsBounded(st.session, request, script, done + 1, maxRetries, next);
        A.CallCountAppend(st.events, LegacyRetry(st.session, request, script, done + 1, maxRetries, next).events);
      }
    }
  }

  /** An error a given attempt can record: the login's error, the call's error, or,
      for a reply rejecting the token, the rejection-exhausted error. */
  predicate ErrorOfAttempt(a: Attempt, e: Error) {
    (a.login.LoginThrew? && e == Error(a.login.error.message))
    || (a.call.CallThrew? && e == a.call.error)
    || (a.call.CallReturned? && IsTokenRejection(a.call.reply) && e == Error(LegacyRetriesMessage))
  }

  /** The error an attempt that must log in records: the login's rethrown error,
      else the call's error, else for a rejected token the rejection-exhausted error;
      `None` when the attempt resolves. */
  function LoggedInAttemptError(a: Attempt): Option<Error> {
    match a.login
    case LoginThrew(e) => Some(Error(e.message))
    case LoginReturned(_) =>
      match a.call
      case CallThrew(e) => Some(e)
      case CallReturned(r) => if IsTokenRejection(r) then Some(Error(LegacyRetriesMessage)) else None
  }

  /** When attempts ran and all failed, what is thrown is the error recorded by the
      last attempt, never `undefined` (src/olt.js:114-130). */
  lemma {:induction false} LegacyThrowsLastError(s: A.Session, request: A.Request, script: nat -> Attempt, done: nat, maxRetries: int, last: Thrown)
    requires done < maxRetries
    requires LegacyRetry(s, request, script, done, maxRetries, last).outcome.Rejected?
    ensures var t := LegacyRetry(s, request, script, done, maxRetries, last).outcome.thrown;
      t.ThrownError? && ErrorOfAttempt(script(maxRetries - 1), t.error)
    decreases maxRetries - done
  {
    var st := LegacyAttemptStep(s, request, script(done), done + 1, maxRetries);
    var next := if st.Recorded? then ThrownError(st.error) else last;
    if done + 1 < maxRetries {
      LegacyThrowsLastError(st.session, request, script, done + 1, maxRetries, next);
    } else {
      assert st.Recorded?;
    }
  }

  /** The last of several attempts starts from the reset session, so it logs in;
      when every attempt failed, the error thrown is exactly the one that last
      attempt records (src/olt.js:114-130). */
  lemma {:induction false} LegacyThrowsLastErrorExactly(s: A.Session, request: A.Request, script: nat -> Attempt, done: nat, maxRetries: int, last: Thrown)
    requires done + 1 < maxRetries
    requires LegacyRetry(s, request, script, done, maxRetries, last).outcome.Rejected?
    ensures LoggedInAttemptError(script(maxRetries - 1)).Some?
    ensures LegacyRetry(s, request, script, done, maxRetries, last).outcome
      == Rejected(ThrownError(LoggedInAttemptError(script(maxRetries - 1)).value))
    decreases maxRetries - done
  {
    var st := LegacyAttemptStep(s, request, script(done), done + 1, maxRetries);
    var next := if st.Recorded? then ThrownError(st.error) else last;
    assert !st.Resolve?;
    if done + 2 < maxRetries {
      LegacyThrowsLastErrorExactly(st.session, request, script, done + 1, maxRetries, next);
    } else {
      FailureResetsSession(s, request, script(done), done + 1, maxRetries);
      assert st.session == Cleared;
      var fin := LegacyAttemptStep(Cleared, request, script(done + 1), done + 2, maxRetries);
      assert !fin.Resolve?;
      assert fin.Recorded?;
      assert LegacyRetry(Cleared, request, script, done + 1, maxRetries, next).outcome
        == Rejected(ThrownError(fin.error));
    }
  }

  /** With no attempt allowed nothing is sent and `undefined` is thrown. */
  lemma LegacyNoAttempts(s: A.Session, request: A.Request, script: nat -> Attempt, maxRetries: int)
    requires maxRetries <= 0
    ensures LegacyRetry(s, request, script, 0, maxRetries, ThrownUndefined) == LegacyRun(s, Rejected(ThrownUndefined), [])
  {
  }

  /** If every login answers and every reply rejects the token, the call ends in
      'Token authentication failed after multiple retries'. */
  lemma {:induction false} LegacyPersistentRejection(s: A.Session, request: A.Request, script: nat -> Attempt, done: nat, maxRetries: int, last: Thrown)
    requires done < maxRetries
    requires forall k :: done <= k < maxRetries ==>
      script(k).login.LoginReturned? && script(k).call.CallReturned? && IsTokenRejection(script(k).call.reply)
    ensures LegacyRetry(s, request, script, done, maxRetries, last).outcome == Rejected(ThrownError(Error(LegacyRetriesMessage)))
    decreases maxRetries - done
  {
    var st := LegacyAttemptStep(s, request, script(done), done + 1, maxRetries);
    if done + 1 < maxRetries {
      assert st.Skipped?;
      LegacyPersistentRejection(st.session, request, script, done + 1, maxRetries, last);
    }
  }

  /** The module-level token state of `src/olt.js` and the log of what it has sent. */
  class LegacyClient {
    var xToken: string
    var tokenExpiration: int
    var log: seq<A.Event>

    function Held(): A.Session
      reads this
    {
      A.Session(xToken, tokenExpiration)
    }

    /** `var xToken = ""; var tokenExpiration = 0;` (src/olt.js:26-27) */
    constructor ()
      ensures Held() == A.Session("", 0) && log == []
    {
      xToken := "";
      tokenExpiration := 0;
      log := [];
    }

    method GetToken(loginNow: int, login: A.LoginOutcome) returns (r: Result<Option<string>>)
      modifies this
      ensures var l := LegacyGetTokenStep(old(Held()), loginNow, login);
        r == l.result && Held() == l.session && log == old(log) + [A.LoginRequest(loginNow)]
    {
      log := log + [A.LoginRequest(loginNow)];
      match login
      case LoginThrew(e) =>
        return Err(Error(e.message));
      case LoginReturned(newToken) =>
        if newToken.Some? && newToken.value != "" {
          xToken := newToken.value;
          tokenExpiration := loginNow + LegacyTokenLifetimeMs;
        }
        r := Ok(newToken);
    }

    method EnsureValidToken(a: Attempt) returns (r: Result<string>)
      modifies this
      ensures var g := EnsureStep(old(Held()), a);
        r == g.result && Held() == g.session && log == old(log) + g.events
    {
      if xToken == "" || a.checkNow > tokenExpiration {
        var t := GetToken(a.loginNow, a.login);
        if t.Err? {
          return Err(t.error);
        }
      }
      r := Ok(xToken);
    }

    /** The body of the `for` loop for attempt number `attempt`: the `try` block and
        the `catch` block. */
    method TryAttempt(request: A.Request, a: Attempt, attempt: int, maxRetries: int) returns (step: LegacyStep)
      modifies this
      ensures step == LegacyAttemptStep(old(Held()), request, a, attempt, maxRetries)
      ensures Held() == step.session && log == old(log) + step.events
    {
      var mark := |log|;
      ghost var g := EnsureStep(Held(), a);
      var error: Error;
      var token := EnsureValidToken(a);
      assert log[mark..] == g.events;
      if token.Err? {
        error := token.error;
      } else {
        log := log + [A.Sent(request, xToken)];
        assert log[mark..] == g.events + [A.Sent(request, xToken)];
        match a.call
        case CallThrew(e) =>
          error := e;
        case CallReturned(result) =>
          if IsTokenRejection(result) {
            if attempt < maxRetries {
              xToken := "";
              tokenExpiration := 0;
              return Skipped(Held(), log[mark..]);
            }
            error := Error(LegacyRetriesMessage);
          } else {
            return Resolve(Held(), result, log[mark..]);
          }
      }
      if attempt < maxRetries {
        xToken := "";
        tokenExpiration := 0;
        log := log + [A.Wait(LegacyRetryDelayMs)];
      }
      step := Recorded(Held(), error, log[mark..]);
    }

    /** `handleTokenFailure(apiCall, maxRetries)`; `script(k)` is attempt `k + 1`. */
    method HandleTokenFailure(request: A.Request, script: nat -> Attempt, maxRetries: int) returns (r: Outcome)
      modifies this
      ensures var run := LegacyRetry(old(Held()), request, script, 0, maxRetries, ThrownUndefined);
        r == run.outcome && Held() == run.session && log == old(log) + run.events
    {
      ghost var start := Held();
      ghost var prior := log;
      ghost var emitted: seq<A.Event> := [];
      var lastError: Thrown := ThrownUndefined;
      var attempt: nat := 1;
      while attempt <= maxRetries
        invariant attempt >= 1
        invariant log == prior + emitted
        invariant After(emitted, LegacyRetry(Held(), request, script, attempt - 1, maxRetries, lastError))
          == LegacyRetry(start, request, script, 0, maxRetries, ThrownUndefined)
        decreases maxRetries - attempt + 1
      {
        LegacyRetryUnfold(Held(), request, script, attempt - 1, maxRetries, lastError);
        var step := TryAttempt(request, script(attempt - 1), attempt, maxRetries);
        A.AppendAssoc(prior, emitted, step.events);
        match step {
          case Resolve(_, result, events) =>
            assert LegacyRetry(start, request, script, 0, maxRetries, ThrownUndefined)
              == LegacyRun(Held(), Resolved(result), emitted + events);
            return Resolved(result);
          case Recorded(_, e, events) =>
            AfterTwice(emitted, events, LegacyRetry(Held(), request, script, attempt, maxRetries, ThrownError(e)));
            lastError := ThrownError(e);
            emitted := emitted + events;
          case Skipped(_, events) =>
            AfterTwice(emitted, events, LegacyRetry(Held(), request, script, attempt, maxRetries, lastError));
            emitted := emitted + events;
        }
        attempt := attempt + 1;
      }
      r := Rejected(lastError);
    }
  }

  // ---------------------------------------------------------------- rx power tiers

  /** The four verdicts of the detail report; the threshold values are in hundredths
      of a dBm. */
  datatype Tier = VeryGood | Good | Poor | VeryPoor

  function TierOf(centi: int): Tier {
    if centi >= -1600 then VeryGood
    else if centi >= -2400 then Good
    else if centi >= -2600 then Poor
    else VeryPoor
  }

  function TierText(t: Tier): string {
    match t
    case VeryGood => "Sangat BAIK"
    case Good => "BAIK"
    case Poor => "BURUK"
    case VeryPoor => "Sangat BURUK"
  }

  function TierRank(t: Tier): nat {
    match t
    case VeryPoor => 0
    case Poor => 1
    case Good => 2
    case VeryGood => 3
  }

  /** The bands: at least -16 dBm, then down to -24, then down to -26, then below. */
  lemma TierBands(centi: int)
    ensures TierOf(centi) == VeryGood <==> centi >= -1600
    ensures TierOf(centi) == Good <==> -2400 <= centi < -1600
    ensures TierOf(centi) == Poor <==> -2600 <= centi < -2400
    ensures TierOf(centi) == VeryPoor <==> centi < -2600
  {
  }

  /** A stronger signal never gets a worse verdict. */
  lemma TierMonotone(c1: int, c2: int)
    requires c1 <= c2
    ensures TierRank(TierOf(c1)) <= TierRank(TierOf(c2))
  {
  }

  /** The verdict line of `onuDetail` (src/olt.js:378-394 for GPON, 441-457 for
      EPON): a reading gives its tier; no reading, '-', or text that is not a number
      leaves the default, 'Unknown' for GPON and 'LOS' for EPON. */
  function DetailSignal(gpon: bool, rx: Option<RxReading>): (text: string)
    ensures rx.Some? && rx.value.Reading? ==> text == TierText(TierOf(rx.value.centi))
    ensures !(rx.Some? && rx.value.Reading?) ==> text == (if gpon then "Unknown" else "LOS")
  {
    match rx
    case Some(Reading(c)) => TierText(TierOf(c))
    case _ => if gpon then "Unknown" else "LOS"
  }

  /** The default is never mistaken for a tier: the text names a tier exactly when
      there is a reading. */
  lemma DetailSignalDefaultDistinct(gpon: bool, rx: Option<RxReading>)
    ensures (exists t :: DetailSignal(gpon, rx) == TierText(t)) <==> rx.Some? && rx.value.Reading?
  {
    if rx.Some? && rx.value.Reading? {
      assert DetailSignal(gpon, rx) == TierText(TierOf(rx.value.centi));
    } else {
      forall t ensures DetailSignal(gpon, rx) != TierText(t) {
        assert TierText(t)[0] == 'S' || TierText(t)[0] == 'B';
      }
    }
  }

  // ---------------------------------------------------------------- bad-signal sweep

  /** -25.0 dBm */
  const BadSignalThresholdCenti := -2500
  const BadSignalErrorPrefix := "Tidak dapat mengambil data redaman ONU: "

  /** `{name, identifier, power}`; `power.toFixed(2)` is kept as hundredths. */
  datatype BadOnu = BadOnu(name: string, identifier: Option<string>, centi: int)

  /** A truthy `receive_power` other than '-' that parses to a number below -25 dBm. */
  predicate IsBadSignal(row: Row) {
    row.receivePower.Some? && row.receivePower.value.Reading?
    && row.receivePower.value.centi < BadSignalThresholdCenti
  }

  function PowerOf(row: Row): int {
    if row.receivePower.Some? && row.receivePower.value.Reading? then row.receivePower.value.centi else 0
  }

  /** The record pushed for a row: GPON names come from `ont_name` and `ont_sn`,
      EPON names from `onu_name` and `macaddr`. */
  function BadEntry(gpon: bool, row: Row): BadOnu {
    if gpon then BadOnu(Or(row.ontName, "No-Name"), row.ontSn, PowerOf(row))
    else BadOnu(Or(row.onuName, "No-Name"), row.macAddr, PowerOf(row))
  }

  /** The list the loop builds, in table order. */
  function BadList(gpon: bool, rows: seq<Row>): seq<BadOnu> {
    if rows == [] then []
    else
      var last := rows[|rows| - 1];
      BadList(gpon, rows[..|rows| - 1]) + (if IsBadSignal(last) then [BadEntry(gpon, last)] else [])
  }

  /** `(a, b) => a.power - b.power` as "a may stay in front of b". */
  function PowerLe(a: BadOnu, b: BadOnu): bool {
    a.centi <= b.centi
  }

  /** An entry is in the list exactly when some row is below the threshold and gives
      that entry. */
  lemma {:induction false} BadListMembers(gpon: bool, rows: seq<Row>)
    ensures forall e :: e in BadList(gpon, rows) <==>
      exists i :: 0 <= i < |rows| && IsBadSignal(rows[i]) && BadEntry(gpon, rows[i]) == e
    decreases |rows|
  {
    if rows != [] {
      var init := rows[..|rows| - 1];
      BadListMembers(gpon, init);
      forall e ensures e in BadList(gpon, rows) <==>
        exists i :: 0 <= i < |rows| && IsBadSignal(rows[i]) && BadEntry(gpon, rows[i]) == e
      {
        if e in BadList(gpon, init) {
          var i :| 0 <= i < |init| && IsBadSignal(init[i]) && BadEntry(gpon, init[i]) == e;
          assert rows[i] == init[i];
        }
        if exists i :: 0 <= i < |rows| && IsBadSignal(rows[i]) && BadEntry(gpon, rows[i]) == e {
          var i :| 0 <= i < |rows| && IsBadSignal(rows[i]) && BadEntry(gpon, rows[i]) == e;
          if i < |init| {
            assert init[i] == rows[i];
          }
        }
      }
    }
  }

  /** The sweep's answer: exactly the entries of rows below -25 dBm (each entry below
      the threshold), ordered by ascending power, a permutation of the table-order
      list. */
  lemma BadSignalSorted(gpon: bool, rows: seq<Row>)
    ensures var out := Sort(BadList(gpon, rows), PowerLe);
      Sorted(out, PowerLe)
      && multiset(out) == multiset(BadList(gpon, rows))
      && (forall e :: e in out <==> exists i :: 0 <= i < |rows| && IsBadSignal(rows[i]) && BadEntry(gpon, rows[i]) == e)
      && (forall k :: 0 <= k < |out| ==> out[k].centi < BadSignalThresholdCenti)
  {
    var list := BadList(gpon, rows);
    var out := Sort(list, PowerLe);
    SortSorted(list, PowerLe);
    BadListMembers(gpon, rows);
    forall k | 0 <= k < |out| ensures out[k].centi < BadSignalThresholdCenti {
      assert out[k] in multiset(list);
      assert out[k] in BadList(gpon, rows);
      var i :| 0 <= i < |rows| && IsBadSignal(rows[i]) && BadEntry(gpon, rows[i]) == out[k];
    }
    forall e ensures e in out <==> e in list {
      assert e in out <==> e in multiset(out);
    }
  }

  /** `getBadSignalOnus()` (src/olt.js:970-1022) given what `onuTable()` produced. */
  method GetBadSignalOnus(gpon: bool, table: Result<Payload>) returns (r: Result<seq<BadOnu>>)
    ensures table.Err? ==> r == Err(Error(BadSignalErrorPrefix + table.error.message))
    ensures table == Ok(NoPayload) ==> r == Ok([])
    ensures table.Ok? && table.value.RowsPayload? ==> r == Ok(Sort(BadList(gpon, table.value.rows), PowerLe))
    ensures table.Ok? && table.value.RecordPayload? ==> r == Err(Error(BadSignalErrorPrefix + TypeErrorMessage))
  {
    if table.Err? {
      return Err(Error(BadSignalErrorPrefix + table.error.message));
    }
    var allOnus := table.value;
    if allOnus.NoPayload? || (allOnus.RowsPayload? && |allOnus.rows| == 0) {
      return Ok([]);
    }
    if allOnus.RecordPayload? {
      return Err(Error(BadSignalErrorPrefix + TypeErrorMessage));
    }
    var rows := allOnus.rows;
    var badOnusList: seq<BadOnu> := [];
    var i := 0;
    while i < |rows|
      invariant 0 <= i <= |rows|
      invariant badOnusList == BadList(gpon, rows[..i])
    {
      var onu := rows[i];
      assert rows[..i + 1][..i] == rows[..i];
      if onu.receivePower.Some? && onu.receivePower.value.Reading? && onu.receivePower.value.centi < BadSignalThresholdCenti {
        var name := if gpon then Or(onu.ontName, "No-Name") else Or(onu.onuName, "No-Name");
        var identifier := if gpon then onu.ontSn else onu.macAddr;
        badOnusList := badOnusList + [BadOnu(name, identifier, onu.receivePower.value.centi)];
      }
      i := i + 1;
    }
    assert rows[..|rows|] == rows;
    return Ok(Sort(badOnusList, PowerLe));
  }

  // ---------------------------------------------------------------- reboot and rename

  const BlankRebootPrompt := "Mohon masukkan nama atau identifikasi ONU yang akan di-reboot."
  const BlankRenamePrompt := "Mohon masukkan nama atau identifikasi ONU yang akan diubah namanya."
  const BlankNewNamePrompt := "Mohon masukkan nama baru untuk ONU."
  const RebootErrorPrefix := "Tidak dapat melakukan reboot ONU: "
  const RenameErrorPrefix := "Tidak dapat mengubah nama ONU: "

  function NoIdentifierText(onuName: string): string {
    "Tidak dapat menemukan identifier untuk ONU " + onuName + "."
  }

  /** A missing identifier is reported differently from a missing ONU. */
  lemma NoIdentifierIsNotNotFound(gpon: bool, onuName: string)
    ensures NoIdentifierText(onuName) != NotFoundText(gpon, onuName)
  {
    HeadOfConcat("Tidak dapat menemukan identifier untuk ONU ", onuName + ".");
    HeadOfConcat("Maaf, ONU \"", onuName + "\" tidak ditemukan.\nGunakan "
      + (if gpon then "Serial Number" else "MAC Address") + " atau nama ONU untuk pencarian.");
  }

  /** The POST bodies these commands send. */
  datatype Command =
    | GponInfoSet(identifier: JsValue, flags: int, ontName: string, description: string)
    | EponConfigSet(portId: Option<JsValue>, onuId: Option<JsValue>, flags: int, onuName: Option<string>, onuDesc: Option<string>)
    | SystemSave

  /** The commands sent, in order, and what the function returns or throws. */
  datatype Effect = Effect(commands: seq<Command>, result: Result<string>)

  /** The GPON search: `ont_sn` or `ont_name`, lower-cased, equals the term. */
  function GponMatch(term: string): Row -> bool {
    (row: Row) => LowerOrEmpty(row.ontSn) == term || LowerOrEmpty(row.ontName) == term
  }

  /** The EPON search: `macaddr` or `onu_name`, lower-cased, equals the term. */
  function EponMatch(term: string): Row -> bool {
    (row: Row) => LowerOrEmpty(row.macAddr) == term || LowerOrEmpty(row.onuName) == term
  }

  /** The ONU a command acts on: the first matching row. The GPON branch searches
      only an actual array; the EPON branch calls `find` on whatever the table is,
      which throws for anything but an array. */
  function LegacyFind(gpon: bool, term: string, payload: Payload): Result<Option<Row>> {
    if gpon then
      var rows := if payload.RowsPayload? then payload.rows else [];
      match Find(rows, GponMatch(term))
      case None => Ok(None)
      case Some(i) => Ok(Some(rows[i]))
    else if payload.RowsPayload? then
      match Find(payload.rows, EponMatch(term))
      case None => Ok(None)
      case Some(i) => Ok(Some(payload.rows[i]))
    else Err(Error(TypeErrorMessage))
  }

  function RebootDoneText(gpon: bool, f: Row): string {
    if gpon then
      "\U{2705} Perintah reboot berhasil dikirim ke ONU " + (if Has(f.ontName) then f.ontName.value else Text(f.ontSn))
      + "\nSerial Number: " + Or(f.ontSn, "-") + "\nONU akan restart dalam beberapa detik..."
    else
      "\U{2705} Perintah reboot berhasil dikirim ke ONU " + Text(f.onuName)
      + "\nMAC Address: " + Or(f.macAddr, "-") + "\nONU akan restart dalam beberapa detik..."
  }

  /** The reboot once an ONU `f` is found (and, for GPON, has an identifier): the
      command and the reply built from the POST's outcome. */
  function RebootSend(gpon: bool, onuName: string, f: Row, post: Result<Reply>): Effect
    requires gpon ==> HasValue(f.identifier)
  {
    var cmd := if gpon then GponInfoSet(f.identifier.value, 4, "", "")
               else EponConfigSet(f.portId, f.onuId, 1, None, None);
    match post
    case Err(e) => Effect([cmd], Err(Error(RebootErrorPrefix + e.message)))
    case Ok(resp) =>
      Effect([cmd], Ok(if Acknowledged(resp) then RebootDoneText(gpon, f)
                      else "Gagal melakukan reboot ONU " + onuName + "."))
  }

  /** `rebootOnu(onuName)` (src/olt.js:565-695), given the outcome of `onuTable()` and
      of the reboot POST (the latter used only if it is sent). */
  function LegacyReboot(gpon: bool, onuName: string, table: Result<Payload>, post: Result<Reply>): Effect {
    if IsBlank(onuName) then Effect([], Ok(BlankRebootPrompt))
    else
      match table
      case Err(e) => Effect([], Err(Error(RebootErrorPrefix + e.message)))
      case Ok(payload) =>
        match LegacyFind(gpon, Lower(Trim(onuName)), payload)
        case Err(e) => Effect([], Err(Error(RebootErrorPrefix + e.message)))
        case Ok(None) => Effect([], Ok(NotFoundText(gpon, onuName)))
        case Ok(Some(f)) =>
          if gpon && !HasValue(f.identifier) then Effect([], Ok(NoIdentifierText(onuName)))
          else RebootSend(gpon, onuName, f, post)
  }

  /** A blank name is answered with a prompt before the table is read; otherwise a
      command is sent only for a matching row that (for GPON) carries an identifier,
      and then exactly one, with the reboot flag 4 (GPON) or 1 (EPON). */
  lemma LegacyRebootGuards(gpon: bool, onuName: string, table: Result<Payload>, post: Result<Reply>)
    ensures IsBlank(onuName) ==> LegacyReboot(gpon, onuName, table, post) == Effect([], Ok(BlankRebootPrompt))
    ensures var e := LegacyReboot(gpon, onuName, table, post);
      e.commands != [] ==>
        !IsBlank(onuName) && table.Ok?
        && LegacyFind(gpon, Lower(Trim(onuName)), table.value).Ok?
        && LegacyFind(gpon, Lower(Trim(onuName)), table.value).value.Some?
        && var f := LegacyFind(gpon, Lower(Trim(onuName)), table.value).value.value;
           (gpon ==> HasValue(f.identifier)) && e == RebootSend(gpon, onuName, f, post)
  {
  }

  lemma RebootSendCommand(gpon: bool, onuName: string, f: Row, post: Result<Reply>)
    requires gpon ==> HasValue(f.identifier)
    ensures RebootSend(gpon, onuName, f, post).commands ==
      [if gpon then GponInfoSet(f.identifier.value, 4, "", "") else EponConfigSet(f.portId, f.onuId, 1, None, None)]
  {
  }

  /** Once the command is answered, the reply is a success exactly when the OLT
      acknowledged it (src/olt.js:624-635). */
  lemma LegacyRebootAck(gpon: bool, onuName: string, f: Row, resp: Reply)
    requires gpon ==> HasValue(f.identifier)
    ensures var r := RebootSend(gpon, onuName, f, Ok(resp)).result;
      r.Ok? && (StartsWith(r.value, "\U{2705}") <==> Acknowledged(resp))
  {
    var r := RebootSend(gpon, onuName, f, Ok(resp)).result;
    StartsWithChar(r.value, '\U{2705}');
    if !Acknowledged(resp) {
      HeadOfConcat("Gagal melakukan reboot ONU ", onuName + ".");
    } else if gpon {
      HeadOfConcat("\U{2705} Perintah reboot berhasil dikirim ke ONU ", (if Has(f.ontName) then f.ontName.value else Text(f.ontSn))
        + "\nSerial Number: " + Or(f.ontSn, "-") + "\nONU akan restart dalam beberapa detik...");
    } else {
      HeadOfConcat("\U{2705} Perintah reboot berhasil dikirim ke ONU ", Text(f.onuName)
        + "\nMAC Address: " + Or(f.macAddr, "-") + "\nONU akan restart dalam beberapa detik...");
    }
  }

  function RenameDoneText(gpon: bool, f: Row, newName: string, save: Result<Reply>): string {
    var head := if save.Ok? then "\U{2705} Nama ONU berhasil diubah dan disimpan!\n" else "\U{2705} Nama ONU berhasil diubah!\n";
    var body := if gpon then "Dari: " + Or(f.ontName, "-") + "\nMenjadi: " + newName + "\nSerial Number: " + Or(f.ontSn, "-")
                else "Dari: " + Or(f.onuName, "-") + "\nMenjadi: " + newName + "\nMAC Address: " + Or(f.macAddr, "-");
    head + body + (if save.Err? then "\n\n" + SaveWarning(save.error.message) else "")
  }

  function SaveWarning(message: string): string {
    "\U{26A0}\U{FE0F} Namun gagal menyimpan konfigurasi: " + message
  }

  /** The rename once an ONU `f` is found (and, for GPON, has an identifier). */
  function RenameSend(gpon: bool, onuName: string, newName: string, f: Row, post: Result<Reply>, save: Result<Reply>): Effect
    requires gpon ==> HasValue(f.identifier)
  {
    var cmd := if gpon then GponInfoSet(f.identifier.value, 8, newName, Or(f.description, "No-description"))
               else EponConfigSet(f.portId, f.onuId, 8, Some(newName), Some(Or(f.description, "")));
    match post
    case Err(e) => Effect([cmd], Err(Error(RenameErrorPrefix + e.message)))
    case Ok(resp) =>
      if Acknowledged(resp) then Effect([cmd, SystemSave], Ok(RenameDoneText(gpon, f, newName, save)))
      else Effect([cmd], Ok("Gagal mengubah nama ONU " + onuName + "."))
  }

  /** `changeOntName(onuName, newName)` (src/olt.js:699-912), given the outcomes of
      `onuTable()`, the rename POST and the `/system_save` POST. */
  function LegacyRename(gpon: bool, onuName: string, newName: string, table: Result<Payload>,
                        post: Result<Reply>, save: Result<Reply>): Effect {
    if IsBlank(onuName) then Effect([], Ok(BlankRenamePrompt))
    else if IsBlank(newName) then Effect([], Ok(BlankNewNamePrompt))
    else
      match table
      case Err(e) => Effect([], Err(Error(RenameErrorPrefix + e.message)))
      case Ok(payload) =>
        match LegacyFind(gpon, Lower(Trim(onuName)), payload)
        case Err(e) => Effect([], Err(Error(RenameErrorPrefix + e.message)))
        case Ok(None) => Effect([], Ok(NotFoundText(gpon, onuName)))
        case Ok(Some(f)) =>
          if gpon && !HasValue(f.identifier) then Effect([], Ok(NoIdentifierText(onuName)))
          else RenameSend(gpon, onuName, newName, f, post, save)
  }

  /** Both names are checked before the table is read, and a command goes out only
      for a found ONU that (for GPON) carries an identifier. */
  lemma LegacyRenameGuards(gpon: bool, onuName: string, newName: string, table: Result<Payload>,
                           post: Result<Reply>, save: Result<Reply>)
    ensures IsBlank(onuName) ==> LegacyRename(gpon, onuName, newName, table, post, save) == Effect([], Ok(BlankRenamePrompt))
    ensures !IsBlank(onuName) && IsBlank(newName) ==>
      LegacyRename(gpon, onuName, newName, table, post, save) == Effect([], Ok(BlankNewNamePrompt))
    ensures var e := LegacyRename(gpon, onuName, newName, table, post, save);
      e.commands != [] ==>
        !IsBlank(onuName) && !IsBlank(newName) && table.Ok?
        && LegacyFind(gpon, Lower(Trim(onuName)), table.value).Ok?
        && LegacyFind(gpon, Lower(Trim(onuName)), table.value).value.Some?
        && var f := LegacyFind(gpon, Lower(Trim(onuName)), table.value).value.value;
           (gpon ==> HasValue(f.identifier)) && e == RenameSend(gpon, onuName, newName, f, post, save)
  {
  }

  /** An answered rename is a success exactly when acknowledged; an acknowledged one
      is followed by a save, and the reply is a success even when the save throws,
      with the save's error appended (src/olt.js:765-808). */
  lemma LegacyRenameAck(gpon: bool, onuName: string, newName: string, f: Row, resp: Reply, save: Result<Reply>)
    requires gpon ==> HasValue(f.identifier)
    ensures var e := RenameSend(gpon, onuName, newName, f, Ok(resp), save);
      e.result.Ok? && (StartsWith(e.result.value, "\U{2705}") <==> Acknowledged(resp))
      && (Acknowledged(resp) <==> |e.commands| == 2 && e.commands[1] == SystemSave)
      && (Acknowledged(resp) && save.Err? ==> Contains(e.result.value, SaveWarning(save.error.message)))
  {
    var e := RenameSend(gpon, onuName, newName, f, Ok(resp), save);
    StartsWithChar(e.result.value, '\U{2705}');
    if !Acknowledged(resp) {
      HeadOfConcat("Gagal mengubah nama ONU ", onuName + ".");
    } else {
      var t := e.result.value;
      var head := if save.Ok? then "\U{2705} Nama ONU berhasil diubah dan disimpan!\n" else "\U{2705} Nama ONU berhasil diubah!\n";
      assert t == head + t[|head|..];
      HeadOfConcat(head, t[|head|..]);
      if save.Err? {
        var w := SaveWarning(save.error.message);
        var front := t[..|t| - |w|];
        assert t == front + w;
        ContainsSuffix(front, w);
      }
    }
  }
}
