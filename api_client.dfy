/** The session-token cache and bounded retry of `src/utils/api.js`, the HTTP client
    the bot's services use. The module-level `xToken`/`tokenExpiration` pair is the
    state of a `TokenClient`; each login and each API call is a scripted outcome, and
    `Date.now()` is the clock reading the script supplies for each attempt. */
module ApiClient {
  import opened Wrappers
  import opened Wire

  /** A fresh token is trusted for 30 minutes. */
  const TokenLifetimeMs := 1800000
  const DefaultMaxRetries := 2
  /** The pause before retrying after a thrown error. */
  const RetryDelayMs := 1000

  const NoTokenMessage := "No token found in response headers"
  const RetriesExhaustedMessage := "Token authentication failed after maximum retries"
  const AllAttemptsFailedMessage := "All API request attempts failed"

  /** The pair (`xToken`, `tokenExpiration`). */
  datatype Session = Session(token: string, expiration: int)

  /** `xToken && currentTime < tokenExpiration` */
  predicate Reusable(s: Session, now: int) {
    s.token != "" && now < s.expiration
  }

  /** The login POST resolves with the `x-token` response header (maybe absent), or throws. */
  datatype LoginOutcome = LoginReturned(header: Option<string>) | LoginThrew(error: Error)

  /** The API call resolves with a reply, or throws. */
  datatype CallOutcome = CallReturned(reply: Reply) | CallThrew(error: Error)

  /** What the world does during one attempt: the clock reading `getToken` takes, the
      login outcome (used only if a login is made) and the API call's outcome. */
  datatype Attempt = Attempt(now: int, login: LoginOutcome, call: CallOutcome)

  datatype Request = Get(endpoint: string) | Post(endpoint: string)

  /** What the client does to the outside world, in order. */
  datatype Event = LoginRequest(at: int) | Sent(request: Request, token: string) | Wait(ms: int)

  /** The effect of one `getToken()`: new session, value or error, events. */
  datatype TokenStep = TokenStep(session: Session, result: Result<string>, events: seq<Event>)

  /** `getToken()` (src/utils/api.js:23-71). */
  function GetTokenStep(s: Session, now: int, login: LoginOutcome): TokenStep {
    if Reusable(s, now) then TokenStep(s, Ok(s.token), [])
    else
      match login
      case LoginThrew(e) => TokenStep(s, Err(e), [LoginRequest(now)])
      case LoginReturned(h) =>
        if Has(h) then TokenStep(Session(h.value, now + TokenLifetimeMs), Ok(h.value), [LoginRequest(now)])
        else TokenStep(s, Err(Error(NoTokenMessage)), [LoginRequest(now)])
  }

  /** A held token that has not expired is returned without a login. */
  lemma GetTokenReuses(s: Session, now: int, login: LoginOutcome)
    requires Reusable(s, now)
    ensures GetTokenStep(s, now, login) == TokenStep(s, Ok(s.token), [])
  {
  }

  /** Otherwise exactly one login is made, stamped with the time read before it; a
      header is stored with an expiration 30 minutes after that time; a missing or
      empty header and a transport error both fail and leave the session as it was. */
  lemma GetTokenLogsIn(s: Session, now: int, login: LoginOutcome)
    requires !Reusable(s, now)
    ensures GetTokenStep(s, now, login).events == [LoginRequest(now)]
    ensures login.LoginReturned? && Has(login.header) ==>
      GetTokenStep(s, now, login).session == Session(login.header.value, now + TokenLifetimeMs)
      && GetTokenStep(s, now, login).result == Ok(login.header.value)
    ensures login.LoginReturned? && !Has(login.header) ==>
      GetTokenStep(s, now, login) == TokenStep(s, Err(Error(NoTokenMessage)), [LoginRequest(now)])
    ensures login.LoginThrew? ==>
      GetTokenStep(s, now, login) == TokenStep(s, Err(login.error), [LoginRequest(now)])
  {
  }

  /** A token handed out is the one now held, it is never empty, and it is still
      reusable at the moment it is handed out. */
  lemma GetTokenHandsOutHeldToken(s: Session, now: int, login: LoginOutcome)
    ensures var g := GetTokenStep(s, now, login);
      g.result.Ok? ==> g.result.value == g.session.token && Reusable(g.session, now)
    ensures GetTokenStep(s, now, login).result.Err? ==> GetTokenStep(s, now, login).session == s
  {
  }

  /** What one pass of the retry loop ends in: the reply to return, the error to
      throw, or another attempt from the given session. */
  datatype Step =
    | Returned(session: Session, reply: Reply, events: seq<Event>)
    | Gave(session: Session, error: Error, events: seq<Event>)
    | Again(session: Session, events: seq<Event>)

  /** The `catch` block: wait and go on unless this was the last attempt. */
  function Caught(s: Session, e: Error, events: seq<Event>, attempt: int, maxRetries: int): Step {
    if attempt < maxRetries then Again(s, events + [Wait(RetryDelayMs)]) else Gave(s, e, events)
  }

  /** Attempt number `attempt` (1-based, already incremented) of the loop body. */
  function AttemptStep(s: Session, request: Request, a: Attempt, attempt: int, maxRetries: int): Step {
    var g := GetTokenStep(s, a.now, a.login);
    match g.result
    case Err(e) => Caught(g.session, e, g.events, attempt, maxRetries)
    case Ok(_) =>
      var sent := g.events + [Sent(request, g.session.token)];
      match a.call
      case CallThrew(e) => Caught(g.session, e, sent, attempt, maxRetries)
      case CallReturned(r) =>
        if IsTokenRejection(r) then
          if attempt < maxRetries then Again(g.session.(token := ""), sent)
          else Caught(g.session, Error(RetriesExhaustedMessage), sent, attempt, maxRetries)
        else Returned(g.session, r, sent)
  }

  /** The whole of a `handleTokenFailure` call: final session, outcome, events. */
  datatype Run = Run(session: Session, result: Result<Reply>, events: seq<Event>)

  function Prefixed(events: seq<Event>, run: Run): Run {
    run.(events := events + run.events)
  }

  /** `handleTokenFailure(apiCall, maxRetries)` from the point where `done` attempts
      have been made (src/utils/api.js:79-117); `script(k)` is attempt `k + 1`. */
  function Retry(s: Session, request: Request, script: nat -> Attempt, done: nat, maxRetries: int): Run
    decreases maxRetries - done
  {
    if done >= maxRetries then Run(s, Err(Error(AllAttemptsFailedMessage)), [])
    else
      match AttemptStep(s, request, script(done), done + 1, maxRetries)
      case Returned(s', r, evs) => Run(s', Ok(r), evs)
      case Gave(s', e, evs) => Run(s', Err(e), evs)
      case Again(s', evs) => Prefixed(evs, Retry(s', request, script, done + 1, maxRetries))
  }

  /** One unfolding of `Retry`: the first attempt's step, then the rest. */
  lemma RetryUnfold(s: Session, request: Request, script: nat -> Attempt, done: nat, maxRetries: int)
    requires done < maxRetries
    ensures var st := AttemptStep(s, request, script(done), done + 1, maxRetries);
      Retry(s, request, script, done, maxRetries) ==
        match st
        case Returned(s', r, evs) => Run(s', Ok(r), evs)
        case Gave(s', e, evs) => Run(s', Err(e), evs)
        case Again(s', evs) => Prefixed(evs, Retry(s', request, script, done + 1, maxRetries))
  {
  }

  lemma PrefixedTwice(a: seq<Event>, b: seq<Event>, run: Run)
    ensures Prefixed(a, Prefixed(b, run)) == Prefixed(a + b, run)
  {
    assert a + (b + run.events) == (a + b) + run.events;
  }

  lemma AppendAssoc(a: seq<Event>, b: seq<Event>, c: seq<Event>)
    ensures (a + b) + c == a + (b + c)
  {
  }

  /** The number of API calls among the events. */
  function CallCount(events: seq<Event>): nat {
    if events == [] then 0 else (if events[0].Sent? then 1 else 0) + CallCount(events[1..])
  }

  lemma {:induction false} CallCountAppend(a: seq<Event>, b: seq<Event>)
    ensures CallCount(a + b) == CallCount(a) + CallCount(b)
    decreases |a|
  {
    if a == [] {
      assert a + b == b;
    } else {
      CallCountAppend(a[1..], b);
      assert (a + b)[1..] == a[1..] + b;
    }
  }

  lemma StepCallCount(s: Session, request: Request, a: Attempt, attempt: int, maxRetries: int)
    ensures CallCount(AttemptStep(s, request, a, attempt, maxRetries).events) <= 1
  {
    var g := GetTokenStep(s, a.now, a.login);
    assert CallCount(g.events) == 0;
    CallCountAppend(g.events, [Sent(request, g.session.token)]);
    CallCountAppend(g.events, [Wait(RetryDelayMs)]);
    CallCountAppend(g.events + [Sent(request, g.session.token)], [Wait(RetryDelayMs)]);
  }

  /** `apiCall` is invoked at most `maxRetries` times, and not at all when
      `maxRetries` is not positive (src/utils/api.js:80-83). */
  lemma {:induction false} RetryCallsBounded(s: Session, request: Request, script: nat -> Attempt, done: nat, maxRetries: int)
    ensures CallCount(Retry(s, request, script, done, maxRetries).events) <= if done < maxRetries then maxRetries - done else 0
    decreases maxRetries - done
  {
    if done < maxRetries {
      var st := AttemptStep(s, request, script(done), done + 1, maxRetries);
      StepCallCount(s, request, script(done), done + 1, maxRetries);
      if st.Again? {
        RetryCallsBounded(st.session, request, script, done + 1, maxRetries);
        CallCountAppend(st.events, Retry(st.session, request, script, done + 1, maxRetries).events);
      }
    }
  }

  /** With no attempts allowed, nothing is sent and the fixed error is thrown. */
  lemma RetryNoAttempts(s: Session, request: Request, script: nat -> Attempt, maxRetries: int)
    requires maxRetries <= 0
    ensures Retry(s, request, script, 0, maxRetries) == Run(s, Err(Error(AllAttemptsFailedMessage)), [])
  {
  }

  /** A resolved value is a reply the script produced for some allowed attempt, and it
      is not the token-rejection marker: every other reply is returned unchanged. */
  lemma {:induction false} RetryReturnsScriptedReply(s: Session, request: Request, script: nat -> Attempt, done: nat, maxRetries: int)
    requires Retry(s, request, script, done, maxRetries).result.Ok?
    ensures var r := Retry(s, request, script, done, maxRetries).result.value;
      !IsTokenRejection(r)
      && exists k :: done <= k < maxRetries && script(k).call == CallReturned(r)
    decreases maxRetries - done
  {
    var st := AttemptStep(s, request, script(done), done + 1, maxRetries);
    if st.Again? {
      RetryReturnsScriptedReply(st.session, request, script, done + 1, maxRetries);
      var r := Retry(s, request, script, done, maxRetries).result.value;
      var k :| done + 1 <= k < maxRetries && script(k).call == CallReturned(r);
    } else {
      assert script(done).call == CallReturned(st.reply);
    }
  }

  /** Every API call among the events carries a non-empty token. */
  predicate CallsCarryToken(events: seq<Event>) {
    forall i :: 0 <= i < |events| && events[i].Sent? ==> events[i].token != ""
  }

  /** The call is made only after `getToken` succeeded, so it always carries a token. */
  lemma {:induction false} RetrySendsOnlyWithToken(s: Session, request: Request, script: nat -> Attempt, done: nat, maxRetries: int)
    ensures CallsCarryToken(Retry(s, request, script, done, maxRetries).events)
    decreases maxRetries - done
  {
    if done < maxRetries {
      var st := AttemptStep(s, request, script(done), done + 1, maxRetries);
      assert CallsCarryToken(st.events);
      if st.Again? {
        var rest := Retry(st.session, request, script, done + 1, maxRetries);
        RetrySendsOnlyWithToken(st.session, request, script, done + 1, maxRetries);
        var evs := st.events + rest.events;
        forall i | 0 <= i < |evs| && evs[i].Sent? ensures evs[i].token != "" {
          if i >= |st.events| {
            assert evs[i] == rest.events[i - |st.events|];
          } else {
            assert evs[i] == st.events[i];
          }
        }
        assert Retry(s, request, script, done, maxRetries).events == evs;
      }
    }
  }

  /** A token rejection before the last attempt clears the token but keeps its
      expiration, does not wait, and so makes the next attempt log in whatever the
      clock says (src/utils/api.js:93-97). */
  lemma RejectionClearsTokenOnly(s: Session, request: Request, a: Attempt, attempt: int, maxRetries: int)
    requires GetTokenStep(s, a.now, a.login).result.Ok?
    requires a.call.CallReturned? && IsTokenRejection(a.call.reply)
    requires attempt < maxRetries
    ensures var g := GetTokenStep(s, a.now, a.login);
      AttemptStep(s, request, a, attempt, maxRetries)
        == Again(Session("", g.session.expiration), g.events + [Sent(request, g.session.token)])
    ensures forall now, login :: GetTokenStep(Session("", GetTokenStep(s, a.now, a.login).session.expiration), now, login).events == [LoginRequest(now)]
  {
  }

  /** A thrown error before the last attempt waits 1000 ms and keeps the session, so
      the next attempt reuses the token while it is unexpired (src/utils/api.js:105-111). */
  lemma ThrowKeepsSession(s: Session, request: Request, a: Attempt, attempt: int, maxRetries: int)
    requires a.call.CallThrew? && attempt < maxRetries
    ensures var g := GetTokenStep(s, a.now, a.login);
      var st := AttemptStep(s, request, a, attempt, maxRetries);
      st.Again? && st.session == g.session && st.events[|st.events| - 1] == Wait(RetryDelayMs)
  {
  }

  predicate LoginGivesToken(a: Attempt) {
    a.login.LoginReturned? && Has(a.login.header)
  }

  /** If every attempt gets a token and every reply is the rejection marker, the call
      ends in 'Token authentication failed after maximum retries' without ever
      waiting (src/utils/api.js:93-100). */
  lemma {:induction false} PersistentRejectionFails(s: Session, request: Request, script: nat -> Attempt, done: nat, maxRetries: int)
    requires done < maxRetries
    requires forall k :: done <= k < maxRetries ==>
      LoginGivesToken(script(k)) && script(k).call.CallReturned? && IsTokenRejection(script(k).call.reply)
    ensures Retry(s, request, script, done, maxRetries).result == Err(Error(RetriesExhaustedMessage))
    ensures Wait(RetryDelayMs) !in Retry(s, request, script, done, maxRetries).events
    decreases maxRetries - done
  {
    var st := AttemptStep(s, request, script(done), done + 1, maxRetries);
    if done + 1 < maxRetries {
      assert st.Again?;
      PersistentRejectionFails(st.session, request, script, done + 1, maxRetries);
    }
  }

  /** If every call throws, the error of the last attempt propagates, after a wait
      before each retry (src/utils/api.js:105-112). */
  lemma {:induction false} PersistentThrowPropagates(s: Session, request: Request, script: nat -> Attempt, done: nat, maxRetries: int)
    requires done < maxRetries
    requires forall k :: done <= k < maxRetries ==> LoginGivesToken(script(k)) && script(k).call.CallThrew?
    ensures Retry(s, request, script, done, maxRetries).result == Err(script(maxRetries - 1).call.error)
    ensures Retry(s, request, script, done, maxRetries).session.token != ""
    decreases maxRetries - done
  {
    var st := AttemptStep(s, request, script(done), done + 1, maxRetries);
    if done + 1 < maxRetries {
      assert st.Again?;
      PersistentThrowPropagates(st.session, request, script, done + 1, maxRetries);
    }
  }

  /** The recovery the retry exists for: under the default two attempts, a held token
      the OLT rejects is dropped, a login is made even though the token had not
      expired, and the second reply is returned with the new token held. */
  lemma RecoversFromRejectedToken(s: Session, request: Request, script: nat -> Attempt, newToken: string, r: Reply)
    requires Reusable(s, script(0).now) && Reusable(s, script(1).now)
    requires script(0).call.CallReturned? && IsTokenRejection(script(0).call.reply)
    requires script(1).login == LoginReturned(Some(newToken)) && newToken != ""
    requires script(1).call == CallReturned(r) && !IsTokenRejection(r)
    ensures Retry(s, request, script, 0, DefaultMaxRetries)
      == Run(Session(newToken, script(1).now + TokenLifetimeMs), Ok(r),
             [Sent(request, s.token), LoginRequest(script(1).now), Sent(request, newToken)])
  {
    var st := AttemptStep(s, request, script(0), 1, DefaultMaxRetries);
    assert st == Again(Session("", s.expiration), [Sent(request, s.token)]);
  }

  /** The module-level token state of `src/utils/api.js` and the log of what it has
      sent, as an object. */
  class TokenClient {
    var xToken: string
    var tokenExpiration: int
    var log: seq<Event>

    function Held(): Session
      reads this
    {
      Session(xToken, tokenExpiration)
    }

    /** `let xToken = ""; let tokenExpiration = 0;` (src/utils/api.js:16-17) */
    constructor ()
      ensures Held() == Session("", 0) && log == []
    {
      xToken := "";
      tokenExpiration := 0;
      log := [];
    }

    method GetToken(now: int, login: LoginOutcome) returns (r: Result<string>)
      modifies this
      ensures var g := GetTokenStep(old(Held()), now, login);
        r == g.result && Held() == g.session && log == old(log) + g.events
    {
      var currentTime := now;
      if xToken != "" && currentTime < tokenExpiration {
        return Ok(xToken);
      }
      log := log + [LoginRequest(currentTime)];
      match login
      case LoginThrew(e) =>
        r := Err(e);
      case LoginReturned(newToken) =>
        if newToken.Some? && newToken.value != "" {
          xToken := newToken.value;
          tokenExpiration := currentTime + TokenLifetimeMs;
          r := Ok(xToken);
        } else {
          r := Err(Error(NoTokenMessage));
        }
    }

    /** The body of the retry loop for attempt number `attempt`: the `try` block
        (get a token, call, inspect the reply) and the `catch` block (wait unless
        this was the last attempt). The step says whether to return, throw or go on. */
    method TryAttempt(request: Request, a: Attempt, attempt: int, maxRetries: int) returns (step: Step)
      modifies this
      ensures step == AttemptStep(old(Held()), request, a, attempt, maxRetries)
      ensures Held() == step.session && log == old(log) + step.events
    {
      var mark := |log|;
      var failure: Error;
      var token := GetToken(a.now, a.login);
      if token.Err? {
        failure := token.error;
      } else {
        log := log + [Sent(request, xToken)];
        match a.call
        case CallThrew(e) =>
          failure := e;
        case CallReturned(result) =>
          if IsTokenRejection(result) {
            if attempt < maxRetries {
              xToken := "";
              return Again(Held(), log[mark..]);
            }
            failure := Error(RetriesExhaustedMessage);
          } else {
            return Returned(Held(), result, log[mark..]);
          }
      }
      if attempt < maxRetries {
        log := log + [Wait(RetryDelayMs)];
        step := Again(Held(), log[mark..]);
      } else {
        step := Gave(Held(), failure, log[mark..]);
      }
    }

    /** `handleTokenFailure(apiCall, maxRetries)`; `script(k)` is what the world does
        during attempt `k + 1`. */
    method HandleTokenFailure(request: Request, script: nat -> Attempt, maxRetries: int) returns (r: Result<Reply>)
      modifies this
      ensures var run := Retry(old(Held()), request, script, 0, maxRetries);
        r == run.result && Held() == run.session && log == old(log) + run.events
    {
      ghost var start := Held();
      ghost var prior := log;
      ghost var emitted: seq<Event> := [];
      var attempt: nat := 0;
      while attempt < maxRetries
        invariant log == prior + emitted
        invariant Prefixed(emitted, Retry(Held(), request, script, attempt, maxRetries)) == Retry(start, request, script, 0, maxRetries)
        decreases maxRetries - attempt
      {
        RetryUnfold(Held(), request, script, attempt, maxRetries);
        var step := TryAttempt(request, script(attempt), attempt + 1, maxRetries);
        attempt := attempt + 1;
        AppendAssoc(prior, emitted, step.events);
        match step
        case Returned(_, result, events) =>
          assert Retry(start, request, script, 0, maxRetries) == Run(Held(), Ok(result), emitted + events);
          return Ok(result);
        case Gave(_, e, events) =>
          assert Retry(start, request, script, 0, maxRetries) == Run(Held(), Err(e), emitted + events);
          return Err(e);
        case Again(_, events) =>
          PrefixedTwice(emitted, events, Retry(Held(), request, script, attempt, maxRetries));
          emitted := emitted + events;
      }
      r := Err(Error(AllAttemptsFailedMessage));
    }

    /** `apiGet(endpoint)` with the default two attempts. */
    method ApiGet(endpoint: string, script: nat -> Attempt) returns (r: Result<Reply>)
      modifies this
      ensures var run := Retry(old(Held()), Get(endpoint), script, 0, DefaultMaxRetries);
        r == run.result && Held() == run.session && log == old(log) + run.events
    {
      r := HandleTokenFailure(Get(endpoint), script, DefaultMaxRetries);
    }

    /** `apiPost(endpoint, data)` with the default two attempts; the body is not modelled. */
    method ApiPost(endpoint: string, script: nat -> Attempt) returns (r: Result<Reply>)
      modifies this
      ensures var run := Retry(old(Held()), Post(endpoint), script, 0, DefaultMaxRetries);
        r == run.result && Held() == run.session && log == old(log) + run.events
    {
      r := HandleTokenFailure(Post(endpoint), script, DefaultMaxRetries);
    }
  }
}
