/**
 * The control flow of `run` (main.py, lines 28-91) as a pure function from
 * what the outside world did to the trace of what the program did.
 *
 * The cookie file, the browser and the platform are inputs: the cookie file
 * as it was found, and `Observations` holding every answer the driver gave
 * (URLs, counts, which action raised). The result is the ordered trace of
 * events the run produced and the cookie file as the run left it. The browser
 * launch and the opening of the page (lines 25-26 and 39, outside every
 * `try`) are assumed to succeed; from there on, `Run` is total: every later
 * raise is caught, so there is no input on which the run stops early.
 */
module Workflow {
  import opened Strings
  import opened Credentials
  import opened Settings
  import opened Steps

  /** One browser cookie, as Playwright's `context.cookies()` reports it. */
  datatype Cookie = Cookie(
    name: string, value: string, domain: string, path: string,
    expires: int, httpOnly: bool, secure: bool, sameSite: string)

  /** The cookie file `sliplane_cookies.json` as the run finds or leaves it. */
  datatype CookieStore =
    | NoFile
    | Unreadable                 // present, but reading it as JSON raises
    | Holds(cookies: seq<Cookie>)

  /** How writing the cookie file went. */
  datatype SaveOutcome =
    | Written
    | NotWritten          // reading the cookies or opening the file raised; the file is untouched
    | WriteInterrupted    // `json.dump` raised after `open(..., "w")` truncated the file

  /** Everything the driver and the platform answered during one run. */
  datatype Observations = Observations(
    cookiesRejected: bool,       // `context.add_cookies` raised on a readable file
    probeRun: DriverRun,         // the driver on the probe of the login page
    probeUrl: string,            // the URL once the probe completed
    loginRun: DriverRun,         // the driver on the login plan
    postLoginUrl: string,        // the URL after the login plan completed
    sessionCookies: seq<Cookie>, // `context.cookies()` after the login
    save: SaveOutcome,
    serversListed: nat,          // how many server lists the servers page shows
    deleteRun: DriverRun,
    createRun: DriverRun,        // the driver on the create plan with the primary "Deploy Service" button
    fallbackRun: DriverRun,      // the driver from the fallback button on, once the primary one raised
    deployRun: DriverRun,
    cleanupRun: DriverRun)

  datatype Step = DeleteServer | CreateServer | DeployService

  datatype StepOutcome = StepOutcome(step: Step, succeeded: bool)

  datatype Event =
    | CookiesLoaded(cookies: seq<Cookie>)  // line 35
    | CookieLoadFailed                     // line 37
    | Did(action: UiAction)                // a driver call that completed
    | LoginStarted                         // line 52
    | LoginSucceeded                       // line 57
    | CookiesSaved(cookies: seq<Cookie>)   // line 62
    | LoginFailed                          // line 67: anything raised in lines 42-65
    | StepStarted(step: Step)
    | StepEnded(outcome: StepOutcome)      // a failure is the log of line 73, 78 or 83
    | CleanupFailed                        // line 91

  datatype SessionResult = SessionResult(events: seq<Event>, store: CookieStore)

  datatype RunResult = RunResult(trace: seq<Event>, store: CookieStore)

  /** Each completed driver call as an event, in order. */
  function Performed(actions: seq<UiAction>): (es: seq<Event>)
    ensures |es| == |actions|
    ensures forall i :: 0 <= i < |es| ==> es[i] == Did(actions[i])
  {
    if |actions| == 0 then [] else [Did(actions[0])] + Performed(actions[1..])
  }

  /** The completed calls of `Performed(actions)` are exactly the actions. */
  lemma PerformedMembers(actions: seq<UiAction>)
    ensures forall a :: Did(a) in Performed(actions) <==> a in actions
    ensures forall e :: e in Performed(actions) ==> e.Did?
  {
    var es := Performed(actions);
    assert forall i :: 0 <= i < |es| ==> es[i].Did?;
    forall a | Did(a) in es
      ensures a in actions
    {
      var i :| 0 <= i < |es| && es[i] == Did(a);
      assert actions[i] == a;
    }
    forall a | a in actions
      ensures Did(a) in es
    {
      var i :| 0 <= i < |actions| && actions[i] == a;
      assert es[i] == Did(a);
    }
  }

  // ---------------------------------------------------------------------
  // Session: load cookies, probe, log in if needed, persist

  /** Lines 28-37: a missing file is skipped, a failing load is logged and ignored. */
  function LoadCookies(store: CookieStore, rejected: bool): (es: seq<Event>)
    ensures es == [] <==> store == NoFile
    ensures CookieLoadFailed in es <==> store == Unreadable || (store.Holds? && rejected)
    ensures forall c :: CookiesLoaded(c) in es <==> store == Holds(c) && !rejected
  {
    match store
    case NoFile => []
    case Unreadable => [CookieLoadFailed]
    case Holds(cookies) => if rejected then [CookieLoadFailed] else [CookiesLoaded(cookies)]
  }

  /** The probe completed and the cached session did not land in the app, so a password login follows. */
  predicate ProbeLacksApp(obs: Observations) {
    !Execute(ProbePlan, obs.probeRun).raised && !Contains(obs.probeUrl, AppPath)
  }

  /** The login plan ran to completion and its redirect reached the app. */
  predicate LoginReachedApp(creds: Credentials, obs: Observations) {
    !Execute(LoginPlan(creds.username, creds.password), obs.loginRun).raised
    && Contains(obs.postLoginUrl, AppPath)
  }

  /** A password login was needed, ran to completion and its redirect reached the app. */
  predicate FreshLoginSucceeded(creds: Credentials, obs: Observations) {
    ProbeLacksApp(obs) && LoginReachedApp(creds, obs)
  }

  /** A password login was needed and its plan ran to completion, but the redirect missed the app (the case of line 64). */
  predicate RedirectMissed(creds: Credentials, obs: Observations) {
    ProbeLacksApp(obs)
    && !Execute(LoginPlan(creds.username, creds.password), obs.loginRun).raised
    && !Contains(obs.postLoginUrl, AppPath)
  }

  /**
   * Lines 55-67: what follows the login plan. A login that did not reach the
   * app is logged as failed; one that did is logged as a success, then the
   * cookies are saved, and a save that raises is logged as a failure too.
   */
  function LoginEnding(reached: bool, store: CookieStore, obs: Observations): (r: SessionResult)
    ensures LoginSucceeded in r.events <==> reached
    ensures LoginStarted !in r.events && forall e :: e in r.events ==> !e.Did?
    ensures r.store != store ==> reached && obs.save != NotWritten
  {
    if !reached then SessionResult([LoginFailed], store)
    else match obs.save
      case Written => SessionResult([LoginSucceeded, CookiesSaved(obs.sessionCookies)], Holds(obs.sessionCookies))
      case NotWritten => SessionResult([LoginSucceeded, LoginFailed], store)
      case WriteInterrupted => SessionResult([LoginSucceeded, LoginFailed], Unreadable)
  }

  /** Lines 50-67: the password login, then its ending. */
  function PasswordLogin(creds: Credentials, store: CookieStore, obs: Observations): (r: SessionResult)
    ensures |r.events| > 0 && r.events[0] == LoginStarted
    ensures LoginSucceeded in r.events <==> LoginReachedApp(creds, obs)
    ensures r.store != store ==> LoginReachedApp(creds, obs) && obs.save != NotWritten
  {
    var login := Execute(LoginPlan(creds.username, creds.password), obs.loginRun);
    var ending := LoginEnding(!login.raised && Contains(obs.postLoginUrl, AppPath), store, obs);
    PerformedMembers(login.performed);
    SessionResult([LoginStarted] + Performed(login.performed) + ending.events, ending.store)
  }


  /**
   * Lines 41-67: probe the cached session; log in and persist the cookies
   * only if it is not valid. Anything raised ends the phase with one logged
   * failure; the cookie file changes only on a fresh login that reached the app.
   */
  function Authenticate(creds: Credentials, store: CookieStore, obs: Observations): (r: SessionResult)
    ensures r.store != store ==> FreshLoginSucceeded(creds, obs) && obs.save != NotWritten
  {
    var probe := Execute(ProbePlan, obs.probeRun);
    var visit := Performed(probe.performed);
    if probe.raised then SessionResult(visit + [LoginFailed], store)
    else if Contains(obs.probeUrl, AppPath) then SessionResult(visit, store)
    else
      var login := PasswordLogin(creds, store, obs);
      SessionResult(visit + login.events, login.store)
  }

  /** An event the session phase may log: a driver call, the login start, its success or failure, a save. */
  predicate SessionKind(e: Event) {
    e.Did? || e.LoginStarted? || e.LoginSucceeded? || e.LoginFailed? || e.CookiesSaved?
  }

  /** The password login only starts, runs its plan, logs its success or failure and saves. */
  lemma PasswordLoginKinds(creds: Credentials, store: CookieStore, obs: Observations)
    ensures forall e :: e in PasswordLogin(creds, store, obs).events ==> SessionKind(e)
    ensures forall a :: Did(a) in PasswordLogin(creds, store, obs).events ==> a in LoginPlan(creds.username, creds.password)
  {
    var events := PasswordLogin(creds, store, obs).events;
    var login := Execute(LoginPlan(creds.username, creds.password), obs.loginRun);
    var ending := LoginEnding(!login.raised && Contains(obs.postLoginUrl, AppPath), store, obs).events;
    var perf := Performed(login.performed);
    assert events == [LoginStarted] + perf + ending;
    assert forall e :: e in ending ==> SessionKind(e) && !e.Did? by {
      assert ending == [LoginFailed] || ending[0] == LoginSucceeded;
    }
    assert forall e :: e in perf ==> e.Did? by {
      PerformedMembers(login.performed);
    }
    assert forall a :: Did(a) in perf ==> a in LoginPlan(creds.username, creds.password) by {
      PerformedMembers(login.performed);
      assert forall a :: a in login.performed ==> a in LoginPlan(creds.username, creds.password);
    }
  }

  /** The session phase only navigates, logs in, saves cookies and logs its success or failure. */
  lemma SessionEventKinds(creds: Credentials, store: CookieStore, obs: Observations)
    ensures forall e :: e in Authenticate(creds, store, obs).events ==> SessionKind(e)
    ensures forall a :: Did(a) in Authenticate(creds, store, obs).events ==>
      a in ProbePlan || a in LoginPlan(creds.username, creds.password)
  {
    var events := Authenticate(creds, store, obs).events;
    var probe := Execute(ProbePlan, obs.probeRun);
    PerformedMembers(probe.performed);
    assert forall a :: a in probe.performed ==> a in ProbePlan;
    var visit := Performed(probe.performed);
    if !probe.raised && !Contains(obs.probeUrl, AppPath) {
      assert events == visit + PasswordLogin(creds, store, obs).events;
      PasswordLoginKinds(creds, store, obs);
    }
  }

  // ---------------------------------------------------------------------
  // Steps and cleanup

  /** One step wrapped in its own try/except (lines 70-83): its start, the calls done, its outcome. */
  function Wrapped(step: Step, attempt: Attempt): (es: seq<Event>)
    ensures |es| == |attempt.performed| + 2
    ensures es[0] == StepStarted(step) && es[|es| - 1] == StepEnded(StepOutcome(step, !attempt.raised))
    ensures forall k :: 0 <= k < |attempt.performed| ==> es[k + 1] == Did(attempt.performed[k])
  {
    [StepStarted(step)] + Performed(attempt.performed) + [StepEnded(StepOutcome(step, !attempt.raised))]
  }

  /** What the driver let each step do (lines 75, 80, 82). */
  function StepAttempt(step: Step, s: Settings, obs: Observations): Attempt {
    match step
    case DeleteServer => Execute(DeletePlan(s.serverName, obs.serversListed), obs.deleteRun)
    case CreateServer => CreateAttempt(s.serverName, obs.createRun, obs.fallbackRun)
    case DeployService => Execute(DeployPlan(s.serverName, s.image, s.envBlock), obs.deployRun)
  }

  function DeleteEvents(s: Settings, obs: Observations): seq<Event> {
    Wrapped(DeleteServer, StepAttempt(DeleteServer, s, obs))
  }

  function CreateEvents(s: Settings, obs: Observations): seq<Event> {
    Wrapped(CreateServer, StepAttempt(CreateServer, s, obs))
  }

  function DeployEvents(s: Settings, obs: Observations): seq<Event> {
    Wrapped(DeployService, StepAttempt(DeployService, s, obs))
  }

  /** Lines 86-91: closing page, context and browser; a failure is logged, after the closes that were done. */
  function CleanupEvents(run: DriverRun): (es: seq<Event>)
    ensures CleanupFailed in es <==> Execute(CleanupPlan, run).raised
    ensures CleanupFailed in es ==> es[|es| - 1] == CleanupFailed
    ensures |es| > 0 && (es[|es| - 1] == CleanupFailed || es[|es| - 1] == Did(Close(Browser)))
  {
    var attempt := Execute(CleanupPlan, run);
    Performed(attempt.performed) + (if attempt.raised then [CleanupFailed] else [])
  }

  /**
   * Lines 28-91: load the cookies, authenticate, run the three steps, clean
   * up. The trace always ends with the browser closed or the cleanup failure
   * logged, and the cookie file changes only on a fresh login that reached the app.
   */
  function Run(s: Settings, store: CookieStore, obs: Observations): (r: RunResult)
    ensures |r.trace| > 0
    ensures r.trace[|r.trace| - 1] == CleanupFailed || r.trace[|r.trace| - 1] == Did(Close(Browser))
    ensures r.store != store ==> FreshLoginSucceeded(s.credentials, obs) && obs.save != NotWritten
  {
    var session := Authenticate(s.credentials, store, obs);
    var trace :=
      LoadCookies(store, obs.cookiesRejected)
      + session.events
      + DeleteEvents(s, obs)
      + CreateEvents(s, obs)
      + DeployEvents(s, obs)
      + CleanupEvents(obs.cleanupRun);
    RunResult(trace, session.store)
  }

  // ---------------------------------------------------------------------
  // Reading a trace

  /** What `pick` selects from each event (nothing, or one item), in trace order. */
  function Collect<T>(t: seq<Event>, pick: Event -> seq<T>): seq<T> {
    if |t| == 0 then [] else pick(t[0]) + Collect(t[1..], pick)
  }

  lemma {:induction false} CollectAppend<T>(a: seq<Event>, b: seq<Event>, pick: Event -> seq<T>)
    ensures Collect(a + b, pick) == Collect(a, pick) + Collect(b, pick)
    decreases |a|
  {
    if |a| == 0 {
      assert a + b == b;
    } else {
      assert (a + b)[1..] == a[1..] + b;
      CollectAppend(a[1..], b, pick);
    }
  }

  lemma {:induction false} CollectSkipsActions<T>(actions: seq<UiAction>, pick: Event -> seq<T>)
    requires forall a :: pick(Did(a)) == []
    ensures Collect(Performed(actions), pick) == []
    decreases |actions|
  {
    if |actions| > 0 {
      assert Performed(actions)[1..] == Performed(actions[1..]);
      CollectSkipsActions(actions[1..], pick);
    }
  }

  function StartOf(e: Event): seq<Step> {
    if e.StepStarted? then [e.step] else []
  }

  function OutcomeOf(e: Event): seq<StepOutcome> {
    if e.StepEnded? then [e.outcome] else []
  }

  function SavedOf(e: Event): seq<seq<Cookie>> {
    if e.CookiesSaved? then [e.cookies] else []
  }

  /** The steps started, in order. */
  function StepsStarted(t: seq<Event>): seq<Step> {
    Collect(t, StartOf)
  }

  /** The per-step outcome log (lines 70-83), in order. */
  function Outcomes(t: seq<Event>): seq<StepOutcome> {
    Collect(t, OutcomeOf)
  }

  /** Event `y` comes directly after event `x` somewhere in `t`. */
  predicate Follows(t: seq<Event>, x: Event, y: Event) {
    exists i :: 0 <= i < |t| - 1 && t[i] == x && t[i + 1] == y
  }

  /** Every cookie set written to the cookie file, in order. */
  function Saves(t: seq<Event>): seq<seq<Cookie>> {
    Collect(t, SavedOf)
  }
}
