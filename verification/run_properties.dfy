/**
 * What every run of `Workflow.Run` guarantees, whatever the cookie file, the
 * platform and the driver did.
 */
module RunProperties {
  import opened Environ
  import opened Strings
  import opened Credentials
  import opened EnvBlock
  import opened Settings
  import opened Steps
  import opened Workflow

  /** No step starts or ends among these events, and no cookies are saved. */
  predicate NoStepEvents(t: seq<Event>) {
    forall i :: 0 <= i < |t| ==> !t[i].StepStarted? && !t[i].StepEnded? && !t[i].CookiesSaved?
  }

  lemma {:induction false} CollectNone<T>(t: seq<Event>, pick: Event -> seq<T>)
    requires forall i :: 0 <= i < |t| ==> pick(t[i]) == []
    ensures Collect(t, pick) == []
    decreases |t|
  {
    if |t| > 0 {
      CollectNone(t[1..], pick);
    }
  }

  lemma CollectOne<T>(e: Event, pick: Event -> seq<T>)
    ensures Collect([e], pick) == pick(e)
  {
    assert [e][1..] == [];
  }

  lemma {:induction false} QuietLog(t: seq<Event>)
    requires NoStepEvents(t)
    ensures StepsStarted(t) == [] && Outcomes(t) == [] && Saves(t) == []
  {
    CollectNone(t, StartOf);
    CollectNone(t, OutcomeOf);
    CollectNone(t, SavedOf);
  }

  /** A wrapped step selects exactly what its bracketing events carry. */
  lemma {:induction false} WrappedCollect<T>(step: Step, attempt: Attempt, pick: Event -> seq<T>)
    requires forall a :: pick(Did(a)) == []
    ensures Collect(Wrapped(step, attempt), pick)
      == Collect([StepStarted(step)], pick) + Collect([StepEnded(StepOutcome(step, !attempt.raised))], pick)
  {
    var head, body, tail := [StepStarted(step)], Performed(attempt.performed), [StepEnded(StepOutcome(step, !attempt.raised))];
    assert Wrapped(step, attempt) == (head + body) + tail;
    CollectAppend(head + body, tail, pick);
    CollectAppend(head, body, pick);
    CollectSkipsActions(attempt.performed, pick);
    assert Collect(head + body, pick) == Collect(head, pick);
  }

  /** A wrapped step logs its own start and exactly one outcome, and saves no cookies. */
  lemma {:induction false} WrappedLog(step: Step, attempt: Attempt)
    ensures StepsStarted(Wrapped(step, attempt)) == [step]
    ensures Outcomes(Wrapped(step, attempt)) == [StepOutcome(step, !attempt.raised)]
    ensures Saves(Wrapped(step, attempt)) == []
  {
    WrappedCollect(step, attempt, StartOf);
    WrappedCollect(step, attempt, OutcomeOf);
    WrappedCollect(step, attempt, SavedOf);
  }

  /** A wrapped step only starts, performs driver calls and ends; its calls are those the attempt did. */
  lemma {:induction false} WrappedKinds(step: Step, attempt: Attempt)
    ensures forall e :: e in Wrapped(step, attempt) ==> e.StepStarted? || e.Did? || e.StepEnded?
    ensures forall a :: Did(a) in Wrapped(step, attempt) <==> a in attempt.performed
  {
    var body := Performed(attempt.performed);
    assert Wrapped(step, attempt) == [StepStarted(step)] + body + [StepEnded(StepOutcome(step, !attempt.raised))];
    PerformedMembers(attempt.performed);
  }

  lemma {:induction false} SessionLog(creds: Credentials, store: CookieStore, obs: Observations)
    ensures StepsStarted(Authenticate(creds, store, obs).events) == []
    ensures Outcomes(Authenticate(creds, store, obs).events) == []
  {
    var es := Authenticate(creds, store, obs).events;
    SessionEventKinds(creds, store, obs);
    assert forall i :: 0 <= i < |es| ==> es[i] in es;
    CollectNone(es, StartOf);
    CollectNone(es, OutcomeOf);
  }

  /** Loading the cookie file logs only whether it worked. */
  lemma LoadLog(store: CookieStore, rejected: bool)
    ensures forall e :: e in LoadCookies(store, rejected) ==> e.CookiesLoaded? || e.CookieLoadFailed?
    ensures forall a :: Did(a) !in LoadCookies(store, rejected)
    ensures NoStepEvents(LoadCookies(store, rejected))
  {
  }

  lemma {:induction false} CleanupLog(run: DriverRun)
    ensures NoStepEvents(CleanupEvents(run))
    ensures forall e :: e in CleanupEvents(run) ==> e.Did? || e.CleanupFailed?
  {
    var attempt := Execute(CleanupPlan, run);
    PerformedMembers(attempt.performed);
  }

  /** What a run's trace yields to a selector, phase by phase. */
  lemma {:induction false} RunPhases<T>(s: Settings, store: CookieStore, obs: Observations, pick: Event -> seq<T>)
    ensures Collect(Run(s, store, obs).trace, pick)
      == Collect(LoadCookies(store, obs.cookiesRejected), pick)
       + Collect(Authenticate(s.credentials, store, obs).events, pick)
       + Collect(DeleteEvents(s, obs), pick)
       + Collect(CreateEvents(s, obs), pick)
       + Collect(DeployEvents(s, obs), pick)
       + Collect(CleanupEvents(obs.cleanupRun), pick)
  {
    var load, session := LoadCookies(store, obs.cookiesRejected), Authenticate(s.credentials, store, obs).events;
    var d, c, p, k := DeleteEvents(s, obs), CreateEvents(s, obs), DeployEvents(s, obs), CleanupEvents(obs.cleanupRun);
    CollectAppend(load + session + d + c + p, k, pick);
    CollectAppend(load + session + d + c, p, pick);
    CollectAppend(load + session + d, c, pick);
    CollectAppend(load + session, d, pick);
    CollectAppend(load, session, pick);
  }

  /** Sequence bookkeeping for six phases of which the middle three yield one item each. */
  lemma {:induction false} ThreeOfSix<T>(a: seq<T>, b: seq<T>, c: seq<T>, d: seq<T>, e: seq<T>, f: seq<T>, x: T, y: T, z: T)
    requires a == [] && b == [] && c == [x] && d == [y] && e == [z] && f == []
    ensures a + b + c + d + e + f == [x, y, z]
  {
  }

  /** A run's selection under `pick` when only the three step phases yield anything, one item each. */
  lemma {:induction false} RunYieldsThree<T>(s: Settings, store: CookieStore, obs: Observations, pick: Event -> seq<T>, x: T, y: T, z: T)
    requires Collect(LoadCookies(store, obs.cookiesRejected), pick) == []
    requires Collect(Authenticate(s.credentials, store, obs).events, pick) == []
    requires Collect(DeleteEvents(s, obs), pick) == [x]
    requires Collect(CreateEvents(s, obs), pick) == [y]
    requires Collect(DeployEvents(s, obs), pick) == [z]
    requires Collect(CleanupEvents(obs.cleanupRun), pick) == []
    ensures Collect(Run(s, store, obs).trace, pick) == [x, y, z]
  {
    RunPhases(s, store, obs, pick);
    ThreeOfSix(Collect(LoadCookies(store, obs.cookiesRejected), pick),
               Collect(Authenticate(s.credentials, store, obs).events, pick),
               Collect(DeleteEvents(s, obs), pick), Collect(CreateEvents(s, obs), pick),
               Collect(DeployEvents(s, obs), pick), Collect(CleanupEvents(obs.cleanupRun), pick), x, y, z);
  }

  /** Steps are started exactly once each, delete, then create, then deploy. */
  lemma {:induction false} StepsStartInOrder(s: Settings, store: CookieStore, obs: Observations)
    ensures StepsStarted(Run(s, store, obs).trace) == [DeleteServer, CreateServer, DeployService]
  {
    LoadLog(store, obs.cookiesRejected);
    QuietLog(LoadCookies(store, obs.cookiesRejected));
    SessionLog(s.credentials, store, obs);
    CleanupLog(obs.cleanupRun);
    QuietLog(CleanupEvents(obs.cleanupRun));
    WrappedLog(DeleteServer, StepAttempt(DeleteServer, s, obs));
    WrappedLog(CreateServer, StepAttempt(CreateServer, s, obs));
    WrappedLog(DeployService, StepAttempt(DeployService, s, obs));
    RunYieldsThree(s, store, obs, StartOf, DeleteServer, CreateServer, DeployService);
  }

  /**
   * Step isolation: delete, create and deploy are each started exactly once,
   * in that order, and each logs exactly one outcome that depends on its own
   * driver runs only, whatever the cookie file, the login and the other steps did.
   */
  lemma {:induction false} StepsRunOnceInOrder(s: Settings, store: CookieStore, obs: Observations)
    ensures StepsStarted(Run(s, store, obs).trace) == [DeleteServer, CreateServer, DeployService]
    ensures Outcomes(Run(s, store, obs).trace) ==
      [ StepOutcome(DeleteServer, !Execute(DeletePlan(s.serverName, obs.serversListed), obs.deleteRun).raised),
        StepOutcome(CreateServer, !CreateAttempt(s.serverName, obs.createRun, obs.fallbackRun).raised),
        StepOutcome(DeployService, !Execute(DeployPlan(s.serverName, s.image, s.envBlock), obs.deployRun).raised) ]
  {
    assert StepsStarted(Run(s, store, obs).trace) == [DeleteServer, CreateServer, DeployService] by {
      StepsStartInOrder(s, store, obs);
    }
    assert StepAttempt(DeleteServer, s, obs) == Execute(DeletePlan(s.serverName, obs.serversListed), obs.deleteRun);
    assert StepAttempt(CreateServer, s, obs) == CreateAttempt(s.serverName, obs.createRun, obs.fallbackRun);
    assert StepAttempt(DeployService, s, obs) == Execute(DeployPlan(s.serverName, s.image, s.envBlock), obs.deployRun);
    var od := StepOutcome(DeleteServer, !StepAttempt(DeleteServer, s, obs).raised);
    var oc := StepOutcome(CreateServer, !StepAttempt(CreateServer, s, obs).raised);
    var op := StepOutcome(DeployService, !StepAttempt(DeployService, s, obs).raised);
    assert Collect(LoadCookies(store, obs.cookiesRejected), OutcomeOf) == [] by {
      LoadLog(store, obs.cookiesRejected);
      QuietLog(LoadCookies(store, obs.cookiesRejected));
    }
    assert Collect(Authenticate(s.credentials, store, obs).events, OutcomeOf) == [] by {
      SessionLog(s.credentials, store, obs);
    }
    assert Collect(CleanupEvents(obs.cleanupRun), OutcomeOf) == [] by {
      CleanupLog(obs.cleanupRun);
      QuietLog(CleanupEvents(obs.cleanupRun));
    }
    assert Collect(DeleteEvents(s, obs), OutcomeOf) == [od] by {
      WrappedLog(DeleteServer, StepAttempt(DeleteServer, s, obs));
    }
    assert Collect(CreateEvents(s, obs), OutcomeOf) == [oc] by {
      WrappedLog(CreateServer, StepAttempt(CreateServer, s, obs));
    }
    assert Collect(DeployEvents(s, obs), OutcomeOf) == [op] by {
      WrappedLog(DeployService, StepAttempt(DeployService, s, obs));
    }
    RunYieldsThree(s, store, obs, OutcomeOf, od, oc, op);
  }

  /**
   * A primary "Deploy Service" locator that raises does not fail the create
   * step: its outcome is decided by the fallback path alone, and when that
   * path goes through, the step succeeds having clicked the fallback button
   * and never the primary one.
   */
  lemma {:induction false} PrimaryMissFallsBack(s: Settings, store: CookieStore, obs: Observations)
    requires obs.createRun == RaisesAt(DeployServiceIndex)
    ensures |Outcomes(Run(s, store, obs).trace)| == 3
    ensures Outcomes(Run(s, store, obs).trace)[1] == StepOutcome(CreateServer,
      !Execute(CreatePlan(s.serverName, false)[DeployServiceIndex..], obs.fallbackRun).raised)
    ensures obs.fallbackRun == Completes ==>
      && Outcomes(Run(s, store, obs).trace)[1] == StepOutcome(CreateServer, true)
      && Did(Click(FallbackDeployService)) in CreateEvents(s, obs)
      && Did(Click(PrimaryDeployService)) !in CreateEvents(s, obs)
  {
    var attempt := CreateAttempt(s.serverName, obs.createRun, obs.fallbackRun);
    assert Outcomes(Run(s, store, obs).trace)[1] == StepOutcome(CreateServer, !attempt.raised)
        && |Outcomes(Run(s, store, obs).trace)| == 3 by {
      StepsRunOnceInOrder(s, store, obs);
    }
    assert attempt.raised == Execute(CreatePlan(s.serverName, false)[DeployServiceIndex..], obs.fallbackRun).raised;
    if obs.fallbackRun == Completes {
      FallbackStepClicksFallback(s, obs);
    }
  }

  /** A create step whose primary click raised and whose fallback path completed clicks only the fallback button and succeeds. */
  lemma {:induction false} FallbackStepClicksFallback(s: Settings, obs: Observations)
    requires obs.createRun == RaisesAt(DeployServiceIndex) && obs.fallbackRun == Completes
    ensures !CreateAttempt(s.serverName, obs.createRun, obs.fallbackRun).raised
    ensures Did(Click(FallbackDeployService)) in CreateEvents(s, obs)
    ensures Did(Click(PrimaryDeployService)) !in CreateEvents(s, obs)
  {
    var attempt := CreateAttempt(s.serverName, obs.createRun, obs.fallbackRun);
    assert CreateEvents(s, obs) == Wrapped(CreateServer, attempt);
    assert !attempt.raised && Click(FallbackDeployService) in attempt.performed
        && Click(PrimaryDeployService) !in attempt.performed by {
      CreateFallsBack(s.serverName, obs.createRun, obs.fallbackRun);
    }
    WrappedKinds(CreateServer, attempt);
  }

  /**
   * The deploy step's success line (main.py:203) is printed between the waits
   * at 202 and 204, so it shows in the trace as the completed first of those
   * waits, not as the step's outcome: a raise in the last wait logs the line
   * and then fails the step.
   */
  lemma {:induction false} DeployedLineLogged(s: Settings, obs: Observations)
    ensures Did(Wait(5000)) in DeployEvents(s, obs) <==> (obs.deployRun.RaisesAt? ==> obs.deployRun.index > 7)
    ensures obs.deployRun == RaisesAt(8) ==>
      var es := DeployEvents(s, obs);
      Did(Wait(5000)) in es && es[|es| - 1] == StepEnded(StepOutcome(DeployService, false))
  {
    var plan := DeployPlan(s.serverName, s.image, s.envBlock);
    var attempt := Execute(plan, obs.deployRun);
    assert StepAttempt(DeployService, s, obs) == attempt;
    WrappedKinds(DeployService, attempt);
    var n := if attempt.raised then obs.deployRun.index else |plan|;
    assert attempt.performed == plan[..n];
    DeployWaitBeforePrint(s.serverName, s.image, s.envBlock, n);
  }

  // ---------------------------------------------------------------------
  // Session handling

  /** An event occurs in a run's trace exactly when it occurs in one of the six phases. */
  lemma {:induction false} RunMembers(s: Settings, store: CookieStore, obs: Observations, e: Event)
    ensures e in Run(s, store, obs).trace <==>
      || e in LoadCookies(store, obs.cookiesRejected)
      || e in Authenticate(s.credentials, store, obs).events
      || e in DeleteEvents(s, obs)
      || e in CreateEvents(s, obs)
      || e in DeployEvents(s, obs)
      || e in CleanupEvents(obs.cleanupRun)
  {
  }

  /** The three steps log only their starts, their driver calls and their outcomes. */
  lemma {:induction false} StepsLogNoOtherEvents(s: Settings, obs: Observations, e: Event)
    requires !e.StepStarted? && !e.Did? && !e.StepEnded?
    ensures e !in DeleteEvents(s, obs) && e !in CreateEvents(s, obs) && e !in DeployEvents(s, obs)
  {
    WrappedKinds(DeleteServer, StepAttempt(DeleteServer, s, obs));
    WrappedKinds(CreateServer, StepAttempt(CreateServer, s, obs));
    WrappedKinds(DeployService, StepAttempt(DeployService, s, obs));
  }

  /** Outside the session phase, no event belongs to the login. */
  lemma {:induction false} LoginOnlyInSession(s: Settings, store: CookieStore, obs: Observations, e: Event)
    requires e == LoginStarted || e == LoginSucceeded
    ensures e in Run(s, store, obs).trace <==> e in Authenticate(s.credentials, store, obs).events
  {
    var load, session := LoadCookies(store, obs.cookiesRejected), Authenticate(s.credentials, store, obs).events;
    var d, c, p, k := DeleteEvents(s, obs), CreateEvents(s, obs), DeployEvents(s, obs), CleanupEvents(obs.cleanupRun);
    assert e !in d && e !in c && e !in p by {
      StepsLogNoOtherEvents(s, obs, e);
    }
    assert e !in k by {
      CleanupLog(obs.cleanupRun);
    }
    assert e !in load by {
      LoadLog(store, obs.cookiesRejected);
    }
    OnlyInSecond(load, session, d, c, p, k, e);
  }

  /** An event absent from all phases but the second is in the six together exactly when it is in the second. */
  lemma OnlyInSecond<T>(a: seq<T>, b: seq<T>, c: seq<T>, d: seq<T>, e: seq<T>, f: seq<T>, x: T)
    requires x !in a && x !in c && x !in d && x !in e && x !in f
    ensures x in a + b + c + d + e + f <==> x in b
  {
  }

  /** Within the session phase, the login is started exactly when the probe URL lacks "/app". */
  lemma {:induction false} SessionLogsLogin(creds: Credentials, store: CookieStore, obs: Observations)
    ensures LoginStarted in Authenticate(creds, store, obs).events <==> ProbeLacksApp(obs)
    ensures LoginSucceeded in Authenticate(creds, store, obs).events <==> FreshLoginSucceeded(creds, obs)
  {
    var events := Authenticate(creds, store, obs).events;
    var probe := Execute(ProbePlan, obs.probeRun);
    var visit := Performed(probe.performed);
    PerformedMembers(probe.performed);
    if ProbeLacksApp(obs) {
      var login := PasswordLogin(creds, store, obs).events;
      assert events == visit + login;
      assert events[|visit|] == login[0];
    } else if probe.raised {
      assert events == visit + [LoginFailed];
    } else {
      assert events == visit;
    }
  }

  /** The password login runs if and only if the probe loaded a page whose URL lacks "/app". */
  lemma {:induction false} LoginIffProbeLacksApp(s: Settings, store: CookieStore, obs: Observations)
    ensures LoginStarted in Run(s, store, obs).trace <==> ProbeLacksApp(obs)
  {
    LoginOnlyInSession(s, store, obs, LoginStarted);
    SessionLogsLogin(s.credentials, store, obs);
  }

  /**
   * A run logs a successful login exactly when a fresh login reached the app,
   * so a save that failed to open the file is told apart from a missed redirect.
   */
  lemma {:induction false} LoginSuccessLogged(s: Settings, store: CookieStore, obs: Observations)
    ensures LoginSucceeded in Run(s, store, obs).trace <==> FreshLoginSucceeded(s.credentials, obs)
  {
    LoginOnlyInSession(s, store, obs, LoginSucceeded);
    SessionLogsLogin(s.credentials, store, obs);
  }

  /** A pair of neighbouring events in a concatenation lies in one part or straddles the seam. */
  lemma FollowsAppend(a: seq<Event>, b: seq<Event>, x: Event, y: Event)
    ensures Follows(a + b, x, y) <==>
      || Follows(a, x, y)
      || Follows(b, x, y)
      || (|a| > 0 && |b| > 0 && a[|a| - 1] == x && b[0] == y)
  {
    if Follows(a + b, x, y) {
      FollowsSplit(a, b, x, y);
    }
    if Follows(a, x, y) || Follows(b, x, y) || (|a| > 0 && |b| > 0 && a[|a| - 1] == x && b[0] == y) {
      FollowsJoin(a, b, x, y);
    }
  }

  lemma FollowsSplit(a: seq<Event>, b: seq<Event>, x: Event, y: Event)
    requires Follows(a + b, x, y)
    ensures Follows(a, x, y) || Follows(b, x, y) || (|a| > 0 && |b| > 0 && a[|a| - 1] == x && b[0] == y)
  {
    var t := a + b;
    var i :| 0 <= i < |t| - 1 && t[i] == x && t[i + 1] == y;
    if i + 1 < |a| {
      assert a[i] == x && a[i + 1] == y;
    } else if i >= |a| {
      assert b[i - |a|] == x && b[i - |a| + 1] == y;
    } else {
      assert a[|a| - 1] == x && b[0] == y;
    }
  }

  lemma FollowsJoin(a: seq<Event>, b: seq<Event>, x: Event, y: Event)
    requires Follows(a, x, y) || Follows(b, x, y) || (|a| > 0 && |b| > 0 && a[|a| - 1] == x && b[0] == y)
    ensures Follows(a + b, x, y)
  {
    var t := a + b;
    if Follows(a, x, y) {
      var i :| 0 <= i < |a| - 1 && a[i] == x && a[i + 1] == y;
      assert t[i] == x && t[i + 1] == y;
    } else if Follows(b, x, y) {
      var i :| 0 <= i < |b| - 1 && b[i] == x && b[i + 1] == y;
      assert t[|a| + i] == x && t[|a| + i + 1] == y;
    } else {
      assert t[|a| - 1] == x && t[|a|] == y;
    }
  }

  lemma FollowsNeedsBoth(t: seq<Event>, x: Event, y: Event)
    ensures Follows(t, x, y) ==> x in t && y in t
  {
    if Follows(t, x, y) {
      var i :| 0 <= i < |t| - 1 && t[i] == x && t[i + 1] == y;
      assert t[i] in t && t[i + 1] in t;
    }
  }

  /** Events after which `y` never occurs add no pair ending in `y`. */
  lemma FollowsBeforeOnly(a: seq<Event>, b: seq<Event>, x: Event, y: Event)
    requires y !in b
    ensures Follows(a + b, x, y) <==> Follows(a, x, y)
  {
    FollowsAppend(a, b, x, y);
    FollowsNeedsBoth(b, x, y);
    if |b| > 0 {
      assert b[0] in b;
    }
  }

  /** Events before which `x` never occurs add no pair starting with `x`. */
  lemma FollowsAfterOnly(a: seq<Event>, b: seq<Event>, x: Event, y: Event)
    requires x !in a
    ensures Follows(a + b, x, y) <==> Follows(b, x, y)
  {
    FollowsAppend(a, b, x, y);
    FollowsNeedsBoth(a, x, y);
    if |a| > 0 {
      assert a[|a| - 1] in a;
    }
  }

  /** In six phases, a pair whose first event is absent from the first phase and whose second is absent from the last four lies in the second phase. */
  lemma FollowsInSecond(a: seq<Event>, b: seq<Event>, c: seq<Event>, d: seq<Event>, e: seq<Event>, f: seq<Event>, x: Event, y: Event)
    requires x !in a && y !in c && y !in d && y !in e && y !in f
    ensures Follows(a + b + c + d + e + f, x, y) <==> Follows(b, x, y)
  {
    FollowsBeforeOnly(a + b + c + d + e, f, x, y);
    FollowsBeforeOnly(a + b + c + d, e, x, y);
    FollowsBeforeOnly(a + b + c, d, x, y);
    FollowsBeforeOnly(a + b, c, x, y);
    FollowsAfterOnly(a, b, x, y);
  }

  /** When `y` is absent from the first part and `x` from the second, a pair can only straddle the seam. */
  lemma FollowsAtSeam(a: seq<Event>, b: seq<Event>, x: Event, y: Event)
    requires y !in a && x !in b
    ensures Follows(a + b, x, y) <==> |a| > 0 && |b| > 0 && a[|a| - 1] == x && b[0] == y
  {
    FollowsAppend(a, b, x, y);
    FollowsNeedsBoth(a, x, y);
    FollowsNeedsBoth(b, x, y);
  }

  /** Within the password login, a failure right after the redirect wait is logged exactly when the plan completed and missed the app. */
  lemma {:induction false} PasswordLoginMissLogged(creds: Credentials, store: CookieStore, obs: Observations)
    ensures Follows(PasswordLogin(creds, store, obs).events, Did(Wait(10000)), LoginFailed) <==>
      !Execute(LoginPlan(creds.username, creds.password), obs.loginRun).raised && !Contains(obs.postLoginUrl, AppPath)
  {
    var plan := LoginPlan(creds.username, creds.password);
    var login := Execute(plan, obs.loginRun);
    var reached := !login.raised && Contains(obs.postLoginUrl, AppPath);
    var ending := LoginEnding(reached, store, obs).events;
    var perf := Performed(login.performed);
    var head := [LoginStarted] + perf;
    var x := Did(Wait(10000));
    assert PasswordLogin(creds, store, obs).events == head + ending;
    assert LoginFailed !in head by {
      PerformedMembers(login.performed);
    }
    assert forall e :: e in ending ==> !e.Did?;
    FollowsAtSeam(head, ending, x, LoginFailed);
    assert head[|head| - 1] == x <==> !login.raised by {
      var n := |login.performed|;
      assert n == |plan| <==> !login.raised;
      if n > 0 {
        assert head[|head| - 1] == Did(plan[n - 1]);
        LoginWaitIsLast(creds.username, creds.password, n);
      }
    }
    assert |ending| > 0 && (ending[0] == LoginFailed <==> !reached);
  }

  /** Within the session phase, a failure right after the redirect wait is logged exactly on a missed redirect. */
  lemma {:induction false} SessionMissLogged(creds: Credentials, store: CookieStore, obs: Observations)
    ensures Follows(Authenticate(creds, store, obs).events, Did(Wait(10000)), LoginFailed) <==> RedirectMissed(creds, obs)
  {
    var events := Authenticate(creds, store, obs).events;
    var probe := Execute(ProbePlan, obs.probeRun);
    var visit := Performed(probe.performed);
    var x := Did(Wait(10000));
    assert x !in visit by {
      PerformedMembers(probe.performed);
      PrefixMembers(probe.performed, ProbePlan);
    }
    if probe.raised {
      assert events == visit + [LoginFailed];
      FollowsAfterOnly(visit, [LoginFailed], x, LoginFailed);
      FollowsNeedsBoth([LoginFailed], x, LoginFailed);
    } else if Contains(obs.probeUrl, AppPath) {
      assert events == visit;
      FollowsNeedsBoth(visit, x, LoginFailed);
    } else {
      assert events == visit + PasswordLogin(creds, store, obs).events;
      FollowsAfterOnly(visit, PasswordLogin(creds, store, obs).events, x, LoginFailed);
      PasswordLoginMissLogged(creds, store, obs);
    }
  }

  /**
   * The "not redirected to app page" line (main.py:64) can be read off the
   * trace: it is printed exactly when `LoginFailed` comes directly after the
   * login plan's closing wait. A `LoginFailed` anywhere else comes from the
   * handler at line 67 alone.
   */
  lemma {:induction false} RedirectMissLogged(s: Settings, store: CookieStore, obs: Observations)
    ensures Follows(Run(s, store, obs).trace, Did(Wait(10000)), LoginFailed) <==> RedirectMissed(s.credentials, obs)
  {
    var load, session := LoadCookies(store, obs.cookiesRejected), Authenticate(s.credentials, store, obs).events;
    var d, c, p, k := DeleteEvents(s, obs), CreateEvents(s, obs), DeployEvents(s, obs), CleanupEvents(obs.cleanupRun);
    assert LoginFailed !in d && LoginFailed !in c && LoginFailed !in p by {
      StepsLogNoOtherEvents(s, obs, LoginFailed);
    }
    assert LoginFailed !in k by {
      CleanupLog(obs.cleanupRun);
    }
    LoadLog(store, obs.cookiesRejected);
    FollowsInSecond(load, session, d, c, p, k, Did(Wait(10000)), LoginFailed);
    SessionMissLogged(s.credentials, store, obs);
  }

  /**
   * Cookie reuse: when the probe completes and lands in the app, no login
   * runs, no credential is typed and the cookie file is left as it was.
   */
  lemma {:induction false} ValidSessionSkipsLogin(s: Settings, store: CookieStore, obs: Observations)
    requires obs.probeRun == Completes && Contains(obs.probeUrl, AppPath)
    ensures LoginStarted !in Run(s, store, obs).trace
    ensures Authenticate(s.credentials, store, obs).events == [Did(Goto(LoginPageUrl)), Did(Wait(15000))]
    ensures Run(s, store, obs).store == store
  {
    assert LoginStarted !in Run(s, store, obs).trace by {
      LoginIffProbeLacksApp(s, store, obs);
    }
    ValidSessionIsKept(s.credentials, store, obs);
  }

  /** A probe that lands in the app is the whole session phase, and it keeps the cookie file. */
  lemma {:induction false} ValidSessionIsKept(creds: Credentials, store: CookieStore, obs: Observations)
    requires obs.probeRun == Completes && Contains(obs.probeUrl, AppPath)
    ensures Authenticate(creds, store, obs) == SessionResult([Did(Goto(LoginPageUrl)), Did(Wait(15000))], store)
  {
    assert Execute(ProbePlan, obs.probeRun).performed == ProbePlan;
  }

  /** The cookie file after a run: rewritten only by a fresh login that reached the app. */
  function StoreAfter(creds: Credentials, store: CookieStore, obs: Observations): CookieStore {
    if !FreshLoginSucceeded(creds, obs) then store
    else match obs.save
      case Written => Holds(obs.sessionCookies)
      case NotWritten => store
      case WriteInterrupted => Unreadable
  }

  lemma {:induction false} OnlyOneOfSix<T>(a: seq<T>, b: seq<T>, c: seq<T>, d: seq<T>, e: seq<T>, f: seq<T>)
    requires a == [] && c == [] && d == [] && e == [] && f == []
    ensures a + b + c + d + e + f == b
  {
  }

  /** Only the session phase of a run saves cookies. */
  lemma {:induction false} RunSavesInSession(s: Settings, store: CookieStore, obs: Observations)
    ensures Saves(Run(s, store, obs).trace) == Collect(Authenticate(s.credentials, store, obs).events, SavedOf)
  {
    var load, session := LoadCookies(store, obs.cookiesRejected), Authenticate(s.credentials, store, obs).events;
    assert Collect(load, SavedOf) == [] by {
      QuietLog(load);
    }
    assert Collect(DeleteEvents(s, obs), SavedOf) == [] by {
      WrappedLog(DeleteServer, StepAttempt(DeleteServer, s, obs));
    }
    assert Collect(CreateEvents(s, obs), SavedOf) == [] by {
      WrappedLog(CreateServer, StepAttempt(CreateServer, s, obs));
    }
    assert Collect(DeployEvents(s, obs), SavedOf) == [] by {
      WrappedLog(DeployService, StepAttempt(DeployService, s, obs));
    }
    assert Collect(CleanupEvents(obs.cleanupRun), SavedOf) == [] by {
      CleanupLog(obs.cleanupRun);
      QuietLog(CleanupEvents(obs.cleanupRun));
    }
    RunPhases(s, store, obs, SavedOf);
    OnlyOneOfSix(Collect(load, SavedOf), Collect(session, SavedOf), Collect(DeleteEvents(s, obs), SavedOf),
                 Collect(CreateEvents(s, obs), SavedOf), Collect(DeployEvents(s, obs), SavedOf),
                 Collect(CleanupEvents(obs.cleanupRun), SavedOf));
  }

  /** The password login's saves: the cookie set, once, exactly when it reached the app and the file was written. */
  lemma {:induction false} PasswordLoginSaves(creds: Credentials, store: CookieStore, obs: Observations)
    ensures Collect(PasswordLogin(creds, store, obs).events, SavedOf) ==
      (if LoginReachedApp(creds, obs) && obs.save == Written then [obs.sessionCookies] else [])
  {
    var login := Execute(LoginPlan(creds.username, creds.password), obs.loginRun);
    var reached := !login.raised && Contains(obs.postLoginUrl, AppPath);
    var tried, last := [LoginStarted] + Performed(login.performed), LoginEnding(reached, store, obs).events;
    assert PasswordLogin(creds, store, obs).events == tried + last;
    assert Collect(tried, SavedOf) == [] by {
      CollectAppend([LoginStarted], Performed(login.performed), SavedOf);
      CollectSkipsActions(login.performed, SavedOf);
    }
    assert Collect(last, SavedOf) == (if reached && obs.save == Written then [obs.sessionCookies] else []) by {
      if !reached {
        CollectOne(LoginFailed, SavedOf);
      } else {
        var x := last[1];
        assert last == [LoginSucceeded] + [x];
        CollectAppend([LoginSucceeded], [x], SavedOf);
        CollectOne(LoginSucceeded, SavedOf);
        CollectOne(x, SavedOf);
      }
    }
    CollectAppend(tried, last, SavedOf);
  }

  /** The session phase's saves: the cookie set, once, exactly on a written fresh login. */
  lemma {:induction false} SessionSaves(creds: Credentials, store: CookieStore, obs: Observations)
    ensures Collect(Authenticate(creds, store, obs).events, SavedOf) ==
      (if FreshLoginSucceeded(creds, obs) && obs.save == Written then [obs.sessionCookies] else [])
  {
    var events := Authenticate(creds, store, obs).events;
    var probe := Execute(ProbePlan, obs.probeRun);
    var visit := Performed(probe.performed);
    CollectSkipsActions(probe.performed, SavedOf);
    var last := events[|visit|..];
    assert events == visit + last;
    CollectAppend(visit, last, SavedOf);
    if ProbeLacksApp(obs) {
      assert last == PasswordLogin(creds, store, obs).events;
      PasswordLoginSaves(creds, store, obs);
    }
  }

  /**
   * Cookies are saved at most once, only after a fresh login whose URL
   * reached the app, and what is saved is the browser's cookie set at that
   * moment; the cookie file changes only then.
   */
  lemma {:induction false} CookiesSavedOnlyAfterFreshLogin(s: Settings, store: CookieStore, obs: Observations)
    ensures Saves(Run(s, store, obs).trace) ==
      (if FreshLoginSucceeded(s.credentials, obs) && obs.save == Written then [obs.sessionCookies] else [])
    ensures Run(s, store, obs).store == StoreAfter(s.credentials, store, obs)
  {
    RunSavesInSession(s, store, obs);
    SessionSaves(s.credentials, store, obs);
  }

  // ---------------------------------------------------------------------
  // Deleting the old server

  /** The session phase never confirms a deletion. */
  lemma {:induction false} SessionNeverConfirms(creds: Credentials, store: CookieStore, obs: Observations, a: UiAction)
    requires ConfirmsDeletion(a)
    ensures Did(a) !in Authenticate(creds, store, obs).events
  {
    SessionEventKinds(creds, store, obs);
    LoginNeverConfirms(creds.username, creds.password);
  }

  /** The create step never confirms a deletion. */
  lemma {:induction false} CreateStepNeverConfirms(s: Settings, obs: Observations, a: UiAction)
    requires ConfirmsDeletion(a)
    ensures Did(a) !in CreateEvents(s, obs)
  {
    var primary := obs.createRun != RaisesAt(DeployServiceIndex);
    var create := CreateAttempt(s.serverName, obs.createRun, obs.fallbackRun);
    WrappedKinds(CreateServer, create);
    PrefixMembers(create.performed, CreatePlan(s.serverName, primary));
    CreateNeverConfirms(s.serverName, primary);
  }

  /** The deploy step never confirms a deletion. */
  lemma {:induction false} DeployStepNeverConfirms(s: Settings, obs: Observations, a: UiAction)
    requires ConfirmsDeletion(a)
    ensures Did(a) !in DeployEvents(s, obs)
  {
    var deploy := Execute(DeployPlan(s.serverName, s.image, s.envBlock), obs.deployRun);
    WrappedKinds(DeployService, deploy);
    PrefixMembers(deploy.performed, DeployPlan(s.serverName, s.image, s.envBlock));
    DeployNeverConfirms(s.serverName, s.image, s.envBlock);
  }

  /** The cleanup never confirms a deletion. */
  lemma {:induction false} CleanupNeverConfirms(run: DriverRun, a: UiAction)
    requires ConfirmsDeletion(a)
    ensures Did(a) !in CleanupEvents(run)
  {
    var attempt := Execute(CleanupPlan, run);
    PerformedMembers(attempt.performed);
    PrefixMembers(attempt.performed, CleanupPlan);
  }

  /** A driver call of the delete step comes from the delete plan. */
  lemma {:induction false} DeleteStepActions(s: Settings, obs: Observations, a: UiAction)
    requires Did(a) in DeleteEvents(s, obs)
    ensures a in DeletePlan(s.serverName, obs.serversListed)
  {
    var attempt := Execute(DeletePlan(s.serverName, obs.serversListed), obs.deleteRun);
    WrappedKinds(DeleteServer, attempt);
    PrefixMembers(attempt.performed, DeletePlan(s.serverName, obs.serversListed));
  }

  /** Only the delete step types into the confirmation field or clicks the final delete button. */
  lemma {:induction false} OnlyDeleteStepConfirms(s: Settings, store: CookieStore, obs: Observations, a: UiAction)
    requires Did(a) in Run(s, store, obs).trace
    requires ConfirmsDeletion(a)
    ensures a in DeletePlan(s.serverName, obs.serversListed)
  {
    RunMembers(s, store, obs, Did(a));
    SessionNeverConfirms(s.credentials, store, obs, a);
    CreateStepNeverConfirms(s, obs, a);
    DeployStepNeverConfirms(s, obs, a);
    CleanupNeverConfirms(obs.cleanupRun, a);
    assert Did(a) in DeleteEvents(s, obs);
    DeleteStepActions(s, obs, a);
  }

  /** Whatever a prefix holds, the whole sequence holds. */
  lemma PrefixMembers<T>(pre: seq<T>, whole: seq<T>)
    requires pre <= whole
    ensures forall x :: x in pre ==> x in whole
  {
    assert whole == pre + whole[|pre|..];
  }

  /**
   * The run types a confirmation command only when the servers page listed
   * something, and that command is exactly "sudo rm -f " followed by the
   * configured server name; and it deletes only when something was listed.
   */
  lemma {:induction false} DeleteConfirmsOnlyListedServer(s: Settings, store: CookieStore, obs: Observations)
    ensures forall t :: Did(Fill(ConfirmField, t)) in Run(s, store, obs).trace ==>
      obs.serversListed > 0 && t == ConfirmationCommand(s.serverName)
    ensures forall a :: Did(a) in Run(s, store, obs).trace && DeletesServer(a) ==> obs.serversListed > 0
  {
    var trace := Run(s, store, obs).trace;
    forall t | Did(Fill(ConfirmField, t)) in trace
      ensures obs.serversListed > 0 && t == ConfirmationCommand(s.serverName)
    {
      OnlyDeleteStepConfirms(s, store, obs, Fill(ConfirmField, t));
      DeleteTypesOnlyConfirmation(s.serverName, obs.serversListed);
      DeleteOnlyWhenListed(s.serverName, obs.serversListed);
    }
    forall a | Did(a) in trace && DeletesServer(a)
      ensures obs.serversListed > 0
    {
      OnlyDeleteStepConfirms(s, store, obs, a);
      DeleteOnlyWhenListed(s.serverName, obs.serversListed);
    }
  }

  /** When the servers page listed something and the driver did not fail, the run confirms and deletes. */
  lemma {:induction false} ListedServerIsDeleted(s: Settings, store: CookieStore, obs: Observations)
    requires obs.serversListed > 0 && obs.deleteRun == Completes
    ensures Did(Fill(ConfirmField, ConfirmationCommand(s.serverName))) in Run(s, store, obs).trace
    ensures Did(Click(ConfirmDeleteButton)) in Run(s, store, obs).trace
  {
    var plan := DeletePlan(s.serverName, obs.serversListed);
    assert plan[7] == Fill(ConfirmField, ConfirmationCommand(s.serverName));
    assert plan[8] == Click(ConfirmDeleteButton);
    WrappedKinds(DeleteServer, StepAttempt(DeleteServer, s, obs));
    RunMembers(s, store, obs, Did(plan[7]));
    RunMembers(s, store, obs, Did(plan[8]));
  }

  /** With no server list, nothing in the run confirms a deletion. */
  lemma {:induction false} EmptyListConfirmsNothing(s: Settings, store: CookieStore, obs: Observations)
    requires obs.serversListed == 0
    ensures forall a :: Did(a) in Run(s, store, obs).trace ==> !ConfirmsDeletion(a)
  {
    assert DeletePlan(s.serverName, obs.serversListed) == CheckServers;
    forall a | Did(a) in Run(s, store, obs).trace
      ensures !ConfirmsDeletion(a)
    {
      if ConfirmsDeletion(a) {
        OnlyDeleteStepConfirms(s, store, obs, a);
        CheckServersConfirmsNothing(a);
      }
    }
  }

  /**
   * An empty servers page makes the delete step a no-op: nothing is typed
   * into the confirmation field, nothing is deleted, and the step succeeds
   * unless navigating to the servers page or counting its lists raised.
   */
  lemma {:induction false} EmptyListDeleteIsNoOp(s: Settings, store: CookieStore, obs: Observations)
    requires obs.serversListed == 0
    ensures forall a :: Did(a) in Run(s, store, obs).trace ==> !ConfirmsDeletion(a)
    ensures |Outcomes(Run(s, store, obs).trace)| == 3
    ensures Outcomes(Run(s, store, obs).trace)[0] ==
      StepOutcome(DeleteServer, !(obs.deleteRun.RaisesAt? && obs.deleteRun.index < |CheckServers|))
  {
    EmptyListConfirmsNothing(s, store, obs);
    assert DeletePlan(s.serverName, obs.serversListed) == CheckServers by {
      DeleteOnlyWhenListed(s.serverName, obs.serversListed);
    }
    StepsRunOnceInOrder(s, store, obs);
  }

  // ---------------------------------------------------------------------
  // Cleanup

  /** Everything a run does before its cleanup. */
  function BeforeCleanup(s: Settings, store: CookieStore, obs: Observations): seq<Event> {
    LoadCookies(store, obs.cookiesRejected) + Authenticate(s.credentials, store, obs).events
    + DeleteEvents(s, obs) + CreateEvents(s, obs) + DeployEvents(s, obs)
  }

  /** Nothing before the cleanup logs a cleanup failure. */
  lemma {:induction false} NoCleanupFailureBefore(s: Settings, store: CookieStore, obs: Observations)
    ensures CleanupFailed !in BeforeCleanup(s, store, obs)
  {
    assert CleanupFailed !in LoadCookies(store, obs.cookiesRejected) by {
      LoadLog(store, obs.cookiesRejected);
    }
    assert CleanupFailed !in Authenticate(s.credentials, store, obs).events by {
      SessionEventKinds(s.credentials, store, obs);
    }
    assert CleanupFailed !in DeleteEvents(s, obs) && CleanupFailed !in CreateEvents(s, obs)
        && CleanupFailed !in DeployEvents(s, obs) by {
      StepsLogNoOtherEvents(s, obs, CleanupFailed);
    }
    NotInFive(LoadCookies(store, obs.cookiesRejected), Authenticate(s.credentials, store, obs).events,
      DeleteEvents(s, obs), CreateEvents(s, obs), DeployEvents(s, obs), CleanupFailed);
  }

  lemma NotInFive<T>(a: seq<T>, b: seq<T>, c: seq<T>, d: seq<T>, e: seq<T>, x: T)
    requires x !in a && x !in b && x !in c && x !in d && x !in e
    ensures x !in a + b + c + d + e
  {
  }

  lemma LastOfAppend<T>(pre: seq<T>, post: seq<T>)
    requires |post| > 0
    ensures (pre + post)[|pre + post| - 1] == post[|post| - 1]
  {
  }

  /** A failing cleanup is logged, as the last event of the run. */
  lemma {:induction false} CleanupFailureLoggedLast(s: Settings, store: CookieStore, obs: Observations)
    ensures CleanupFailed in Run(s, store, obs).trace <==> Execute(CleanupPlan, obs.cleanupRun).raised
    ensures CleanupFailed in Run(s, store, obs).trace ==>
      Run(s, store, obs).trace[|Run(s, store, obs).trace| - 1] == CleanupFailed
  {
    var pre, post := BeforeCleanup(s, store, obs), CleanupEvents(obs.cleanupRun);
    assert Run(s, store, obs).trace == pre + post;
    NoCleanupFailureBefore(s, store, obs);
    LastOfAppend(pre, post);
  }

  /**
   * The cleanup cannot influence the rest of the run: the cookie file, the
   * steps started and their outcomes are the same whatever the cleanup did.
   */
  lemma {:induction false} CleanupChangesNothingElse(s: Settings, store: CookieStore, obs: Observations, other: DriverRun)
    ensures Run(s, store, obs.(cleanupRun := other)).store == Run(s, store, obs).store
    ensures StepsStarted(Run(s, store, obs.(cleanupRun := other)).trace) == StepsStarted(Run(s, store, obs).trace)
    ensures Outcomes(Run(s, store, obs.(cleanupRun := other)).trace) == Outcomes(Run(s, store, obs).trace)
  {
    var obs' := obs.(cleanupRun := other);
    assert Run(s, store, obs').store == Run(s, store, obs).store by {
      CookiesSavedOnlyAfterFreshLogin(s, store, obs);
      CookiesSavedOnlyAfterFreshLogin(s, store, obs');
      assert StoreAfter(s.credentials, store, obs') == StoreAfter(s.credentials, store, obs);
    }
    var t, t' := Run(s, store, obs).trace, Run(s, store, obs').trace;
    assert StepsStarted(t') == StepsStarted(t) && Outcomes(t') == Outcomes(t) by {
      StepsRunOnceInOrder(s, store, obs);
      StepsRunOnceInOrder(s, store, obs');
    }
  }

  // ---------------------------------------------------------------------
  // End to end

  /** The configuration of the demo scenario. */
  lemma {:induction false} DemoSettings(gtPw: Variable)
    ensures Load(Environment(gtPw, Set("nginx:latest"), Set("demo1"), Set("A=1\\nB=2")))
      == Settings(ParseCredentials(gtPw), "nginx:latest", "demo1", "A=1\nB=2")
  {
    var env := Environment(gtPw, Set("nginx:latest"), Set("demo1"), Set("A=1\\nB=2"));
    var lines := ["A=1", "B=2"];
    assert JoinWith(lines, Escape) == "A=1\\nB=2";
    assert JoinWith(lines, "\n") == "A=1\nB=2";
    assert forall k :: 0 <= k < |lines| ==> EscapeFree(lines[k]);
    LoadSplitsEnvLines(env, lines);
  }

  /** The events of a create step that went through: picking the location, then naming the server. */
  lemma {:induction false} CompletedCreateLayout(name: string, run: DriverRun, fallbackRun: DriverRun)
    requires !CreateAttempt(name, run, fallbackRun).raised
    ensures var c := Wrapped(CreateServer, CreateAttempt(name, run, fallbackRun));
      |c| == 12 && c[7] == Did(Click(Button(Location + " Select"))) && c[8] == Did(Fill(ServerNameField, name))
  {
    CreateNamesServer(name, run != RaisesAt(DeployServiceIndex));
  }

  /** The events of a deploy step that went through: filling the environment, applying, deploying. */
  lemma {:induction false} CompletedDeployLayout(name: string, image: string, env: string, run: DriverRun)
    requires !Execute(DeployPlan(name, image, env), run).raised
    ensures var d := Wrapped(DeployService, Execute(DeployPlan(name, image, env), run));
      |d| == 11 && d[5] == Did(Fill(EnvField, env)) && d[6] == Did(Click(ApplyButton))
      && d[7] == Did(Click(DeployButton))
  {
  }

  /**
   * Positions `i` and `j` in trace `t`: at `i`, right after the location is
   * picked, the server is named `name`; later, at `j`, the environment field
   * receives `env`, and Apply and then Deploy are clicked.
   */
  predicate NamesThenDeploys(t: seq<Event>, i: int, j: int, name: string, env: string) {
    0 < i < j && j + 2 < |t|
    && t[i - 1] == Did(Click(Button(Location + " Select")))
    && t[i] == Did(Fill(ServerNameField, name))
    && t[j] == Did(Fill(EnvField, env))
    && t[j + 1] == Did(Click(ApplyButton))
    && t[j + 2] == Did(Click(DeployButton))
  }

  /** A create segment followed directly by a deploy segment places the naming before the deploying. */
  lemma {:induction false} CreateThenDeployPlacement(t: seq<Event>, pre: seq<Event>, c: seq<Event>, d: seq<Event>,
                                                     post: seq<Event>, name: string, env: string)
    requires t == pre + c + d + post
    requires |c| == 12 && c[7] == Did(Click(Button(Location + " Select"))) && c[8] == Did(Fill(ServerNameField, name))
    requires |d| == 11 && d[5] == Did(Fill(EnvField, env)) && d[6] == Did(Click(ApplyButton))
      && d[7] == Did(Click(DeployButton))
    ensures exists i, j :: NamesThenDeploys(t, i, j, name, env)
  {
    var i, j := |pre| + 8, |pre| + |c| + 5;
    assert t[i - 1] == c[7] && t[i] == c[8];
    assert t[j] == d[5] && t[j + 1] == d[6] && t[j + 2] == d[7];
    assert NamesThenDeploys(t, i, j, name, env);
  }

  /** In any run where create and deploy go through, the server is named and then the service deployed. */
  lemma {:induction false} CreateThenDeployOrder(s: Settings, store: CookieStore, obs: Observations)
    requires !CreateAttempt(s.serverName, obs.createRun, obs.fallbackRun).raised
    requires !Execute(DeployPlan(s.serverName, s.image, s.envBlock), obs.deployRun).raised
    ensures exists i, j :: NamesThenDeploys(Run(s, store, obs).trace, i, j, s.serverName, s.envBlock)
  {
    var pre := LoadCookies(store, obs.cookiesRejected) + Authenticate(s.credentials, store, obs).events + DeleteEvents(s, obs);
    var c, d, post := CreateEvents(s, obs), DeployEvents(s, obs), CleanupEvents(obs.cleanupRun);
    assert |c| == 12 && c[7] == Did(Click(Button(Location + " Select"))) && c[8] == Did(Fill(ServerNameField, s.serverName)) by {
      assert StepAttempt(CreateServer, s, obs) == CreateAttempt(s.serverName, obs.createRun, obs.fallbackRun);
      CompletedCreateLayout(s.serverName, obs.createRun, obs.fallbackRun);
    }
    assert |d| == 11 && d[5] == Did(Fill(EnvField, s.envBlock)) && d[6] == Did(Click(ApplyButton))
      && d[7] == Did(Click(DeployButton)) by {
      assert StepAttempt(DeployService, s, obs) == Execute(DeployPlan(s.serverName, s.image, s.envBlock), obs.deployRun);
      CompletedDeployLayout(s.serverName, s.image, s.envBlock, obs.deployRun);
    }
    assert Run(s, store, obs).trace == pre + c + d + post;
    CreateThenDeployPlacement(Run(s, store, obs).trace, pre, c, d, post, s.serverName, s.envBlock);
  }

  /**
   * With SERVER_NAME "demo1", DOCKER "nginx:latest" and ENVSET "A=1\\nB=2"
   * (a literal backslash-n), and create and deploy going through, the run
   * picks Singapore and names the new server "demo1", and afterwards fills the
   * bulk environment field with the two lines "A=1" and "B=2", then clicks
   * Apply, then Deploy.
   */
  lemma {:induction false} DemoDeployment(gtPw: Variable, store: CookieStore, obs: Observations)
    requires !CreateAttempt("demo1", obs.createRun, obs.fallbackRun).raised
    requires !Execute(DeployPlan("demo1", "nginx:latest", "A=1\nB=2"), obs.deployRun).raised
    ensures var s := Load(Environment(gtPw, Set("nginx:latest"), Set("demo1"), Set("A=1\\nB=2")));
      exists i, j :: NamesThenDeploys(Run(s, store, obs).trace, i, j, "demo1", "A=1\nB=2")
  {
    DemoSettings(gtPw);
    CreateThenDeployOrder(Settings(ParseCredentials(gtPw), "nginx:latest", "demo1", "A=1\nB=2"), store, obs);
  }
}
